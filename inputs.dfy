/**
 * The four host inputs a sensor can depend on, the include flags that pick
 * them, the configuration that names their entities, and the four snapshot
 * slots a sensor keeps for them.
 */
module Inputs {
  import opened Wrappers
  import opened EntityStates

  datatype Input = LowTariff | HighTariff | LowConsumption | HighConsumption

  /** The order in which the constructor appends tracked entities. */
  const InputOrder: seq<Input> := [LowTariff, HighTariff, LowConsumption, HighConsumption]

  /** Position of an input in InputOrder. */
  function Rank(i: Input): nat {
    match i
    case LowTariff => 0
    case HighTariff => 1
    case LowConsumption => 2
    case HighConsumption => 3
  }

  /** The constructor's `include_*` flags, in the order of its parameters. */
  datatype Flags = Flags(lowConsumption: bool, highConsumption: bool, lowTariff: bool, highTariff: bool) {
    predicate Has(i: Input) {
      match i
      case LowTariff => lowTariff
      case HighTariff => highTariff
      case LowConsumption => lowConsumption
      case HighConsumption => highConsumption
    }

    function CountTrue(): nat {
      (if lowTariff then 1 else 0) + (if highTariff then 1 else 0)
      + (if lowConsumption then 1 else 0) + (if highConsumption then 1 else 0)
    }
  }

  /** A configuration subentry: its id, its type and the device's two consumption entities. */
  datatype Subentry = Subentry(subentryId: string, subentryType: string,
                               lowConsumptionEntity: EntityId, highConsumptionEntity: EntityId)

  /** The configuration entry: the two tariff entities shared by all devices, and its subentries in order. */
  datatype Entry = Entry(lowTariffEntity: EntityId, highTariffEntity: EntityId, subentries: seq<Subentry>)

  /** Tariff entities come from the entry, consumption entities from the subentry. */
  function EntityIdOf(entry: Entry, subentry: Subentry, i: Input): EntityId {
    match i
    case LowTariff => entry.lowTariffEntity
    case HighTariff => entry.highTariffEntity
    case LowConsumption => subentry.lowConsumptionEntity
    case HighConsumption => subentry.highConsumptionEntity
  }

  /** The elements of xs whose flag is set, in their order in xs. */
  function Select(flags: Flags, xs: seq<Input>): seq<Input> {
    if xs == [] then []
    else (if flags.Has(xs[0]) then [xs[0]] else []) + Select(flags, xs[1..])
  }

  /** The inputs the flags include, in constructor order. */
  function Included(flags: Flags): seq<Input> {
    Select(flags, InputOrder)
  }

  lemma {:induction false} SelectMembership(flags: Flags, xs: seq<Input>, x: Input)
    ensures x in Select(flags, xs) <==> x in xs && flags.Has(x)
  {
    if xs != [] {
      SelectMembership(flags, xs[1..], x);
      assert xs == [xs[0]] + xs[1..];
    }
  }

  /** Every element of Select comes from xs at a rank no smaller than that of xs's head. */
  lemma {:induction false} SelectRanks(flags: Flags, xs: seq<Input>, k: int)
    requires forall a, b :: 0 <= a < b < |xs| ==> Rank(xs[a]) < Rank(xs[b])
    requires 0 <= k < |Select(flags, xs)|
    ensures |xs| > 0 && Rank(xs[0]) <= Rank(Select(flags, xs)[k])
    ensures exists j :: 0 <= j < |xs| && Select(flags, xs)[k] == xs[j]
  {
    var head := if flags.Has(xs[0]) then [xs[0]] else [];
    if k < |head| {
      assert Select(flags, xs)[k] == xs[0];
    } else {
      assert Select(flags, xs)[k] == Select(flags, xs[1..])[k - |head|];
      SelectRanks(flags, xs[1..], k - |head|);
      var j :| 0 <= j < |xs[1..]| && Select(flags, xs[1..])[k - |head|] == xs[1..][j];
      assert Select(flags, xs)[k] == xs[j + 1];
    }
  }

  /** Select keeps a strictly rank-ordered sequence strictly rank-ordered. */
  lemma {:induction false} SelectOrdered(flags: Flags, xs: seq<Input>)
    requires forall a, b :: 0 <= a < b < |xs| ==> Rank(xs[a]) < Rank(xs[b])
    ensures forall a, b :: 0 <= a < b < |Select(flags, xs)| ==> Rank(Select(flags, xs)[a]) < Rank(Select(flags, xs)[b])
  {
    if xs != [] {
      var rest := Select(flags, xs[1..]);
      SelectOrdered(flags, xs[1..]);
      if flags.Has(xs[0]) {
        forall b | 0 < b < |Select(flags, xs)|
          ensures Rank(xs[0]) < Rank(Select(flags, xs)[b])
        {
          assert Select(flags, xs)[b] == rest[b - 1];
          SelectRanks(flags, xs[1..], b - 1);
        }
      }
    }
  }

  /** The singleton [x] when b holds, otherwise nothing. */
  function Opt(b: bool, x: Input): seq<Input> {
    if b then [x] else []
  }

  /** Included written out: one conditional entry per flag, in constructor order. */
  lemma IncludedUnfolded(flags: Flags)
    ensures Included(flags) == Opt(flags.lowTariff, LowTariff) + Opt(flags.highTariff, HighTariff)
                               + Opt(flags.lowConsumption, LowConsumption) + Opt(flags.highConsumption, HighConsumption)
  {
    var s1, s2, s3 := [HighTariff, LowConsumption, HighConsumption], [LowConsumption, HighConsumption], [HighConsumption];
    assert InputOrder[1..] == s1 && s1[1..] == s2 && s2[1..] == s3 && s3[1..] == [];
    assert Select(flags, s3) == Opt(flags.highConsumption, HighConsumption);
    assert Select(flags, s2) == Opt(flags.lowConsumption, LowConsumption) + Select(flags, s3);
    assert Select(flags, s1) == Opt(flags.highTariff, HighTariff) + Select(flags, s2);
  }

  /**
   * The tracked inputs are exactly the flagged ones, each once, in constructor order,
   * so there are as many as there are true flags.
   */
  lemma IncludedExactly(flags: Flags)
    ensures forall x :: x in Included(flags) <==> flags.Has(x)
    ensures forall a, b :: 0 <= a < b < |Included(flags)| ==> Rank(Included(flags)[a]) < Rank(Included(flags)[b])
    ensures |Included(flags)| == flags.CountTrue()
  {
    forall x ensures x in Included(flags) <==> flags.Has(x) {
      SelectMembership(flags, InputOrder, x);
    }
    SelectOrdered(flags, InputOrder);
    IncludedUnfolded(flags);
  }

  /** The entity ids of xs, in order. */
  function IdsOf(entry: Entry, subentry: Subentry, xs: seq<Input>): (ids: seq<EntityId>)
    ensures |ids| == |xs|
    ensures forall k :: 0 <= k < |xs| ==> ids[k] == EntityIdOf(entry, subentry, xs[k])
  {
    if xs == [] then [] else [EntityIdOf(entry, subentry, xs[0])] + IdsOf(entry, subentry, xs[1..])
  }

  lemma {:induction false} IdsOfSnoc(entry: Entry, subentry: Subentry, xs: seq<Input>, x: Input)
    ensures IdsOf(entry, subentry, xs + [x]) == IdsOf(entry, subentry, xs) + [EntityIdOf(entry, subentry, x)]
  {
    if xs != [] {
      assert (xs + [x])[1..] == xs[1..] + [x];
      IdsOfSnoc(entry, subentry, xs[1..], x);
    }
  }

  /** `entities_to_track`: the entity ids of the included inputs. */
  function TrackedIds(entry: Entry, subentry: Subentry, flags: Flags): seq<EntityId> {
    IdsOf(entry, subentry, Included(flags))
  }

  /** The four snapshot attributes of a sensor; none means never assigned. */
  datatype Snapshots = Snapshots(lowTariff: Option<EntityState>, highTariff: Option<EntityState>,
                                 lowConsumption: Option<EntityState>, highConsumption: Option<EntityState>)

  /** A freshly constructed sensor has assigned none of its snapshot attributes. */
  const Unassigned: Snapshots := Snapshots(None, None, None, None)

  function Field(s: Snapshots, i: Input): Option<EntityState> {
    match i
    case LowTariff => s.lowTariff
    case HighTariff => s.highTariff
    case LowConsumption => s.lowConsumption
    case HighConsumption => s.highConsumption
  }

  /** Every assigned snapshot is consistent. */
  predicate AllConsistent(s: Snapshots) {
    forall i :: Field(s, i).Some? ==> Consistent(Field(s, i).value)
  }

  /**
   * `async_update`: each input whose flag is set gets a fresh normalised snapshot;
   * the other attributes keep what they had.
   */
  function Refresh(s: Snapshots, flags: Flags, entry: Entry, subentry: Subentry,
                   states: StateMachine, parse: string -> Option<real>): Snapshots
  {
    Snapshots(
      if flags.lowTariff then Some(Normalise(states, entry.lowTariffEntity, parse)) else s.lowTariff,
      if flags.highTariff then Some(Normalise(states, entry.highTariffEntity, parse)) else s.highTariff,
      if flags.lowConsumption then Some(Normalise(states, subentry.lowConsumptionEntity, parse)) else s.lowConsumption,
      if flags.highConsumption then Some(Normalise(states, subentry.highConsumptionEntity, parse)) else s.highConsumption)
  }

  /** Refresh rewrites exactly the flagged attributes and leaves every other one unchanged. */
  lemma RefreshTouchesExactlyFlagged(s: Snapshots, flags: Flags, entry: Entry, subentry: Subentry,
                                     states: StateMachine, parse: string -> Option<real>, i: Input)
    ensures flags.Has(i) ==> Field(Refresh(s, flags, entry, subentry, states, parse), i)
                             == Some(Normalise(states, EntityIdOf(entry, subentry, i), parse))
    ensures !flags.Has(i) ==> Field(Refresh(s, flags, entry, subentry, states, parse), i) == Field(s, i)
  {
  }

  /** Refresh keeps snapshots consistent and is idempotent for unchanged host state. */
  lemma RefreshInvariants(s: Snapshots, flags: Flags, entry: Entry, subentry: Subentry,
                          states: StateMachine, parse: string -> Option<real>)
    ensures AllConsistent(s) ==> AllConsistent(Refresh(s, flags, entry, subentry, states, parse))
    ensures Refresh(Refresh(s, flags, entry, subentry, states, parse), flags, entry, subentry, states, parse)
            == Refresh(s, flags, entry, subentry, states, parse)
  {
    var r := Refresh(s, flags, entry, subentry, states, parse);
    if AllConsistent(s) {
      forall i | Field(r, i).Some? ensures Consistent(Field(r, i).value) {
        RefreshTouchesExactlyFlagged(s, flags, entry, subentry, states, parse, i);
      }
    }
  }
}
