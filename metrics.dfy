/**
 * The four derived sensors: which inputs each includes, and their `available`
 * and `native_value` properties read over a sensor's snapshot attributes,
 * with Python's short-circuit `and` and its exceptions made explicit.
 */
module Metrics {
  import opened Wrappers
  import opened EntityStates
  import opened Inputs

  datatype SensorKind = LowCost | HighCost | TotalCost | TotalConsumption

  /** The exceptions reading a sensor property can raise. */
  datatype Fault =
    | AttributeError  // a snapshot attribute the sensor never assigned
    | TypeError       // arithmetic on a snapshot whose reading is none

  /** The include flags each sensor passes to the shared constructor. */
  function FlagsOf(kind: SensorKind): Flags {
    match kind
    //                         lowConsumption, highConsumption, lowTariff, highTariff
    case TotalCost        => Flags(true, true, true, true)
    case LowCost          => Flags(true, false, true, false)
    case HighCost         => Flags(false, true, false, true)
    case TotalConsumption => Flags(true, true, false, false)
  }

  /** The inputs each sensor's `available` reads, in the order it reads them. */
  function Dependencies(kind: SensorKind): seq<Input> {
    match kind
    case TotalCost        => [LowTariff, HighTariff, LowConsumption, HighConsumption]
    case LowCost          => [LowTariff, LowConsumption]
    case HighCost         => [HighTariff, HighConsumption]
    case TotalConsumption => [LowConsumption, HighConsumption]
  }

  predicate AllAssigned(s: Snapshots, deps: seq<Input>) {
    forall d :: d in deps ==> Field(s, d).Some?
  }

  predicate AllAvailable(s: Snapshots, deps: seq<Input>) {
    forall d :: d in deps ==> Field(s, d).Some? && Field(s, d).value.available
  }

  predicate AllValued(s: Snapshots, deps: seq<Input>) {
    forall d :: d in deps ==> Field(s, d).Some? && Field(s, d).value.state.Some?
  }

  /** `x_state.available` */
  function ReadAvailable(o: Option<EntityState>): Result<bool, Fault> {
    match o
    case None => Failure(AttributeError)
    case Some(e) => Success(e.available)
  }

  /** `x_state.state` */
  function ReadState(o: Option<EntityState>): Result<Option<real>, Fault> {
    match o
    case None => Failure(AttributeError)
    case Some(e) => Success(e.state)
  }

  /** Python's `first and second`: second is evaluated only when first is true. */
  function And(first: Result<bool, Fault>, second: Result<bool, Fault>): Result<bool, Fault> {
    match first
    case Failure(e) => Failure(e)
    case Success(b) => if b then second else Success(false)
  }

  /** `a * b` on readings: a none operand raises TypeError. */
  function Times(a: Option<real>, b: Option<real>): Result<real, Fault> {
    if a.Some? && b.Some? then Success(a.value * b.value) else Failure(TypeError)
  }

  /** `a + b` on readings: a none operand raises TypeError. */
  function Plus(a: Option<real>, b: Option<real>): Result<real, Fault> {
    if a.Some? && b.Some? then Success(a.value + b.value) else Failure(TypeError)
  }

  /**
   * The `available` property: the conjunction of the dependencies' flags. It
   * raises only when it reaches a snapshot that was never assigned.
   */
  function Available(kind: SensorKind, s: Snapshots): (r: Result<bool, Fault>)
    ensures r.Failure? ==> r.error == AttributeError
  {
    match kind
    case TotalCost =>
      And(And(And(ReadAvailable(s.lowTariff), ReadAvailable(s.highTariff)),
              ReadAvailable(s.lowConsumption)),
          ReadAvailable(s.highConsumption))
    case LowCost => And(ReadAvailable(s.lowTariff), ReadAvailable(s.lowConsumption))
    case HighCost => And(ReadAvailable(s.highTariff), ReadAvailable(s.highConsumption))
    case TotalConsumption => And(ReadAvailable(s.lowConsumption), ReadAvailable(s.highConsumption))
  }

  /** The readings of deps, in order. */
  function Readings(s: Snapshots, deps: seq<Input>): (vs: seq<real>)
    requires AllValued(s, deps)
    ensures |vs| == |deps|
    ensures forall k :: 0 <= k < |deps| ==> vs[k] == Field(s, deps[k]).value.state.value
  {
    if deps == [] then [] else [Field(s, deps[0]).value.state.value] + Readings(s, deps[1..])
  }

  /**
   * The combination rule of each sensor over its dependencies' readings, in
   * dependency order: a price times a consumption, the sum of both such
   * products, or the sum of the two consumptions.
   */
  function Combine(kind: SensorKind, vs: seq<real>): real
    requires |vs| == |Dependencies(kind)|
  {
    match kind
    case LowCost => vs[0] * vs[1]
    case HighCost => vs[0] * vs[1]
    case TotalCost => vs[0] * vs[2] + vs[1] * vs[3]
    case TotalConsumption => vs[0] + vs[1]
  }

  /**
   * The `native_value` property. It yields a number exactly when every
   * dependency holds a reading; otherwise it raises an AttributeError (an
   * attribute never assigned) or a TypeError (arithmetic on none).
   */
  function NativeValue(kind: SensorKind, s: Snapshots): Result<real, Fault> {
    match kind
    case TotalCost =>
      var lowTariff :- ReadState(s.lowTariff);
      var lowConsumption :- ReadState(s.lowConsumption);
      var low :- Times(lowTariff, lowConsumption);
      var highTariff :- ReadState(s.highTariff);
      var highConsumption :- ReadState(s.highConsumption);
      var high :- Times(highTariff, highConsumption);
      Success(low + high)
    case LowCost =>
      var tariff :- ReadState(s.lowTariff);
      var consumption :- ReadState(s.lowConsumption);
      Times(tariff, consumption)
    case HighCost =>
      var tariff :- ReadState(s.highTariff);
      var consumption :- ReadState(s.highConsumption);
      Times(tariff, consumption)
    case TotalConsumption =>
      var low :- ReadState(s.lowConsumption);
      var high :- ReadState(s.highConsumption);
      Plus(low, high)
  }

  /** The three quantified predicates over a two-element dependency list, written out. */
  lemma PairFacts(s: Snapshots, a: Input, b: Input)
    ensures AllAssigned(s, [a, b]) <==> Field(s, a).Some? && Field(s, b).Some?
    ensures AllAvailable(s, [a, b]) <==> (Field(s, a).Some? && Field(s, a).value.available
                                          && Field(s, b).Some? && Field(s, b).value.available)
    ensures AllValued(s, [a, b]) <==> (Field(s, a).Some? && Field(s, a).value.state.Some?
                                       && Field(s, b).Some? && Field(s, b).value.state.Some?)
  {
    assert a in [a, b] && b in [a, b];
  }

  /** The three quantified predicates over all four inputs, written out. */
  lemma AllFacts(s: Snapshots)
    ensures Dependencies(TotalCost) == InputOrder
    ensures AllAssigned(s, InputOrder) <==> (s.lowTariff.Some? && s.highTariff.Some?
                                             && s.lowConsumption.Some? && s.highConsumption.Some?)
    ensures AllAvailable(s, InputOrder) <==> (s.lowTariff.Some? && s.lowTariff.value.available
                                              && s.highTariff.Some? && s.highTariff.value.available
                                              && s.lowConsumption.Some? && s.lowConsumption.value.available
                                              && s.highConsumption.Some? && s.highConsumption.value.available)
    ensures AllValued(s, InputOrder) <==> (s.lowTariff.Some? && s.lowTariff.value.state.Some?
                                           && s.highTariff.Some? && s.highTariff.value.state.Some?
                                           && s.lowConsumption.Some? && s.lowConsumption.value.state.Some?
                                           && s.highConsumption.Some? && s.highConsumption.value.state.Some?)
  {
    assert Field(s, LowTariff) == s.lowTariff && Field(s, HighTariff) == s.highTariff;
    assert Field(s, LowConsumption) == s.lowConsumption && Field(s, HighConsumption) == s.highConsumption;
    assert LowTariff in InputOrder && HighTariff in InputOrder;
    assert LowConsumption in InputOrder && HighConsumption in InputOrder;
  }

  /**
   * `available` is true exactly when every dependency is assigned and available;
   * once all dependencies are assigned it never raises, and it only ever raises
   * AttributeError.
   */
  lemma AvailableIsConjunction(kind: SensorKind, s: Snapshots)
    ensures Available(kind, s) == Success(true) <==> AllAvailable(s, Dependencies(kind))
    ensures AllAssigned(s, Dependencies(kind)) ==> Available(kind, s) == Success(AllAvailable(s, Dependencies(kind)))
    ensures Available(kind, s).Failure? ==> Available(kind, s).error == AttributeError && !AllAssigned(s, Dependencies(kind))
  {
    match kind
    case TotalCost => AllFacts(s);
    case LowCost => PairFacts(s, LowTariff, LowConsumption);
    case HighCost => PairFacts(s, HighTariff, HighConsumption);
    case TotalConsumption => PairFacts(s, LowConsumption, HighConsumption);
  }

  /**
   * `native_value` yields a number exactly when every dependency holds a reading,
   * and that number is the sensor's combination rule over the readings; once all
   * dependencies are assigned, the only exception it can raise is TypeError.
   */
  lemma NativeValueIsCombination(kind: SensorKind, s: Snapshots)
    ensures NativeValue(kind, s).Success? <==> AllValued(s, Dependencies(kind))
    ensures NativeValue(kind, s).Success? ==> NativeValue(kind, s).value == Combine(kind, Readings(s, Dependencies(kind)))
    ensures NativeValue(kind, s).Failure? && AllAssigned(s, Dependencies(kind)) ==> NativeValue(kind, s).error == TypeError
  {
    match kind
    case TotalCost => AllFacts(s);
    case LowCost => PairFacts(s, LowTariff, LowConsumption);
    case HighCost => PairFacts(s, HighTariff, HighConsumption);
    case TotalConsumption => PairFacts(s, LowConsumption, HighConsumption);
  }

  /** Every input a sensor reads is one it includes, hence tracks and refreshes, in the same order. */
  lemma DependenciesAreIncluded(kind: SensorKind)
    ensures Dependencies(kind) == Included(FlagsOf(kind))
  {
    IncludedUnfolded(FlagsOf(kind));
  }

  /** One unavailable dependency makes the sensor unavailable, whatever the others are. */
  lemma AnyUnavailableDependency(kind: SensorKind, s: Snapshots, d: Input)
    requires AllAssigned(s, Dependencies(kind))
    requires d in Dependencies(kind) && !Field(s, d).value.available
    ensures Available(kind, s) == Success(false)
  {
    AvailableIsConjunction(kind, s);
  }

  /** Over consistent snapshots, a sensor has a value exactly when it is available. */
  lemma ValueIffAvailable(kind: SensorKind, s: Snapshots)
    requires forall d :: d in Dependencies(kind) && Field(s, d).Some? ==> Consistent(Field(s, d).value)
    ensures NativeValue(kind, s).Success? <==> Available(kind, s) == Success(true)
  {
    AvailableIsConjunction(kind, s);
    NativeValueIsCombination(kind, s);
  }

  /** Total cost is low cost plus high cost, and fails exactly as the first of them to fail. */
  lemma TotalCostIsSum(s: Snapshots)
    ensures NativeValue(TotalCost, s) == (var low :- NativeValue(LowCost, s);
                                          var high :- NativeValue(HighCost, s);
                                          Success(low + high))
  {
  }

  /** Total cost is available exactly when low cost and high cost both are. */
  lemma TotalCostAvailability(s: Snapshots)
    ensures Available(TotalCost, s) == Success(true)
            <==> Available(LowCost, s) == Success(true) && Available(HighCost, s) == Success(true)
  {
  }

  /** Total consumption is the low consumption reading plus the high one. */
  lemma TotalConsumptionIsSum(s: Snapshots, low: real, high: real)
    requires s.lowConsumption.Some? && s.lowConsumption.value.state == Some(low)
    requires s.highConsumption.Some? && s.highConsumption.value.state == Some(high)
    ensures NativeValue(TotalConsumption, s) == Success(low + high)
  {
  }

  /** A sensor's properties depend on its dependencies' snapshots and on nothing else. */
  lemma ReadsOnlyDependencies(kind: SensorKind, s: Snapshots, t: Snapshots)
    requires forall d :: d in Dependencies(kind) ==> Field(s, d) == Field(t, d)
    ensures Available(kind, s) == Available(kind, t)
    ensures NativeValue(kind, s) == NativeValue(kind, t)
  {
    match kind
    case TotalCost =>
      assert LowTariff in Dependencies(kind) && HighTariff in Dependencies(kind);
      assert LowConsumption in Dependencies(kind) && HighConsumption in Dependencies(kind);
    case LowCost =>
      assert LowTariff in Dependencies(kind) && LowConsumption in Dependencies(kind);
    case HighCost =>
      assert HighTariff in Dependencies(kind) && HighConsumption in Dependencies(kind);
    case TotalConsumption =>
      assert LowConsumption in Dependencies(kind) && HighConsumption in Dependencies(kind);
  }

  /**
   * After one refresh with its own flags, from any earlier state, a sensor's
   * `available` never raises, and it has a value exactly when it is available.
   */
  lemma RefreshMakesReadable(kind: SensorKind, s: Snapshots, entry: Entry, subentry: Subentry,
                             states: StateMachine, parse: string -> Option<real>)
    ensures Available(kind, Refresh(s, FlagsOf(kind), entry, subentry, states, parse)).Success?
    ensures NativeValue(kind, Refresh(s, FlagsOf(kind), entry, subentry, states, parse)).Success?
            <==> Available(kind, Refresh(s, FlagsOf(kind), entry, subentry, states, parse)) == Success(true)
  {
    var r := Refresh(s, FlagsOf(kind), entry, subentry, states, parse);
    DependenciesAreIncluded(kind);
    IncludedExactly(FlagsOf(kind));
    forall d | d in Dependencies(kind)
      ensures Field(r, d).Some? && Consistent(Field(r, d).value)
    {
      RefreshTouchesExactlyFlagged(s, FlagsOf(kind), entry, subentry, states, parse, d);
    }
    AvailableIsConjunction(kind, r);
    ValueIffAvailable(kind, r);
  }
}
