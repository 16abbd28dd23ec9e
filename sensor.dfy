/**
 * The sensor entity (`EnergyDeviceMonitorSensor` and its four subclasses) and
 * the platform setup that creates four sensors per device subentry.
 */
module Sensors {
  import opened Wrappers
  import opened EntityStates
  import opened Inputs
  import opened Metrics

  /** `entities_to_track`: one conditional append per include flag, in constructor order. */
  method EntitiesToTrack(flags: Flags, entry: Entry, subentry: Subentry) returns (toTrack: seq<EntityId>)
    ensures toTrack == TrackedIds(entry, subentry, flags)
  {
    toTrack := [];
    ghost var inputs: seq<Input> := [];
    if flags.lowTariff {
      IdsOfSnoc(entry, subentry, inputs, LowTariff);
      toTrack, inputs := toTrack + [entry.lowTariffEntity], inputs + [LowTariff];
    }
    ghost var expected := Opt(flags.lowTariff, LowTariff);
    assert inputs == expected && toTrack == IdsOf(entry, subentry, inputs);
    if flags.highTariff {
      IdsOfSnoc(entry, subentry, inputs, HighTariff);
      toTrack, inputs := toTrack + [entry.highTariffEntity], inputs + [HighTariff];
    }
    expected := expected + Opt(flags.highTariff, HighTariff);
    assert inputs == expected && toTrack == IdsOf(entry, subentry, inputs);
    if flags.lowConsumption {
      IdsOfSnoc(entry, subentry, inputs, LowConsumption);
      toTrack, inputs := toTrack + [subentry.lowConsumptionEntity], inputs + [LowConsumption];
    }
    expected := expected + Opt(flags.lowConsumption, LowConsumption);
    assert inputs == expected && toTrack == IdsOf(entry, subentry, inputs);
    if flags.highConsumption {
      IdsOfSnoc(entry, subentry, inputs, HighConsumption);
      toTrack, inputs := toTrack + [subentry.highConsumptionEntity], inputs + [HighConsumption];
    }
    expected := expected + Opt(flags.highConsumption, HighConsumption);
    assert inputs == expected && toTrack == IdsOf(entry, subentry, inputs);
    IncludedUnfolded(flags);
  }

  class Sensor {
    const kind: SensorKind
    const entry: Entry
    const subentry: Subentry
    const flags: Flags
    /** The entity ids the sensor subscribes to. */
    const tracked: seq<EntityId>

    var lowTariffState: Option<EntityState>
    var highTariffState: Option<EntityState>
    var lowConsumptionState: Option<EntityState>
    var highConsumptionState: Option<EntityState>

    function Current(): Snapshots
      reads this
    {
      Snapshots(lowTariffState, highTariffState, lowConsumptionState, highConsumptionState)
    }

    /** The sensor subscribes to exactly the entities its `available` reads, in that order. */
    predicate Subscribed() {
      tracked == IdsOf(entry, subentry, Dependencies(kind))
    }

    /** The flags are those of the sensor's kind, and no snapshot is inconsistent. */
    predicate Valid()
      reads this
    {
      && flags == FlagsOf(kind)
      && AllConsistent(Current())
    }

    /**
     * A sensor of the given kind: its include flags and its tracked list.
     * No snapshot attribute is assigned yet.
     */
    constructor (kind: SensorKind, entry: Entry, subentry: Subentry)
      ensures this.kind == kind && this.entry == entry && this.subentry == subentry
      ensures tracked == TrackedIds(entry, subentry, FlagsOf(kind)) && Subscribed()
      ensures Valid() && Current() == Unassigned
    {
      var flags := FlagsOf(kind);
      var toTrack := EntitiesToTrack(flags, entry, subentry);
      DependenciesAreIncluded(kind);
      this.kind, this.entry, this.subentry, this.flags := kind, entry, subentry, flags;
      tracked := toTrack;
      lowTariffState, highTariffState := None, None;
      lowConsumptionState, highConsumptionState := None, None;
    }

    /** `async_update`: refresh, one after another, the snapshot of each included input. */
    method Update(states: StateMachine, parse: string -> Option<real>)
      requires Valid()
      modifies this
      ensures Valid()
      ensures Current() == Refresh(old(Current()), flags, entry, subentry, states, parse)
    {
      ghost var before := Current();
      if flags.lowTariff {
        lowTariffState := Some(Normalise(states, entry.lowTariffEntity, parse));
      }
      if flags.highTariff {
        highTariffState := Some(Normalise(states, entry.highTariffEntity, parse));
      }
      if flags.lowConsumption {
        lowConsumptionState := Some(Normalise(states, subentry.lowConsumptionEntity, parse));
      }
      if flags.highConsumption {
        highConsumptionState := Some(Normalise(states, subentry.highConsumptionEntity, parse));
      }
      RefreshInvariants(before, flags, entry, subentry, states, parse);
    }
  }

  /** The tracked list holds exactly the entity of each included input, in constructor order. */
  lemma TrackedIdsExactly(entry: Entry, subentry: Subentry, flags: Flags)
    ensures |TrackedIds(entry, subentry, flags)| == flags.CountTrue()
    ensures forall k :: 0 <= k < |TrackedIds(entry, subentry, flags)| ==>
              TrackedIds(entry, subentry, flags)[k] == EntityIdOf(entry, subentry, Included(flags)[k])
  {
    IncludedExactly(flags);
  }

  /** The subentries one pass of the setup loop keeps: the subentry itself if it is a device. */
  function Kept(subentry: Subentry): seq<Subentry> {
    if subentry.subentryType == "device" then [subentry] else []
  }

  /** The subentries of type "device", in order; setup skips every other type. */
  function DeviceSubentries(subs: seq<Subentry>): seq<Subentry> {
    if subs == [] then [] else DeviceSubentries(subs[..|subs| - 1]) + Kept(subs[|subs| - 1])
  }

  lemma {:induction false} DeviceSubentriesExactly(subs: seq<Subentry>, x: Subentry)
    ensures x in DeviceSubentries(subs) <==> x in subs && x.subentryType == "device"
  {
    if subs != [] {
      DeviceSubentriesExactly(subs[..|subs| - 1], x);
      assert subs == subs[..|subs| - 1] + [subs[|subs| - 1]];
    }
  }

  /** One call of `async_add_entities`: the sensors of one subentry. */
  datatype Batch = Batch(subentryId: string, sensors: seq<Sensor>)

  /** `s` is the sensor of kind `kind` for `subentry`, updated once against `states`. */
  predicate Created(s: Sensor, kind: SensorKind, entry: Entry, subentry: Subentry,
                    states: StateMachine, parse: string -> Option<real>)
    reads s
  {
    && s.kind == kind && s.entry == entry && s.subentry == subentry
    && s.Valid()
    && s.Current() == Refresh(Unassigned, FlagsOf(kind), entry, subentry, states, parse)
  }

  /**
   * `b` holds the four sensors of `subentry` (low cost, high cost, total cost,
   * total consumption, in that order), each created and updated once.
   */
  predicate BatchFor(b: Batch, entry: Entry, subentry: Subentry, states: StateMachine, parse: string -> Option<real>)
    reads b.sensors
  {
    && b.subentryId == subentry.subentryId
    && |b.sensors| == 4
    && Created(b.sensors[0], LowCost, entry, subentry, states, parse)
    && Created(b.sensors[1], HighCost, entry, subentry, states, parse)
    && Created(b.sensors[2], TotalCost, entry, subentry, states, parse)
    && Created(b.sensors[3], TotalConsumption, entry, subentry, states, parse)
  }

  /** Every sensor of `b` subscribes to the entities of the inputs it includes. */
  predicate BatchSubscribed(b: Batch) {
    forall k :: 0 <= k < |b.sensors| ==> b.sensors[k].Subscribed()
  }

  /**
   * A subscribed sensor tracks exactly the list its constructor builds from its
   * kind's flags: the entities of its included inputs, in constructor order.
   */
  lemma SubscribedIsTracked(s: Sensor)
    requires s.Subscribed()
    ensures s.tracked == TrackedIds(s.entry, s.subentry, FlagsOf(s.kind))
  {
    DependenciesAreIncluded(s.kind);
  }

  /** A new sensor of the given kind, updated once: `update_before_add`. */
  method NewUpdatedSensor(kind: SensorKind, entry: Entry, subentry: Subentry,
                          states: StateMachine, parse: string -> Option<real>)
    returns (s: Sensor)
    ensures fresh(s) && Created(s, kind, entry, subentry, states, parse)
    ensures s.Subscribed()
  {
    s := new Sensor(kind, entry, subentry);
    s.Update(states, parse);
  }

  /** The four sensors of one device subentry, in creation order, each updated before it is added. */
  method CreateDeviceSensors(entry: Entry, subentry: Subentry, states: StateMachine, parse: string -> Option<real>)
    returns (b: Batch)
    ensures BatchFor(b, entry, subentry, states, parse)
    ensures forall k :: 0 <= k < |b.sensors| ==> fresh(b.sensors[k])
    ensures forall j, k :: 0 <= j < k < |b.sensors| ==> b.sensors[j] != b.sensors[k]
    ensures BatchSubscribed(b)
  {
    var lowCost := NewUpdatedSensor(LowCost, entry, subentry, states, parse);
    var highCost := NewUpdatedSensor(HighCost, entry, subentry, states, parse);
    var totalCost := NewUpdatedSensor(TotalCost, entry, subentry, states, parse);
    var totalConsumption := NewUpdatedSensor(TotalConsumption, entry, subentry, states, parse);
    b := Batch(subentry.subentryId, [lowCost, highCost, totalCost, totalConsumption]);
  }

  /**
   * One pass of the setup loop: a device subentry gets a batch of four new
   * sensors appended; any other subentry is skipped. The batches already
   * added keep their sensors and what those sensors hold.
   */
  method AddSubentry(entry: Entry, subentry: Subentry, states: StateMachine, parse: string -> Option<real>,
                     added: seq<Batch>, ghost devices: seq<Subentry>)
    returns (result: seq<Batch>)
    requires |added| == |devices|
    requires forall j :: 0 <= j < |added| ==> BatchFor(added[j], entry, devices[j], states, parse)
    requires forall j {:trigger BatchSubscribed(added[j])} :: 0 <= j < |added| ==> BatchSubscribed(added[j])
    ensures |result| == |devices + Kept(subentry)| && result[..|added|] == added
    ensures forall j :: 0 <= j < |result| ==> BatchFor(result[j], entry, (devices + Kept(subentry))[j], states, parse)
    ensures forall j {:trigger BatchSubscribed(result[j])} :: 0 <= j < |result| ==> BatchSubscribed(result[j])
    ensures forall j, k :: |added| <= j < |result| && 0 <= k < |result[j].sensors| ==> fresh(result[j].sensors[k])
  {
    if subentry.subentryType == "device" {
      var batch := CreateDeviceSensors(entry, subentry, states, parse);
      result := added + [batch];
    } else {
      result := added;
    }
  }

  /**
   * `async_setup_entry`: one batch of four sensors (low cost, high cost, total
   * cost, total consumption) for each device subentry, in subentry order, each
   * sensor new and updated before it is added.
   */
  method SetupEntry(entry: Entry, states: StateMachine, parse: string -> Option<real>) returns (added: seq<Batch>)
    ensures |added| == |DeviceSubentries(entry.subentries)|
    ensures forall i :: 0 <= i < |added| ==>
              BatchFor(added[i], entry, DeviceSubentries(entry.subentries)[i], states, parse)
    ensures forall i, k :: 0 <= i < |added| && 0 <= k < |added[i].sensors| ==> fresh(added[i].sensors[k])
    ensures forall i :: 0 <= i < |added| ==> BatchSubscribed(added[i])
  {
    added := [];
    ghost var devices: seq<Subentry> := [];
    var i := 0;
    while i < |entry.subentries|
      invariant 0 <= i <= |entry.subentries|
      invariant devices == DeviceSubentries(entry.subentries[..i]) && |added| == |devices|
      invariant forall j :: 0 <= j < |added| ==> BatchFor(added[j], entry, devices[j], states, parse)
      invariant forall j, k :: 0 <= j < |added| && 0 <= k < |added[j].sensors| ==> fresh(added[j].sensors[k])
      invariant forall j {:trigger BatchSubscribed(added[j])} :: 0 <= j < |added| ==> BatchSubscribed(added[j])
    {
      var subentry := entry.subentries[i];
      assert entry.subentries[..i + 1][..i] == entry.subentries[..i];
      ghost var before := added;
      added := AddSubentry(entry, subentry, states, parse, added, devices);
      assert forall j :: 0 <= j < |before| ==> added[j] == before[j];
      devices := devices + Kept(subentry);
      i := i + 1;
    }
    assert entry.subentries[..i] == entry.subentries;
  }

  /** Every sensor setup creates can be read at once: `available` does not raise. */
  lemma SetupSensorsReadable(b: Batch, entry: Entry, subentry: Subentry, states: StateMachine,
                             parse: string -> Option<real>, k: int)
    requires BatchFor(b, entry, subentry, states, parse)
    requires 0 <= k < |b.sensors|
    ensures Available(b.sensors[k].kind, b.sensors[k].Current()).Success?
  {
    RefreshMakesReadable(b.sensors[k].kind, Unassigned, entry, subentry, states, parse);
  }

  /** A client's parser: the four readings used below, and nothing else. */
  function ScenarioParse(raw: string): Option<real> {
    if raw == "0.20" then Some(0.20) else if raw == "0.30" then Some(0.30)
    else if raw == "10.0" then Some(10.0) else if raw == "5.0" then Some(5.0) else None
  }

  const ScenarioEntry: Entry := Entry("tariff.low", "tariff.high", [])
  const ScenarioDevice: Subentry := Subentry("sub1", "device", "washer.low", "washer.high")

  /** A device whose low consumption is unavailable: low cost waits for it, high cost does not. */
  lemma MissingReadingScenario(states: StateMachine)
    requires states == map["tariff.low" := HostState(Some("0.20")), "tariff.high" := HostState(Some("0.30")),
                           "washer.low" := HostState(Some(STATE_UNAVAILABLE)), "washer.high" := HostState(Some("5.0"))]
    ensures Available(LowCost, Refresh(Unassigned, FlagsOf(LowCost), ScenarioEntry, ScenarioDevice, states, ScenarioParse))
            == Success(false)
    ensures NativeValue(HighCost, Refresh(Unassigned, FlagsOf(HighCost), ScenarioEntry, ScenarioDevice, states, ScenarioParse))
            == Success(1.5)
  {
    NormaliseAbsent(states, "washer.low", ScenarioParse);
    NormaliseParsed(states, "tariff.high", ScenarioParse, "0.30", 0.30);
    NormaliseParsed(states, "washer.high", ScenarioParse, "5.0", 5.0);
  }

  /** Every reading present: total cost is 0.20 * 10.0 + 0.30 * 5.0 and total consumption 10.0 + 5.0. */
  lemma AllReadingsScenario(states: StateMachine)
    requires states == map["tariff.low" := HostState(Some("0.20")), "tariff.high" := HostState(Some("0.30")),
                           "washer.low" := HostState(Some("10.0")), "washer.high" := HostState(Some("5.0"))]
    ensures NativeValue(TotalCost, Refresh(Unassigned, FlagsOf(TotalCost), ScenarioEntry, ScenarioDevice, states, ScenarioParse))
            == Success(3.5)
    ensures NativeValue(TotalConsumption, Refresh(Unassigned, FlagsOf(TotalConsumption), ScenarioEntry, ScenarioDevice, states, ScenarioParse))
            == Success(15.0)
  {
    NormaliseParsed(states, "tariff.low", ScenarioParse, "0.20", 0.20);
    NormaliseParsed(states, "tariff.high", ScenarioParse, "0.30", 0.30);
    NormaliseParsed(states, "washer.low", ScenarioParse, "10.0", 10.0);
    NormaliseParsed(states, "washer.high", ScenarioParse, "5.0", 5.0);
  }
}
