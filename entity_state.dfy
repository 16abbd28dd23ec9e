/**
 * The availability-tagged snapshot of one host entity (`EnergyDeviceEntityState`)
 * and the normaliser that turns a host entity's raw state into one.
 */
module EntityStates {
  import opened Wrappers

  type EntityId = string

  /** A snapshot: `available` plus the reading, which defaults to none. */
  datatype EntityState = EntityState(available: bool, state: Option<real>)

  /** `EnergyDeviceEntityState(available=False)`: the reading keeps its default, none. */
  const Unavailable: EntityState := EntityState(false, None)

  /** An unavailable snapshot carries no reading, and an available one carries a reading. */
  predicate Consistent(e: EntityState) {
    e.available <==> e.state.Some?
  }

  /** A host entity's state object; its `state` attribute may be none. */
  datatype HostState = HostState(state: Option<string>)

  /** The host's state machine: `hass.states.get(entity_id)` is a lookup in this map. */
  type StateMachine = map<EntityId, HostState>

  /** The host's sentinel for an entity that is currently unavailable. */
  const STATE_UNAVAILABLE: string := "unavailable"

  /** The raw text the normaliser hands to the number parser, if it gets that far. */
  function RawReading(states: StateMachine, entityId: EntityId): Option<string> {
    if entityId in states && states[entityId].state.Some? && states[entityId].state.value != STATE_UNAVAILABLE
    then states[entityId].state
    else None
  }

  /**
   * `_async_update_entity_state`: a missing entity, a missing state or the sentinel gives an
   * unavailable snapshot; otherwise the text is parsed (`float()`, here `parse`), and a parse
   * failure also gives an unavailable snapshot. It is total: no exception escapes.
   */
  function Normalise(states: StateMachine, entityId: EntityId, parse: string -> Option<real>): (e: EntityState)
    ensures Consistent(e)
    ensures e.available <==> RawReading(states, entityId).Some? && parse(RawReading(states, entityId).value).Some?
    ensures e.available ==> e.state == parse(RawReading(states, entityId).value)
    ensures !e.available ==> e == Unavailable
  {
    if entityId !in states || states[entityId].state.None? || states[entityId].state.value == STATE_UNAVAILABLE then
      Unavailable
    else
      match parse(states[entityId].state.value)
      case Some(v) => EntityState(true, Some(v))
      case None => Unavailable
  }

  /** A missing entity, a missing state or the sentinel is unavailable, whatever the parser would say. */
  lemma NormaliseAbsent(states: StateMachine, entityId: EntityId, parse: string -> Option<real>)
    requires entityId !in states || states[entityId].state == None || states[entityId].state == Some(STATE_UNAVAILABLE)
    ensures Normalise(states, entityId, parse) == EntityState(false, None)
  {
  }

  /** A raw state that parses becomes an available snapshot holding exactly the parsed number. */
  lemma NormaliseParsed(states: StateMachine, entityId: EntityId, parse: string -> Option<real>, raw: string, v: real)
    requires entityId in states && states[entityId].state == Some(raw) && raw != STATE_UNAVAILABLE
    requires parse(raw) == Some(v)
    ensures Normalise(states, entityId, parse) == EntityState(true, Some(v))
  {
  }

  /** A raw state that does not parse becomes an unavailable snapshot (the ValueError is absorbed). */
  lemma NormaliseUnparsable(states: StateMachine, entityId: EntityId, parse: string -> Option<real>, raw: string)
    requires entityId in states && states[entityId].state == Some(raw)
    requires parse(raw) == None
    ensures Normalise(states, entityId, parse) == EntityState(false, None)
  {
  }
}
