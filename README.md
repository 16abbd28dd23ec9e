# Energy device monitor: derived cost and consumption sensors

A Dafny model of the sensor platform of the `energy_device_monitor` Home Assistant
integration. Each device has four derived sensors: low-tariff cost, high-tariff cost,
total cost and total consumption. They draw on four host entities: a low-tariff
price and a high-tariff price, shared by every device of a configuration entry, and
the device's own low-tariff and high-tariff consumption readings.

The model has five modules:

- `Wrappers` (`wrappers.dfy`): `Option` and a `Result` that works with `:-`.
- `EntityStates` (`entity_state.dfy`): the snapshot `EntityState(available, state)` and `Normalise`.
  `Normalise` is `_async_update_entity_state`. It turns the host's raw state for one entity into a snapshot.
  * A missing entity, a missing state or the `"unavailable"` sentinel gives `EntityState(false, None)`.
  * Otherwise the text goes to the number parser.
  * A parse failure also gives `EntityState(false, None)`.
  * Only a successful parse gives `EntityState(true, Some(v))`.
- `Inputs` (`inputs.dfy`):
  * the four inputs;
  * the constructor's `include_*` flags;
  * the entry's and subentry's entity ids;
  * the tracked-entity list (`Included`, `TrackedIds`);
  * a sensor's four snapshot attributes (`Snapshots`);
  * `Refresh`, the value-level meaning of `async_update`.
- `Metrics` (`metrics.dfy`): the flags each sensor kind passes to the shared constructor.
  It also holds the `available` and `native_value` properties of the four kinds, read
  over the snapshots, and the lemmas that relate them.
- `Sensors` (`sensor.dfy`): the sensor entity as a class, and platform setup.
  * The class has the four snapshot attributes as mutable fields and flags and config as constants.
  * Its constructor builds the tracked list, by the conditional appends in `EntitiesToTrack`.
  * `Update` overwrites the snapshot attribute of each included input.
  * `SetupEntry` loops over the subentries. For each `"device"` subentry it creates four sensors and
    updates each one before adding it.

A snapshot attribute that a sensor never assigned is `None` in `Snapshots`. In Python the
attributes are only annotated, so reading one that was never assigned raises
`AttributeError`. Python's `and` short-circuits, and `None * x` raises `TypeError`. So
`Available` and `NativeValue` return `Result<_, Fault>` and follow the source's evaluation
order exactly. The lemmas show two things:

- Once a sensor has been updated with its own flags, `available` never raises.
- `native_value` yields a number exactly when the sensor is available.

### Behaviour of the code worth knowing

- Each sensor keeps its own copy of the snapshots it includes. Reading one it never
  assigned raises `AttributeError`.
- `native_value` of an unavailable sensor raises `TypeError` (or `AttributeError`). The
  host reads it only after `available` has come back true.
- Total cost's `available` reads low tariff, high tariff, low consumption, then high
  consumption. Its `native_value` reads low tariff, low consumption, high tariff, then high
  consumption. Order only affects which exception is raised. Once every dependency is
  assigned, neither property depends on it.

## Model

| member | source | states |
|---|---|---|
| `EntityStates.Normalise` | custom_components/energy_device_monitor/sensor.py:141-151 | The snapshot is consistent: available exactly when it holds a reading, and otherwise exactly `EntityState(false, None)`. It is available exactly when the entity exists, has a non-sentinel state and that text parses, and then it holds the parsed number. It always returns, never raises. |
| `EntityStates.NormaliseAbsent` | custom_components/energy_device_monitor/sensor.py:145-147 | A missing entity, a `None` state or `"unavailable"` gives `available = False, state = None`, whatever the parser would say. |
| `EntityStates.NormaliseParsed` | custom_components/energy_device_monitor/sensor.py:148-149 | A raw state that parses to `v` gives `available = True, state = v`. |
| `EntityStates.NormaliseUnparsable` | custom_components/energy_device_monitor/sensor.py:150-151 | A raw state the parser rejects gives `available = False, state = None`. The error is absorbed. |
| `Inputs.TrackedIds` | custom_components/energy_device_monitor/sensor.py:103-111 | `entities_to_track` as a value: the ids of the included inputs. No ensures of its own; the tracked-list properties are stated in `Inputs.IncludedExactly` and `Sensors.TrackedIdsExactly`. |
| `Inputs.SelectMembership` | custom_components/energy_device_monitor/sensor.py:103-111 | An input is selected exactly when it is in the list and its flag is set. |
| `Inputs.SelectOrdered` | custom_components/energy_device_monitor/sensor.py:103-111 | Selection keeps the order of the list it selects from. |
| `Inputs.IncludedUnfolded` | custom_components/energy_device_monitor/sensor.py:103-111 | The included inputs are one conditional entry per flag, in the order low tariff, high tariff, low consumption, high consumption. |
| `Inputs.IncludedExactly` | custom_components/energy_device_monitor/sensor.py:103-111 | The included inputs are exactly the flagged ones, each once, in that order. Their number is the number of true flags. |
| `Inputs.IdsOf` | custom_components/energy_device_monitor/sensor.py:104-111 | Maps each input to its entity id, position by position: tariffs from the entry, consumptions from the subentry. |
| `Inputs.Refresh` | custom_components/energy_device_monitor/sensor.py:122-139 | `async_update` as a function on the four snapshots. No ensures of its own; its contract is stated in `Inputs.RefreshTouchesExactlyFlagged` and `Inputs.RefreshInvariants`, and `Sensors.Sensor.Update` is proved equal to it. |
| `Inputs.RefreshTouchesExactlyFlagged` | custom_components/energy_device_monitor/sensor.py:122-139 | An update rewrites each flagged snapshot with the normalised state of that input's entity, and leaves every other snapshot unchanged. |
| `Inputs.RefreshInvariants` | custom_components/energy_device_monitor/sensor.py:122-151 | An update keeps every snapshot consistent. Repeating it against the same host state changes nothing. |
| `Metrics.FlagsOf` | custom_components/energy_device_monitor/sensor.py:159-305 | The include flags each sensor class passes to the shared constructor. No ensures of its own; `Metrics.DependenciesAreIncluded` proves they include exactly the inputs the class reads. |
| `Metrics.Available` | custom_components/energy_device_monitor/sensor.py:185-321 | The four `available` properties with short-circuit `and`. Its own contract: the only exception it raises is `AttributeError`. The full contract is in `Metrics.AvailableIsConjunction`. |
| `Metrics.NativeValue` | custom_components/energy_device_monitor/sensor.py:195-326 | The four `native_value` properties in the source's evaluation order. No ensures of its own; its contract is stated in `Metrics.NativeValueIsCombination`. |
| `Metrics.AvailableIsConjunction` | custom_components/energy_device_monitor/sensor.py:185-321 | `available` is true exactly when every dependency is assigned and available. Once all are assigned it returns their conjunction and never raises. It raises only `AttributeError`, and only when a dependency is unassigned. |
| `Metrics.NativeValueIsCombination` | custom_components/energy_device_monitor/sensor.py:195-326 | `native_value` yields a number exactly when every dependency holds a reading. The number is price × consumption, the sum of both products, or the sum of both consumptions. With all dependencies assigned, its only exception is `TypeError`. |
| `Metrics.DependenciesAreIncluded` | custom_components/energy_device_monitor/sensor.py:154-321 | The inputs each sensor's `available` reads are exactly the inputs its constructor flags include, in the same order. So every snapshot a sensor reads is one its update refreshes. |
| `Metrics.AnyUnavailableDependency` | custom_components/energy_device_monitor/sensor.py:185-321 | Once every dependency is assigned (as after any update, see `Metrics.RefreshMakesReadable`), one unavailable dependency makes the sensor unavailable, whatever the others are. |
| `Metrics.ValueIffAvailable` | custom_components/energy_device_monitor/sensor.py:185-326 | Over consistent snapshots, `native_value` succeeds exactly when `available` is true. |
| `Metrics.TotalCostIsSum` | custom_components/energy_device_monitor/sensor.py:196-200 | Total cost equals low cost plus high cost over the same snapshots. When a part fails, total cost fails with the same exception as the first failing part. |
| `Metrics.TotalCostAvailability` | custom_components/energy_device_monitor/sensor.py:186-193 | Total cost is available exactly when low cost and high cost both are. |
| `Metrics.TotalConsumptionIsSum` | custom_components/energy_device_monitor/sensor.py:324-326 | Total consumption equals the low consumption reading plus the high one. |
| `Metrics.ReadsOnlyDependencies` | custom_components/energy_device_monitor/sensor.py:185-326 | A sensor's `available` and `native_value` depend only on the snapshots of its dependencies. |
| `Metrics.RefreshMakesReadable` | custom_components/energy_device_monitor/sensor.py:122-139 | After one update with its own flags, from any earlier state, `available` does not raise, and `native_value` succeeds exactly when `available` is true. |
| `Sensors.EntitiesToTrack` | custom_components/energy_device_monitor/sensor.py:103-111 | The conditional appends produce the entity ids of the included inputs, in constructor order. |
| `Sensors.TrackedIdsExactly` | custom_components/energy_device_monitor/sensor.py:103-111 | The tracked list has one entry per true flag. Entry k is the entity of the k-th included input. |
| `Sensors.Sensor.constructor` | custom_components/energy_device_monitor/sensor.py:80-111 | Records kind, entry and subentry. Sets the kind's flags and builds the tracked list, so the sensor is subscribed. No snapshot is assigned yet. |
| `Sensors.Sensor.Update` | custom_components/energy_device_monitor/sensor.py:122-139 | The new snapshots are `Refresh` of the old ones: each included input gets a fresh normalised snapshot, and the rest keep what they had. Snapshots stay consistent. |
| `Sensors.DeviceSubentries` | custom_components/energy_device_monitor/sensor.py:44-46 | The subentries setup processes. No ensures of its own; `Sensors.DeviceSubentriesExactly` states its contract. |
| `Sensors.DeviceSubentriesExactly` | custom_components/energy_device_monitor/sensor.py:44-46 | Setup keeps exactly the subentries of type `"device"`. |
| `Sensors.SubscribedIsTracked` | custom_components/energy_device_monitor/sensor.py:103-117 | A subscribed sensor tracks exactly the entities of the inputs its kind's flags include, in constructor order. That is the list the constructor subscribes to. |
| `Sensors.NewUpdatedSensor` | custom_components/energy_device_monitor/sensor.py:49-56 | A newly allocated sensor of the given kind, subscribed, and updated once before it is added. |
| `Sensors.CreateDeviceSensors` | custom_components/energy_device_monitor/sensor.py:48-57 | Four newly allocated, pairwise distinct, subscribed and updated sensors of one subentry: low cost, high cost, total cost and total consumption, in that order. |
| `Sensors.AddSubentry` | custom_components/energy_device_monitor/sensor.py:45-57 | One pass of the setup loop. A device subentry gets a batch of new sensors appended; any other type is skipped. Batches already added keep their sensors and their state. |
| `Sensors.SetupEntry` | custom_components/energy_device_monitor/sensor.py:44-57 | One batch of exactly four sensors per device subentry, in subentry order, tagged with its subentry id. Every sensor is newly allocated, subscribed to its own inputs and updated once. Other subentry types get none. |
| `Sensors.SetupSensorsReadable` | custom_components/energy_device_monitor/sensor.py:55-56 | Because setup updates before adding, no sensor's `available` raises when the host first reads it. |
| `Sensors.MissingReadingScenario` | custom_components/energy_device_monitor/sensor.py:236-284 | With low consumption unavailable, low cost is unavailable. High cost at 0.30 × 5.0 is 1.5. |
| `Sensors.AllReadingsScenario` | custom_components/energy_device_monitor/sensor.py:195-326 | With every reading present, total cost at 0.20 × 10.0 + 0.30 × 5.0 is 3.5. Total consumption at 10.0 + 5.0 is 15.0. |

## Left out

- State-change subscription (`async_track_state_change_event`, `_handle_state_change`, sensor.py:113-120): this is the host's event bus. A change notification corresponds to a call of `Sensor.Update`. The subscription is never removed, which the model does not capture.
- Host reading of the two properties: the host writes "unavailable" when `available` is false and reads `native_value` only otherwise. This is host code. `ValueIffAvailable` is the fact that makes that order safe: once `available` is true, reading `native_value` does not raise.
- SetupEntry: does not state that two batches share no sensor object. Each sensor is proved new, and the four of one batch are proved pairwise distinct. It also has every first update read the single host state `states`. In the source, `async_add_entities` with `update_before_add` (sensor.py:55-57) is not awaited, and each sensor's first update runs later, in the task the host schedules. So different batches, and different sensors of one batch, may see a host state that has changed in between.
- `last_reset` (sensor.py:202-206): it uses the wall clock and time zones.
- Host metadata: entity-id and unique-id generation, translation placeholders, units, device class, state class and display precision. The device name and friendly name feed only these, so they are not modelled.
- Missing constant: `sensor.py` (line 22) imports `CONF_DEVICE_FRIENDLY_NAME` from `const.py`, and `const.py` does not define it. As written, importing the platform raises `ImportError`, so `async_setup_entry` never runs and no sensor is created. The model assumes the constant exists and that every device subentry's data holds its key. `SetupEntry` and everything after it describe the platform once that import is repaired.
- Number parsing: Python's `float()` and IEEE-754 arithmetic. The parser is an abstract `string -> Option<real>` parameter, and arithmetic is over `real` (no rounding, infinities or NaN).
- Configuration dictionaries: they are typed records (`Entry`, `Subentry`). A missing key, which would raise `KeyError`, is not modelled.
- Concurrency in `async_update` and setup: nothing in `async_update` suspends, so all four normalisations read one host state. The host runs the first updates of the added sensors in its own tasks, after setup returns. Each update touches only its own sensor, so the model runs them in order inside setup, all against one host state. The line starting "SetupEntry:" says what this does not capture.
- `controller.py`, `config_flow.py`, `__init__.py` and the string constants of `const.py` are not part of this model. They are host glue: a controller that is never wired in, configuration forms, and platform forwarding and unloading.
