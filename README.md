# vehiculosapi — a verified model of the hand-written logic

`vehiculosapi` is a small Spring Boot service that stores vehicles, and
deliberately lets a fault injector ("Chaos Monkey") slow it down, throw
exceptions and eat memory. This project models the four pieces of
hand-written logic in that service and proves their contracts in Dafny:

- **The fault-injection control panel** (`chaos.dfy`, `chaos_config.dfy`,
  `chaos_controller.dfy`).
  - The assault, watcher and enabled settings are property objects the panel
    changes in place. The bean definitions give them their starting values.
  - `ApplyUpdate` is a reference definition of the partial update: the
    recognised key groups are applied in a fixed order (level, latency flag,
    latency start, latency end, exception flag, exception spec, memory flag,
    memory wait).
    - Every absent group is left alone.
    - Numbers are stored through Java's `intValue()`: 32-bit wrap-around for
      integers, truncation with saturation for doubles.
    - A value of the wrong type (`ClassCastException`) or a null unboxed into
      a primitive setter (`NullPointerException`) stops the update with every
      earlier group already written.
  - `ChaosMonkeyController.UpdateAssaults` writes the shared object group by
    group, and is proved to end in exactly the state `ApplyUpdate` gives.
  - The convenience endpoints are proved to touch only their own fields.
  - The exception spec is rebuilt by a carry-over rule: an empty message
    keeps the previous arguments, so the reported message stays what it was.
- **The vehicle service** (`vehiculo.dfy`, `vehiculo_service.dfy`).
  - The record store is a `map<int, Vehiculo>` owned by the service, with an
    identity counter.
  - Each operation is one attempt: the simulated random failure first, then
    the store work. The attempt runs inside the timing pass-through; a
    failure, or a call the circuit breaker refuses, goes to that operation's
    fallback:
    - the list → empty;
    - a lookup → a blank record;
    - a write → a "try again later" error carrying the cause.
  - The store invariant is proved preserved by every write: no two records
    share a plate, each record is stored under its own id and has every
    not-null column set.
- **Health flags** (`health.dfy`).
  - Readiness and liveness, each setter publishing one availability event,
    kept in a ghost log.
  - The start-up step that raises both flags.
  - The verdict DOWN / OUT_OF_SERVICE / UP.
- **Metrics** (`metrics.dfy`).
  - The demonstration gauge, which counts scheduled runs modulo 100.
  - The timing pass-through: it returns exactly what the operation produced
    and records one timing whether the operation returns or throws.

`common.dfy` holds the shared `Option` (a nullable reference), `Result` (a
returned value or a thrown exception) and Java's `int`/`long` as newtypes.

## Model

| member | source | states |
|---|---|---|
| ChaosMonkey.Wrap32 | src/main/java/com/example/vehiculosapi/chaos/ChaosMonkeyController.java:96 | `intValue()` of an integral number: the 32-bit value congruent to it modulo 2^32, equal to it when it already fits |
| ChaosMonkey.TruncSat | src/main/java/com/example/vehiculosapi/chaos/ChaosMonkeyController.java:96 | `intValue()` of a double: rounded toward zero inside the `int` range, saturated at `Integer.MAX_VALUE`/`MIN_VALUE` outside it |
| ChaosMonkey.View | src/main/java/com/example/vehiculosapi/chaos/ChaosMonkeyController.java:37-65 | the assault projection copies the scalar settings; exceptionType is "" when no exception is stored; exceptionMessage is the first argument's value, or "" when there is no exception or no argument |
| ChaosMonkey.RebuildException | src/main/java/com/example/vehiculosapi/chaos/ChaosMonkeyController.java:118-130 | the new spec has the given type; a non-empty message becomes its single argument; an empty message carries the previous arguments over unchanged; so the reported message is the new one, or else the previously reported one |
| ChaosMonkey.WithField | src/main/java/com/example/vehiculosapi/chaos/ChaosMonkeyController.java:95-109 | a setter: the group's own field takes the value and every other field (and `deterministic`) is unchanged |
| ChaosMonkey.Decode | src/main/java/com/example/vehiculosapi/chaos/ChaosMonkeyController.java:95-139 | the single-field blocks (all but the exception block at 110-131): numeric keys are cast to Number and stored via `intValue()`; flag keys must be Booleans; null raises NullPointerException; it fails exactly when the value has the wrong type |
| ChaosMonkey.DecodeException | src/main/java/com/example/vehiculosapi/chaos/ChaosMonkeyController.java:110-131 | an absent exceptionType keeps the stored type, or "" with no exception stored; a present one (String or null) is taken as is; an absent or empty message keeps the reported message; fails exactly on a non-String type or a non-String message |
| ChaosMonkey.ApplyKey | src/main/java/com/example/vehiculosapi/chaos/ChaosMonkeyController.java:95-139 | one guarded block: a group none of whose keys is in the request changes nothing and cannot fail |
| ChaosMonkey.ApplyKeyTouchesOnlyItsGroup | src/main/java/com/example/vehiculosapi/chaos/ChaosMonkeyController.java:95-139 | a guarded block that succeeds changes no field outside its own group, and never `deterministic` |
| ChaosMonkey.PresentFieldIsStored | src/main/java/com/example/vehiculosapi/chaos/ChaosMonkeyController.java:95-139 | the single-field blocks (all but the exception block at 110-131): a present single-field key stores its value (an integer wrapped to 32 bits, a decimal truncated and saturated, a Boolean as is) and fails exactly when the value has the wrong type |
| ChaosMonkey.ApplyUpdate | src/main/java/com/example/vehiculosapi/chaos/ChaosMonkeyController.java:91-139 | the reference definition of `updateAssaults`, the eight blocks in source order; no key reaches `deterministic` |
| ChaosMonkey.ApplyKeysAppend | src/main/java/com/example/vehiculosapi/chaos/ChaosMonkeyController.java:95-139 | applying groups in sequence is applying a prefix and then the rest, and a failure in the prefix stops everything after it |
| ChaosMonkey.ApplyKeysKeepsAbsent | src/main/java/com/example/vehiculosapi/chaos/ChaosMonkeyController.java:95-139 | a group none of whose keys is in the request keeps its value through any sequence of groups |
| ChaosMonkey.ApplyKeysKeepsDeterministic | src/main/java/com/example/vehiculosapi/chaos/ChaosMonkeyController.java:95-139 | no sequence of guarded blocks changes `deterministic`, which the update has no key for |
| ChaosMonkey.ApplyKeysKeepsOtherGroups | src/main/java/com/example/vehiculosapi/chaos/ChaosMonkeyController.java:95-139 | blocks of other groups keep a group's field(s), whether they succeed or fail |
| ChaosMonkey.ApplyKeyReadsOnlyItsGroup | src/main/java/com/example/vehiculosapi/chaos/ChaosMonkeyController.java:95-131 | what a block writes, and whether it fails, depends on its own field(s) only: the exception block reads the stored spec for the carry-over, the others read nothing |
| ChaosMonkey.ApplyKeysStoresEachGroup | src/main/java/com/example/vehiculosapi/chaos/ChaosMonkeyController.java:95-139 | in a completed run of distinct groups, every group ends holding what its own block writes on the settings the run started from |
| ChaosMonkey.UpdateStoresPresentField | src/main/java/com/example/vehiculosapi/chaos/ChaosMonkeyController.java:95-139 | the single-field blocks (all but the exception block at 110-131): after an update that completes, every present single-field key holds its value, cast as its block casts it (so that cast succeeded) |
| ChaosMonkey.UpdateStoresException | src/main/java/com/example/vehiculosapi/chaos/ChaosMonkeyController.java:110-131 | after an update that completes with an exception key present, the stored spec is the one the exception block builds from the old settings: a given type is taken (null as null), an absent one kept; a given non-empty message replaces the reported one, an absent or empty one keeps it |
| ChaosMonkey.AbsentKeysAreNoOps | src/main/java/com/example/vehiculosapi/chaos/ChaosMonkeyController.java:95-139 | groups whose keys are all absent leave the settings unchanged and cannot fail |
| ChaosMonkey.UpdateKeepsAbsentFields | src/main/java/com/example/vehiculosapi/chaos/ChaosMonkeyController.java:95-139 | `updateAssaults` leaves every field whose key is absent unchanged, whether or not it fails |
| ChaosMonkey.UpdateWithoutKnownKeys | src/main/java/com/example/vehiculosapi/chaos/ChaosMonkeyController.java:95-139 | an update with no recognised key, the empty body in particular, changes nothing and succeeds |
| ChaosMonkey.UpdateStopsAtFirstFailure | src/main/java/com/example/vehiculosapi/chaos/ChaosMonkeyController.java:95-139 | when the i-th group in the fixed order is the first to fail, the result is the settings after the first i groups together with that group's exception |
| ChaosMonkey.ApplyKeySucceedsIffWellTyped | src/main/java/com/example/vehiculosapi/chaos/ChaosMonkeyController.java:95-139 | a guarded block throws exactly when its group is present with a value of a type its cast rejects |
| ChaosMonkey.ApplyKeysFailsIffBadlyTyped | src/main/java/com/example/vehiculosapi/chaos/ChaosMonkeyController.java:95-139 | a run of guarded blocks throws exactly when one of its groups is badly typed |
| ChaosMonkey.UpdateFailsIffBadlyTyped | src/main/java/com/example/vehiculosapi/chaos/ChaosMonkeyController.java:95-139 | `updateAssaults` throws exactly when some group of the request is badly typed, so a request whose present keys all have accepted types always completes |
| ChaosMonkey.LatencyRequest | src/main/java/com/example/vehiculosapi/chaos/ChaosMonkeyController.java:151-154 | the latency endpoint's request triggers exactly the latency flag, start and end groups |
| ChaosMonkey.LatencyUpdate | src/main/java/com/example/vehiculosapi/chaos/ChaosMonkeyController.java:151-156 | the request the latency endpoint builds sets exactly the latency flag, start and end as given, with no ordering check, and cannot fail |
| ChaosMonkey.MemoryRequest | src/main/java/com/example/vehiculosapi/chaos/ChaosMonkeyController.java:193-195 | the memory endpoint's request triggers exactly the memory flag and wait groups; the megabytes are not in it |
| ChaosMonkey.MemoryUpdate | src/main/java/com/example/vehiculosapi/chaos/ChaosMonkeyController.java:193-197 | the request the memory endpoint builds sets exactly the memory flag and the wait (the `long` cut to 32 bits), and cannot fail |
| ChaosMonkey.AssaultProperties.constructor | src/main/java/com/example/vehiculosapi/config/ChaosMonkeyConfig.java:20 | a fresh assault-properties object carries the library's default exception spec |
| ChaosMonkey.ChaosMonkeyProperties.constructor | src/main/java/com/example/vehiculosapi/config/ChaosMonkeyConfig.java:13-14 | the enabled flag is the one bound from the configuration |
| ChaosMonkey.ChaosMonkeySettings.constructor | src/main/java/com/example/vehiculosapi/config/ChaosMonkeyConfig.java:56 | the bundle holds exactly the three given property objects |
| ChaosMonkeyConfiguration.AssaultPropertiesBean | src/main/java/com/example/vehiculosapi/config/ChaosMonkeyConfig.java:17-36 | level 3, deterministic, latency on with 1000..3000, exceptions on with exactly one argument ("java.lang.RuntimeException", "Simulated exception"), memory on with a 15000 wait; the projection reports "Simulated exception" |
| ChaosMonkeyConfiguration.WatcherPropertiesBean | src/main/java/com/example/vehiculosapi/config/ChaosMonkeyConfig.java:38-49 | a fresh watcher object with all five flags on |
| ChaosMonkeyConfiguration.ChaosMonkeySettingsBean | src/main/java/com/example/vehiculosapi/config/ChaosMonkeyConfig.java:51-57 | a fresh settings bundle sharing exactly the given enabled, assault and watcher objects |
| ChaosControl.ChaosMonkeyController.constructor | src/main/java/com/example/vehiculosapi/chaos/ChaosMonkeyController.java:20-22 | the controller works on the given settings bundle |
| ChaosControl.ChaosMonkeyController.GetAssaultsConfig | src/main/java/com/example/vehiculosapi/chaos/ChaosMonkeyController.java:37-65 | the answer is the projection of the shared assault object's current settings |
| ChaosControl.ChaosMonkeyController.GetStatus | src/main/java/com/example/vehiculosapi/chaos/ChaosMonkeyController.java:24-35 | the enabled flag together with the current assault projection |
| ChaosControl.ChaosMonkeyController.Enable | src/main/java/com/example/vehiculosapi/chaos/ChaosMonkeyController.java:67-72 | the flag is on, the assaults are as before, and the answer is the new status |
| ChaosControl.ChaosMonkeyController.Disable | src/main/java/com/example/vehiculosapi/chaos/ChaosMonkeyController.java:74-79 | the flag is off, the assaults are as before, and the answer is the new status |
| ChaosControl.ChaosMonkeyController.UpdateField | src/main/java/com/example/vehiculosapi/chaos/ChaosMonkeyController.java:95-139 | the single-field blocks (all but the exception block at 110-131): the i-th guarded block, when it guards a single field, writes exactly what `ApplyKey` prescribes, or nothing and reports its exception; either way the rest of the update goes on from the new settings as it would have from the old |
| ChaosControl.ChaosMonkeyController.UpdateException | src/main/java/com/example/vehiculosapi/chaos/ChaosMonkeyController.java:110-131 | the exception block writes exactly what `ApplyKey` prescribes, or nothing and reports its exception; either way the rest of the update goes on from the new settings as it would have from the old |
| ChaosControl.ChaosMonkeyController.UpdateLevelAndLatency | src/main/java/com/example/vehiculosapi/chaos/ChaosMonkeyController.java:95-106 | the first four guarded blocks run in order, stopping at the first exception; the rest of the update, or its failure, is what `ApplyUpdate` prescribes from the old settings |
| ChaosControl.ChaosMonkeyController.UpdateExceptionAndMemory | src/main/java/com/example/vehiculosapi/chaos/ChaosMonkeyController.java:107-139 | the last four guarded blocks run in order, stopping at the first exception; the settings reached are those `ApplyUpdate` reaches from where they started |
| ChaosControl.ChaosMonkeyController.UpdateAssaults | src/main/java/com/example/vehiculosapi/chaos/ChaosMonkeyController.java:89-142 | the shared assault object ends in exactly `ApplyUpdate` of its old settings; the answer is the projection, or the exception of the first badly typed group |
| ChaosControl.ChaosMonkeyController.ConfigureLatencyAssaults | src/main/java/com/example/vehiculosapi/chaos/ChaosMonkeyController.java:144-157 | only latencyActive, latencyRangeStart and latencyRangeEnd change, to the given values; the answer is the new projection |
| ChaosControl.ChaosMonkeyController.ConfigureExceptionAssaults | src/main/java/com/example/vehiculosapi/chaos/ChaosMonkeyController.java:159-184 | the exception flag is set and the spec rebuilt with the given class by the carry-over rule; the answer reports the class and the new message, or the old message when the given one is empty |
| ChaosControl.ChaosMonkeyController.ConfigureMemoryAssaults | src/main/java/com/example/vehiculosapi/chaos/ChaosMonkeyController.java:186-198 | only memoryActive and the wait change, the wait to the `long`'s `intValue()`; the megabytes are ignored |
| ChaosControl.ChaosMonkeyController.ConfigureWatchers | src/main/java/com/example/vehiculosapi/chaos/ChaosMonkeyController.java:200-229 | the shared watcher object, when there is one, gets all five flags; otherwise a fresh object that is never stored does; the answer always echoes the five flags |
| Model.Vehiculo | src/main/java/com/example/vehiculosapi/model/Vehiculo.java:9-30 | the entity: every field a nullable reference, the id generated by the store |
| Model.Complete | src/main/java/com/example/vehiculosapi/model/Vehiculo.java:14-27 | the columns declared not-null (marca, modelo, anio, color, placa) all hold a value |
| Model.Blank | src/main/java/com/example/vehiculosapi/service/VehiculoService.java:118-121 | the fallback record has every field unset, so it is not a storable record |
| Model.WithFieldsOf | src/main/java/com/example/vehiculosapi/service/VehiculoService.java:86-91 | the six setters: every caller-settable field comes from the update verbatim and only the id survives; complete exactly when the update is |
| Service.PlacaTaken | src/main/java/com/example/vehiculosapi/repository/VehiculoRepository.java:9 | `existsByPlaca`: some stored record carries the plate |
| Service.Listing | src/main/java/com/example/vehiculosapi/service/VehiculoService.java:46 | `findAll` lists every stored record and nothing else, one entry per stored identifier |
| Service.ObtenerPorIdIntento | src/main/java/com/example/vehiculosapi/service/VehiculoService.java:53-58 | succeeds exactly when no failure is injected and the id is stored, with the stored record; otherwise the injected failure or not-found |
| Service.CrearIntento | src/main/java/com/example/vehiculosapi/service/VehiculoService.java:64-71 | a taken plate raises the duplicate-plate error, exactly when no failure is injected and the plate is taken; success, exactly when the plate is free and the record complete, stores the record under a fresh id; any failure leaves the store unchanged; an injected failure comes first, as the simulated error, with the store unchanged |
| Service.ActualizarIntento | src/main/java/com/example/vehiculosapi/service/VehiculoService.java:77-95 | an absent id is not found; the duplicate-plate error happens exactly when the plate changes to one that is taken; success overwrites the record with the update's fields and keeps its id; any failure leaves the store unchanged; an injected failure comes first, as the simulated error, with the store unchanged |
| Service.EliminarIntento | src/main/java/com/example/vehiculosapi/service/VehiculoService.java:101-109 | succeeds exactly when no failure is injected and the id is stored, removing exactly that id and touching no other record; otherwise the store is unchanged |
| Service.WriteFallback | src/main/java/com/example/vehiculosapi/service/VehiculoService.java:123-136 | a write fallback always throws the "try again later" error naming the operation and carrying the original exception as its cause |
| Service.InsertFreePlacaKeepsInvariant | src/main/java/com/example/vehiculosapi/service/VehiculoService.java:67-70 | inserting a complete record with a free plate under the next identity value keeps plates unique and the store invariant |
| Service.CrearKeepsInvariant | src/main/java/com/example/vehiculosapi/service/VehiculoService.java:64-71 | `crear` preserves the store invariant (unique plates in particular) in every outcome |
| Service.ActualizarKeepsInvariant | src/main/java/com/example/vehiculosapi/service/VehiculoService.java:82-92 | `actualizar` preserves the store invariant (unique plates in particular) in every outcome |
| Service.EliminarKeepsInvariant | src/main/java/com/example/vehiculosapi/service/VehiculoService.java:104-107 | `eliminar` preserves the store invariant in every outcome |
| Service.CrearThenObtener | src/main/java/com/example/vehiculosapi/service/VehiculoService.java:64-71 | reading back a created record under its new id gives the caller's record with that id |
| Service.EliminarThenObtener | src/main/java/com/example/vehiculosapi/service/VehiculoService.java:104-107 | after deleting an id, looking it up is not-found |
| Service.ActualizarSamePlacaNoClash | src/main/java/com/example/vehiculosapi/service/VehiculoService.java:82-85 | keeping the stored plate never triggers the duplicate check |
| Service.VehiculoService.constructor | src/main/java/com/example/vehiculosapi/service/VehiculoService.java:28-38 | the service works over the repository as it stands (its records and identity counter, which must satisfy the store invariant), with the simulated failure switched off |
| Service.VehiculoService.SetSimularFallo | src/main/java/com/example/vehiculosapi/service/VehiculoService.java:147-149 | sets the switch and leaves the store alone |
| Service.VehiculoService.SimulaError | src/main/java/com/example/vehiculosapi/service/VehiculoService.java:139-144 | the injected failure fires exactly when the switch is on and the random draw exceeds 0.7 |
| Service.VehiculoService.ObtenerTodos | src/main/java/com/example/vehiculosapi/service/VehiculoService.java:40-48 | every stored record, or the empty list when the call is refused or the injected failure fires; one timing recorded per permitted call; the metrics gauge is left as it was |
| Service.VehiculoService.ObtenerPorId | src/main/java/com/example/vehiculosapi/service/VehiculoService.java:50-59 | the stored record, or the blank record when it is missing, the call is refused or the injected failure fires; the metrics gauge is left as it was |
| Service.VehiculoService.Crear | src/main/java/com/example/vehiculosapi/service/VehiculoService.java:61-72 | the store ends as the create attempt leaves it; every failure becomes the "try again later" error with the store unchanged; plates stay unique; the metrics gauge is left as it was |
| Service.VehiculoService.Actualizar | src/main/java/com/example/vehiculosapi/service/VehiculoService.java:74-96 | the store ends as the update attempt leaves it; every failure becomes the "try again later" error with the store unchanged; plates stay unique; the metrics gauge is left as it was |
| Service.VehiculoService.Eliminar | src/main/java/com/example/vehiculosapi/service/VehiculoService.java:98-110 | the store ends as the delete attempt leaves it; every failure becomes the "try again later" error with the store unchanged; the metrics gauge is left as it was |
| Health.ReadinessEvent | src/main/java/com/example/vehiculosapi/health/AppHealthIndicator.java:24-25 | ACCEPTING_TRAFFIC exactly when ready, otherwise REFUSING_TRAFFIC |
| Health.LivenessEvent | src/main/java/com/example/vehiculosapi/health/AppHealthIndicator.java:30-31 | CORRECT exactly when live, otherwise BROKEN |
| Health.LastReadiness | src/main/java/com/example/vehiculosapi/health/AppHealthIndicator.java:22-26 | the readiness last announced exists exactly when some readiness event was published, and is one that was |
| Health.LastLiveness | src/main/java/com/example/vehiculosapi/health/AppHealthIndicator.java:28-32 | the liveness last announced exists exactly when some liveness event was published, and is one that was |
| Health.LastEventsAreIndependent | src/main/java/com/example/vehiculosapi/health/AppHealthIndicator.java:22-32 | a readiness event leaves the announced liveness as it was, and the other way round |
| Health.AppHealthIndicator.constructor | src/main/java/com/example/vehiculosapi/health/AppHealthIndicator.java:14-20 | not ready, live, nothing published |
| Health.AppHealthIndicator.SetReady | src/main/java/com/example/vehiculosapi/health/AppHealthIndicator.java:22-26 | readiness takes the value, liveness is unchanged, exactly one readiness event is appended (even for an unchanged value), and the flags keep agreeing with the last announcements |
| Health.AppHealthIndicator.SetLive | src/main/java/com/example/vehiculosapi/health/AppHealthIndicator.java:28-32 | liveness takes the value, readiness is unchanged, exactly one liveness event is appended, and the flags keep agreeing with the last announcements |
| Health.HealthInitializer.constructor | src/main/java/com/example/vehiculosapi/health/HealthInitializer.java:13-15 | the initializer works on the given indicator |
| Health.HealthInitializer.Run | src/main/java/com/example/vehiculosapi/health/HealthInitializer.java:18-22 | afterwards ready and live whatever the arguments and the previous state (so a second run changes no flag); ACCEPTING_TRAFFIC then CORRECT appended; the custom indicator reports UP |
| Health.CustomHealth | src/main/java/com/example/vehiculosapi/config/HealthConfig.java:38-53 | DOWN with an "error" detail exactly when not live, OUT_OF_SERVICE with an "info" detail exactly when live and not ready, UP without details exactly when both |
| Metrics.ActiveAfter | src/main/java/com/example/vehiculosapi/config/MetricsConfig.java:41 | the gauge after any number of updates lies in [0, 100) |
| Metrics.ActiveAfterIsModulo | src/main/java/com/example/vehiculosapi/config/MetricsConfig.java:37-42 | starting from 0, after k updates the gauge is k mod 100 |
| Metrics.MetricsConfig.constructor | src/main/java/com/example/vehiculosapi/config/MetricsConfig.java:17-22 | the gauge starts at 0 with nothing recorded |
| Metrics.MetricsConfig.UpdateActiveVehicles | src/main/java/com/example/vehiculosapi/config/MetricsConfig.java:37-42 | the gauge becomes (old + 1) mod 100, stays in [0, 100), and equals the number of runs mod 100 |
| Metrics.MetricsConfig.RecordOperationTime | src/main/java/com/example/vehiculosapi/config/MetricsConfig.java:44-51 | returns exactly the operation's outcome, value or exception, and records exactly one timing under the operation's name |
| Metrics.MetricsConfig.RecordRunnableTime | src/main/java/com/example/vehiculosapi/config/MetricsConfig.java:53-58 | delegates to the supplier form: the same completion or exception, exactly one timing |

## Left out

- The circuit breaker and retry policies are library behaviour whose thresholds are configured elsewhere. Each service operation takes the breaker's verdict as the parameter `permitted` and runs a single attempt, so retries are not modelled.
- `Math.random()` in the simulated failure is the boolean parameter `roll`, standing for "the draw exceeded 0.7".
- The meter registry, the per-operation counters, the timer bean, the gauge registration and all logging are foreign calls. Only the names of recorded timings are kept, in a ghost log.
- The operations' lambdas run inside the timing pass-through in the system. Here the service computes the attempt's outcome and store change first, then hands the outcome to the pass-through. The pass-through has no other effect on the store, so only the position of the timing relative to the store write is lost.
- `VehiculoRepository` is a Spring Data interface; its implementation is library code, modelled as follows.
  - The store is a map with an identity counter.
  - `existsByPlaca` is "some stored record has this plate".
  - A save with a null in a not-null column is refused (`ConstraintViolation`).
  - A caller-supplied id on create is ignored (identity generation); the persistence provider's merge of a detached record with an id is not modelled.
  - Transactions and rollback are not modelled.
- `precio` is an opaque `real`; the service does no arithmetic on it.
- Concurrency: the shared singletons and the atomic gauge are modelled sequentially.
- The HTTP layer is not modelled: the vehicle and health controllers, response wrapping, JSON serialisation of answers, and request-parameter defaults. Every controller method here takes all its parameters explicitly.
- The application bootstrap is not modelled.
- The other beans in `HealthConfig.java` (database and availability-state indicators) and the profile/conditional annotations are not modelled.
- The load-test scripts are not modelled.
- How the fault-injection library applies assaults, and where it publishes availability events, is outside the repository.
- Request bodies cover the value types a JSON parser produces by default (integral numbers, doubles, strings, booleans, null, nested structures). Decimals read as `BigDecimal` are not modelled.
- A fresh `AssaultException` is assumed to start without arguments.
- ChaosMonkey.AssaultProperties.constructor: states only the exception spec, because the library's other defaults are not part of this model; every field the configuration bean relies on is set explicitly afterwards.
- Service.Listing: fixes ascending-id order, which the store does not promise; only membership and size are stated.
