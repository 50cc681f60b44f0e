# RSS sensor: arming, per-tick evaluation and response translation

A Dafny model of CARLA's client-side RSS sensor (`carla::client::RssSensor`).
The sensor is attached to a vehicle. `Listen` arms it: it captures the road map,
creates an `RssCheck` instance and registers a tick handler with the episode.
On every simulation tick the handler resolves a weak reference to the sensor
and runs `TickRssSensor`. That method takes a non-blocking processing lock,
enumerates the vehicles, asks the checker for a proper response and releases
the lock. It then translates the checker's longitudinal and lateral response
categories into the sensor's own vocabulary. Finally it packages everything,
with the tick's frame and elapsed seconds, into an `RssResponse` for the user
callback. `Stop` clears the listening flag.

Files and modules:

- `common.dfy` (`Common`): `Option` and `Call` (a foreign call returns a value or throws).
- `client.dfy` (`Client`): `Timestamp` and opaque simulator values (actor, map, transform, callback).
- `ad_rss.dfy` (`AdRss`): the checker's response vocabulary and `ProperResponse`.
- `sensor_data.dfy` (`SensorData`): the public vocabulary and the `RssResponse` record.
- `response_translation.dfy` (`ResponseTranslation`): the three switches.
- `tick_evaluation.dfy` (`TickEvaluation`): one evaluation and one handler run as functions, plus series of ticks.
- `rss_sensor.dfy` (`Sensor`): the classes `RssSensor`, `RssCheck` and `Episode`, with `Listen`, `Stop`, `TickRssSensor` and the handler `OnTick`.

How the model maps the source:

- The processing lock is the boolean field `processingLock`. If it is true when a tick starts, a concurrent evaluation holds it, so `try_lock` fails.
- Each foreign call that can throw is a `Call<T>` input: the vehicle enumeration, `checkObjects`, and `GetTransform` together with the allocation of the response.
- The weak self-reference is the input `selfAlive`.
- The checker's algorithm is an oracle: `TickEnvironment.check` supplies its answer. `RssCheck` records every call and its arguments in a ghost log.
- A default-constructed `ProperResponse`, `AccelerationRestriction` and `Velocity` have values fixed by the ad_rss library. They are opaque here: one `Defaults` value, a constant of the sensor (`RssSensor.defaults`), used on every tick.

Behaviour of the code that the model makes explicit:

- The switches at lines 79-105 have no `default` branch. The translations are total functions on closed datatypes.
- The catch handler releases the lock unconditionally (see Findings).
- After `Stop`, a second `Listen` registers a second handler for the same sensor (`Sensor.RelistenAfterStopSubscribesTwice`).
- `Stop` leaves the map, the checker and the registered handler in place; only the flag changes. `Sensor.RssSensor.Valid` states the invariant the code keeps: a listening sensor is subscribed, and a subscribed sensor has a map and a checker.

## Model

| member | source | states |
|---|---|---|
| `ResponseTranslation.TranslateLongitudinal` | LibCarla/source/carla/rss/RssSensor.cpp:79-89 | each checker longitudinal category None/BrakeMinCorrect/BrakeMin maps to the public category of the same name |
| `ResponseTranslation.TranslateLateral` | LibCarla/source/carla/rss/RssSensor.cpp:90-105 | each checker lateral category None/BrakeMin maps to the public category of the same name; the right and left switches are the same mapping applied independently |
| `ResponseTranslation.LongitudinalTranslationIsBijective` | LibCarla/source/carla/rss/RssSensor.cpp:79-89 | the longitudinal switch is injective, and every public category is the image of some checker category |
| `ResponseTranslation.LateralTranslationIsBijective` | LibCarla/source/carla/rss/RssSensor.cpp:90-105 | the lateral switch is injective, and every public category is the image of some checker category |
| `TickEvaluation.PackageResponse` | LibCarla/source/carla/rss/RssSensor.cpp:106-108 | the response carries the tick's frame and elapsed seconds, the transform, the result flag, acceleration restriction and ego velocity unchanged, and same-named translations of the three categories |
| `TickEvaluation.Evaluate` | LibCarla/source/carla/rss/RssSensor.cpp:59-115 | the checker is called at most once, and exactly when try_lock succeeds and the vehicles were enumerated; a lock this call took is free on every exit; a response exists exactly when no foreign call on the taken path threw; a response under contention has result false and the default-constructed checker outputs, otherwise the checker's outputs; on an exception the result is null and the lock is free whoever held it; the catch releases a lock it does not hold exactly when the packaging step throws |
| `TickEvaluation.EvaluateCorrected` | LibCarla/source/carla/rss/RssSensor.cpp:109-114 | with the catch releasing only a lock this call holds, the lock is left as found and no foreign release happens; the response and checker calls equal those of the code as written, and so does the lock when it was free on entry |
| `TickEvaluation.HandleTick` | LibCarla/source/carla/rss/RssSensor.cpp:46-53 | a dead weak reference makes the handler a no-op; the callback receives the evaluation's response exactly when the sensor is alive and the response is non-null; the listening flag is not an input |
| `TickEvaluation.SequentialTicksAreAllChecked` | LibCarla/source/carla/rss/RssSensor.cpp:61-74 | for ticks delivered one after another with the lock free at the start, every completing tick is checked and reported in order, nothing else is reported, the checker runs once per live tick whose vehicles were enumerated, and the lock ends free |
| `TickEvaluation.ContendedTicksReportDefaults` | LibCarla/source/carla/rss/RssSensor.cpp:61-74 | while another evaluation holds the lock and packaging never throws, every live tick reports result false with one and the same default-constructed checker response, whatever the world and the checker would say; the checker is never called, and the lock stays held |
| `TickEvaluation.ForeignLockReleaseAdmitsSecondEvaluation` | LibCarla/source/carla/rss/RssSensor.cpp:109-114 | as written, a packaging throw under contention releases the other evaluation's lock, so the next tick calls the checker while that evaluation is still in flight |
| `TickEvaluation.CorrectedKeepsForeignLock` | LibCarla/source/carla/rss/RssSensor.cpp:109-114 | with the corrected catch, the same packaging throw under contention leaves the other evaluation's lock held, so the next tick does not call the checker |
| `Sensor.RssCheck.constructor` | LibCarla/source/carla/rss/RssSensor.cpp:40 | a new checker instance has not been called yet |
| `Sensor.RssCheck.CheckObjects` | LibCarla/source/carla/rss/RssSensor.cpp:71-72 | the checker answers with the supplied outcome, and exactly one call with the given timestamp, vehicles, ego vehicle, map and visualisation flag is logged |
| `Sensor.Episode.RegisterOnTickEvent` | LibCarla/source/carla/rss/RssSensor.cpp:45-54 | registering appends exactly one handler to the episode's list |
| `Sensor.RssSensor.Listen` | LibCarla/source/carla/rss/RssSensor.cpp:26-57 | already listening: returns without touching map, checker, handlers or flag; no parent: throws with nothing changed and the flag still false; otherwise captures the world's map, creates a fresh uncalled checker, appends exactly one handler bound to this sensor and the callback, and sets the flag; the invariant "listening implies subscribed, subscribed implies map and checker" is preserved |
| `Sensor.RssSensor.Stop` | LibCarla/source/carla/rss/RssSensor.cpp:117-120 | only the listening flag changes, to false; the episode's handler list is unchanged |
| `Sensor.RssSensor.TickRssSensor` | LibCarla/source/carla/rss/RssSensor.cpp:59-115 | on a subscribed sensor, the returned response and the lock on exit are those of `TickEvaluation.Evaluate` for the lock state on entry and the library defaults; when the checker is called it receives the tick's timestamp, the enumerated vehicles, the parent and the map captured by `Listen`, and otherwise it is not called; the sensor invariant is preserved |
| `Sensor.OnTick` | LibCarla/source/carla/rss/RssSensor.cpp:46-54 | running a handler registered for a valid sensor delivers, locks and calls the checker (with the sensor's timestamp, vehicles, parent and map) as `TickEvaluation.HandleTick` says, for the lock state on entry |
| `Sensor.StopKeepsDelivering` | LibCarla/source/carla/rss/RssSensor.cpp:117-120 | after Listen and then Stop, the next tick on a live sensor still calls the checker exactly once, with the map Listen captured, and hands the checker's packaged answer for that tick to the callback |
| `Sensor.RelistenAfterStopSubscribesTwice` | LibCarla/source/carla/rss/RssSensor.cpp:27-56 | Listen, Stop, Listen leaves two handlers bound to the same sensor in the episode |

## Left out

- Vehicle-dynamics getters and setters (lines 122-136): they forward to `RssCheck`, whose storage is not part of this model. They dereference `mRssCheck`, which is null until the first successful `Listen`.
- Sensor.RssSensor.TickRssSensor: requires a subscribed sensor, which by `Valid` owns a checker. The source dereferences `mRssCheck` without a check, and only the handler that `Listen` registers calls it. A call before any `Listen` is not modelled.
- Threads and real mutex semantics: the lock is a boolean, and contention is the lock's state on entry. A spurious `try_lock` failure is indistinguishable from contention and is covered by that input. Mutual exclusion across threads is stated only through the lock's state on exit.
- The `checkObjects` algorithm, the fields of `ProperResponse` other than the three categories, and the contents of `AccelerationRestriction` and `Velocity`: opaque values supplied by the caller.
- The default values of a default-constructed `ProperResponse`, `AccelerationRestriction` and `Velocity`: fixed by the ad_rss library and supplied as inputs.
- `GetWorld`, `GetActors`, `Filter("vehicle.*")`, `GetMap`, `GetTransform`, `GetParent` and `shared_from_this`: foreign calls, modelled as inputs or fields.
- The weak reference's lifetime: reduced to the `selfAlive` input. The episode's own weak lock (`GetEpisode().Lock()`) is taken to succeed.
- Logging (`log_error`, `log_debug`, `std::cout`) and `DEBUG_ASSERT(_map != nullptr)`: no effect on state. The map returned by the world is taken as present.
- TickEvaluation.Evaluate: `Throws` stands for an exception derived from `std::exception`, which the catch at line 109 handles. An exception of another type would leave the lock held and leave `TickRssSensor`; that path is not modelled. `GetParent()` at line 71 is taken not to throw; it is read as the field `parent`.
- Sensor.RssSensor.TickRssSensor: the same two restrictions as `TickEvaluation.Evaluate` apply.
- Exceptions thrown by `make_shared<RssCheck>` or by the registration inside `Listen`: not modelled; `Listen` throws only for a missing parent.
- `elapsed_seconds` arithmetic: it is a double that is only copied, carried as a `real`. The frame counter is a `nat`; its fixed width does not matter because it is only copied.
- The order in which the episode runs several registered handlers on one tick: the episode's dispatch loop is not part of this model. `TickEvaluation.DeliverTicks` describes one handler receiving ticks one after another.

## Findings

| source | as written | input that shows it | evidently intended | confidence | as-written member | corrected member |
|---|---|---|---|---|---|---|
| LibCarla/source/carla/rss/RssSensor.cpp:112 | the catch handler calls `_processing_lock.unlock()` whether or not this call holds the lock | `try_lock` fails because another evaluation holds the lock, and `GetTransform` or the response allocation throws: the other evaluation's lock is released, and the next tick calls the checker concurrently with it. Likewise, `try_lock` succeeds, the checker returns, line 73 unlocks, and then `GetTransform` throws: the mutex is unlocked twice | release the lock in the catch handler only if this call still holds it, so that at most one evaluation runs at a time | medium, not executed | `TickEvaluation.ForeignLockReleaseAdmitsSecondEvaluation` | `TickEvaluation.EvaluateCorrected` |

`Sensor.RssSensor.TickRssSensor` keeps the code's behaviour, so that the class models what the source does. `TickEvaluation.EvaluateCorrected` proves that the fix returns the same response and makes the same checker calls as the code as written. It differs in two places, both after a throw in the packaging step. Under contention, the lock stays held instead of being freed. When this call took the lock, the second unlock after line 73 no longer happens. `TickEvaluation.CorrectedKeepsForeignLock` is the corrected counterpart of `TickEvaluation.ForeignLockReleaseAdmitsSecondEvaluation`.
