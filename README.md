# Grinder scale: weight sensing and the grind state machine

This project models the control core of an automatic espresso-dose grinder
(`src/scale.cpp` and `src/scale.hpp`). A load cell is polled by a sensor
task. A status task runs a four-state machine (Empty, Grinding, Finished,
Failed) at about 20 Hz. It starts the grinder when a cup appears and stops it
when the dose is in the cup or something goes wrong. It also requests an
automatic tare when the empty scale drifts.

How the model is built:

- `scale_config.dfy` (module `ScaleConfig`) holds the header's status codes,
  as a `Status` datatype plus its integer codes, and the thresholds, as
  constants.
- `scale.dfy` (module `Scale`) records every global of `scale.cpp` as one
  `Globals` value, under the code's own names. This includes the two
  function statics `lastWeight` and `weightAtStart`, and the level of the
  grinder pin (`grinderActive`).
  - `Step` is one iteration of `scaleStatusLoop`. Each `continue` ends the
    iteration.
  - `Sense` is one iteration of `updateScale`. A pending tare is served first.
    Then the poll either publishes a filtered sample or times out.
  - Class `ScaleController` holds the same globals as fields. Its methods
    `Tick`, `SensorStep` and `TareScale` update them in place. `Tick` and
    `SensorStep` are proved equal to `Step` and `Sense`.
  - `Run` applies any interleaving of the two tasks' iterations, each taken as
    one atomic step.
- `scale_properties.dfy` (module `ScaleProperties`) holds the properties.
  - It checks `Step` against a transition table (`NextStatus`).
  - It proves each exit of a grind and each return to Empty.
  - It proves the tare-request condition and its spacing in time.
  - It proves that along every interleaving from boot the grinder is on
    exactly while the status is Grinding.

Time is a natural number of milliseconds. Every step requires that `now` is
no earlier than any recorded timestamp (`ClockOk`). Weights are reals. The
estimator is a function parameter, `filter: real -> real`, given per poll. A
caller can pass a different function at every poll, so an estimator that
depends on its own history is covered.

Five behaviours of the code are easy to misread. The model keeps them as written:

- The sensor-lost check in Grinding does not end the tick. The later exits
  still run, so a tick that reaches the dose ends Finished even with the
  sensor lost (`NotReadyThenDoseFinishes`).
- The stall checkpoint is taken only on the tick exactly 2000 ms into a
  grind. It is a static that no session resets. If that tick is skipped, the
  stall test uses a value left over from an earlier session, or the initial 0
  (`StaleCheckpointFailsSecondSession` runs two grinds from boot to show it).
- Once the checkpoint is taken, every later tick of the grind compares the
  reading with it, not with the reading 2 s earlier. So every later tick
  fails a grind that gained less than 1 g since the 2000 ms tick, even the
  next tick about 50 ms later. A grind at a steady 3.6 g/s, which would reach
  the 18 g dose in about 5 s, fails 50 ms after its checkpoint
  (`CheckpointThenSlowTickFails`, `CheckpointFailsSteadyGrind`).
- Returning to Empty clears nothing: the empty-cup weight, the timestamps and
  the checkpoint are kept (`FinishedReturn`, `FailedReturn`).
- A tare is recorded by storing the current time. If a tare happens at time
  0, the stored 0 still reads as "tare pending", so the next poll tares again.

## Model

| member | source | states |
|---|---|---|
| ScaleConfig.Code | src/scale.hpp:6-9 | each status has its own code, from 0 to 3 |
| ScaleConfig.FromCode | src/scale.hpp:6-9 | each code from 0 to 3 decodes to the status that encodes to it |
| ScaleConfig.CodesDistinct | src/scale.hpp:6-9 | two statuses have equal codes only if they are the same status; decoding inverts encoding |
| Scale.Boot | src/scale.cpp:14-22 | the globals start with status Empty, the pin low, a tare pending and the sensor not ready |
| Scale.Abs | src/scale.cpp:9 | ABS is non-negative, is x or -x, and bounds both x and -x |
| Scale.Step | src/scale.cpp:55-145 | a status tick only takes transitions of the state machine, leaves the sensor's fields alone, keeps timestamps no later than now, and either keeps lastTareAt or sets it to 0 |
| Scale.Sense | src/scale.cpp:26-50 | a poll serves a pending tare at `now`; on a sample it publishes filter(raw) with time `now` and ready; on a timeout only ready drops; it never touches the state machine's fields |
| Scale.Run | src/scale.cpp:154-171 | an interleaving of the two tasks' iterations keeps every timestamp no later than the last event's time |
| Scale.ScaleController.constructor | src/scale.cpp:14-22 | the fields start in the boot state, which is safe |
| Scale.ScaleController.TareScale | src/scale.cpp:26-30 | taring records the current time as the last tare |
| Scale.ScaleController.SensorStep | src/scale.cpp:36-50 | the fields afterwards are exactly Sense of the fields before; the safety invariant is kept |
| Scale.ScaleController.Tick | src/scale.cpp:55-145 | the fields afterwards are exactly Step of the fields before; the safety invariant is kept |
| Scale.ScaleController.TickEmpty | src/scale.cpp:71-86 | the Empty branch, with its early exit, equals the Empty case of the specification |
| Scale.ScaleController.TickGrinding | src/scale.cpp:87-128 | the Grinding branch, with the non-ending not-ready check and the ending exits, equals the Grinding case of the specification |
| Scale.StepKeepsSafe | src/scale.cpp:82-127 | a tick keeps: pin on iff Grinding; non-Empty sessions started on a detected cup; finished grinds end after they start |
| ScaleProperties.StepFollowsTable | src/scale.cpp:71-141 | a tick's new status is the transition table's, with Grinding exits in the order timeout, stall, cup removed, dose, then sensor lost |
| ScaleProperties.CupStartsGrinding | src/scale.cpp:78-85 | a reading within 5 g of 20.2 g in Empty starts grinding on that tick, with the reading as cup weight, the start time `now`, the pin on, and no tare request |
| ScaleProperties.NoCupStaysEmpty | src/scale.cpp:71-86 | without a cup in the band an Empty tick stays Empty and keeps pin and session fields |
| ScaleProperties.TareRequestedExactlyWhenDue | src/scale.cpp:71-75 | lastTareAt becomes 0 iff Empty, now - lastTareAt > 10000, abs(weight) > 0.2 and weight < 3; otherwise it is unchanged |
| ScaleProperties.TareAndGrindExclusive | src/scale.cpp:72-85 | no Empty tick both requests a tare and starts grinding |
| ScaleProperties.CupBandClearOfTareBand | src/scale.hpp:11-12 | the cup band (15.2, 25.2) is disjoint from the drift band |
| ScaleProperties.TimeoutFails | src/scale.cpp:93-98 | past 20000 ms a grind fails whatever the weight, with pin off and session fields kept |
| ScaleProperties.StallFails | src/scale.cpp:106-114 | past 2000 ms, less than 1 g over the checkpoint fails the grind with pin off, and keeps the cup weight, start and finish times |
| ScaleProperties.NotReadyThenDoseFinishes | src/scale.cpp:88-128 | a lost sensor does not end the tick: reaching the dose on that tick gives Finished at `now` with pin off |
| ScaleProperties.NotReadyAloneFails | src/scale.cpp:88-91 | a lost sensor takes the grind out of Grinding and turns the pin off |
| ScaleProperties.DoseFinishes | src/scale.cpp:122-127 | reaching cup + 18 g gives Finished with pin off and finish time `now`, no earlier than the start |
| ScaleProperties.RemovedAndDoseExclusive | src/scale.cpp:116-127 | the cup-removed floor is strictly below the dose target, so the two exits never both hold |
| ScaleProperties.CheckpointOnlyAtTwoSeconds | src/scale.cpp:101-104 | the checkpoint changes only on a Grinding tick exactly 2000 ms after the start, and then takes the reading; starting a grind does not reset it |
| ScaleProperties.CheckpointWithinGrindWindow | src/scale.cpp:88-128 | with one clock reading per tick, the 2000 ms tick captures the reading, and with the sensor ready, the cup in place and the dose not reached it stays Grinding (neither timeout nor stall fires) |
| ScaleProperties.FinishedReturn | src/scale.cpp:129-134 | Finished goes to Empty iff weight < 5; cup weight, timestamps, checkpoint, tare time and pin are kept |
| ScaleProperties.FailedReturn | src/scale.cpp:135-140 | Failed goes to Empty iff weight >= 500; cup weight, timestamps, checkpoint, tare time and pin are kept |
| ScaleProperties.NoRestartAfterFinished | src/scale.cpp:129-134 | the reading that clears Finished cannot start a grind on the next tick |
| ScaleProperties.NoRestartAfterFailed | src/scale.cpp:135-140 | the press that clears Failed neither starts a grind nor requests a tare on the next tick |
| ScaleProperties.SenseKeepsSafe | src/scale.cpp:36-50 | a sensor poll keeps the safety invariant |
| ScaleProperties.RunKeepsSafe | src/scale.cpp:147-171 | every interleaving of polls and ticks keeps the safety invariant |
| ScaleProperties.BootRunsSafe | src/scale.cpp:147-171 | from boot (pin low, status Empty), on every interleaving, the pin is on iff the status is Grinding |
| ScaleProperties.PendingOrRecent | src/scale.cpp:26-39 | after a tare request, the tare time is pending (0) or no earlier than the request |
| ScaleProperties.TareRequestsSpaced | src/scale.cpp:71-75 | two tare requests (each turning a recorded tare time into 0) are more than 10000 ms apart |
| ScaleProperties.TickToTickComparison | src/scale.cpp:65-69 | on every interleaving, lastWeight is the reading of the latest status tick, and lastSignificantWeightChangeAt is the time of the latest tick whose reading moved more than 5 g from the previous tick's reading (or the initial value) |
| ScaleProperties.LastWeightAfterPolls | src/scale.cpp:65-69 | when only sensor polls follow a status tick, the remembered reading is the one that tick saw |
| ScaleProperties.CheckpointThenSlowTickFails | src/scale.cpp:101-114 | after a checkpoint tick that keeps grinding, a poll and a tick at any later time fail the grind when the new reading is less than 1 g above the checkpoint |
| ScaleProperties.CheckpointFailsSteadyGrind | src/scale.cpp:101-114 | from boot, a grind at 3.6 g/s takes a 27.4 g checkpoint at its 2000 ms tick and is failed, pin off, on the next tick at 2050 ms with 27.58 g |
| ScaleProperties.StaleCheckpointFailsSecondSession | src/scale.cpp:101-114 | from boot, a first grind takes a 30 g checkpoint at its 2000 ms tick and finishes; a second grind whose 2000 ms tick is skipped is failed at 2050 ms by that stale checkpoint while 3 g into its dose |

## Left out

- The two FreeRTOS tasks run concurrently. The model takes each loop iteration as one atomic step and allows any interleaving (`Run`). The sensor task cannot write in the middle of a tick, although `scaleWeight` is read several times within one tick.
- HX711 driver calls (`begin`, `set_scale`, `wait_ready_timeout`, `get_units`, `tare`) are foreign code. A read is an `Option<real>` sample, where `None` is the 300 ms timeout. A tare is only recorded by its time. Its effect on later readings belongs to the sensor.
- The Kalman filter's arithmetic is left out. It is a per-poll `real -> real` parameter.
- Floating point is left out. Weights are reals, so `double` rounding and the `float` narrowing of `lastEstimate` are not modelled.
- One tick reads the clock once, as `now`. The code calls `millis()` up to five times in a Grinding tick (src/scale.cpp:67, 93, 102, 107, 124) and up to three times in an Empty tick (src/scale.cpp:67, 72, 83), so the clock can move within a tick.
- CheckpointWithinGrindWindow: relies on one clock reading per tick. If the clock moves from 2000 to 2001 between the checkpoint write (line 103) and the stall test (line 107), the code fails the grind on the checkpoint tick itself, because the progress since the checkpoint is 0 g.
- TareRequestsSpaced: relies on one clock reading per tick and on `ClockOk`. If the sensor task records a tare after the status task has read `millis()` for line 72, the unsigned difference wraps and the request condition can hold early.
- The 32-bit wrap-around of `millis()` and of unsigned subtraction is left out. Time is a natural number that never runs backwards.
- A tare, its read and its timestamp happen at one `now`. The time the blocking tare takes is not modelled.
- `Serial` logging, `delay(50)`, `pinMode` and `digitalWrite` are I/O. Only the pin level is kept, as a boolean.
- `src/display.cpp` (rendering) and `src/main.cpp` (bootstrap) are not part of this model. The commented-out history buffer is not modelled either.
- `TARE_MEASURES` and the pin and calibration constants are only passed to the driver, so no property uses them.
