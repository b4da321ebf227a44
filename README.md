# Attitude estimation hub of Vellum, in Dafny

This project models `AdharsSensorHub`, the part of the Vellum artificial-horizon app that turns accelerometer
and gyroscope samples into a pitch/roll pair. The hub caches the latest sample of each sensor kind. It
subtracts a GPS-derived horizontal linear acceleration from the accelerometer vector. It remaps the horizontal
axes for the current screen rotation. It then bootstraps or runs a complementary filter with a gimbal-lock
guard, subtracts the calibration offset, and notifies its listener only when nothing has been published since the
last reset or the output moved by more than 0.25 degrees on either axis.

Files and modules:

- `screen_rotation.dfy`, module `ScreenRotation`: the rotation remap table as two pure functions over
  Android's `Surface` rotation codes.
- `adhars_state.dfy`, module `AdharsState`: the hub's fields as one value (`HubState`). It also holds one
  function per operation (`Calibrate`, `StartListening`, `StopListening`, `OnLocationUpdate`,
  `OnSensorChanged` and its steps `CacheSample`, `Baseline`, `Gravity`, `AccelPitch`, `AccelRoll`,
  `GyroChange`, `Fuse`, `Relative`, `ShouldPublish`, `Publish`) and the lemmas that state what each
  operation promises.
- `adhars_sensor_hub.dfy`, module `AdharsSensorHub`: the class `AdharsSensorHub`. Its mutable fields mirror
  the Kotlin fields. The four `FloatArray` buffers are `array<real>` and are updated in place. Every method
  except `ResetBuffers` is proved to take `State()` to the value the matching `AdharsState` function
  gives; `ResetBuffers` is proved to leave all four buffers at zero.
- `adhars_traces.dfy`, module `AdharsTraces`: runs of inputs (start, stop, calibrate, location fix,
  sensor event). It states the invariant every reachable state keeps, that nothing reaches a listener after
  `stopListening`, and that calibration followed by two motion events, the first with a nonzero timestamp, publishes
  exactly (0, 0).

Numbers and collaborators:

- Kotlin `Float` and `Double` are `real`. Timestamps (`Long`) are `int`.
- `atan2`, `sqrt`, `sin`, `cos`, `Math.toDegrees` and `Math.toRadians` are not interpreted. They are
  fields of a `Trig` value that every numeric operation receives as a parameter.
- The screen rotation, which the hub reads from the window manager on every event, is a parameter of
  `OnSensorChanged`.
- The listener is an optional `ListenerToken`. A call of `onDataUpdate` is returned as a `Call` value.
- Registration with the sensor manager is the boolean `registered`.

Behaviour of the Kotlin code worth knowing (all in `AdharsSensorHub.kt`):

- The motion path does not reject a non-positive `dt`: an event older than the baseline is still fused, and
  `lastTimestamp` moves back to its timestamp (lines 149-158). Only the location path rejects `dt <= 0`
  (line 114). See `AdharsState.StaleMotionEventStillFused`.
- Fusion runs on every accelerometer or gyroscope event once a baseline timestamp exists, and `dt` is
  measured between any two consecutive events, whatever their kinds (lines 144-156).
- ROTATION_180 and every unknown rotation code take the same values as ROTATION_0 (lines 189-201). See
  `ScreenRotation.DefaultRotationIsZero`.

## Model

| member | source | states |
|---|---|---|
| ScreenRotation.RemapKeepsLength | app/src/main/java/dev/fanfly/apps/vellum/adhars/AdharsSensorHub.kt:174-202 | for every rotation code the gravity-pair remap and the gyroscope-pair remap keep the pair's length |
| ScreenRotation.AccelRemapRoundTrip | app/src/main/java/dev/fanfly/apps/vellum/adhars/AdharsSensorHub.kt:175-201 | the 90 remap followed by the 270 remap (and the reverse) gives back the original pair; 0 twice and 180 twice do too |
| ScreenRotation.GyroRemapInvolution | app/src/main/java/dev/fanfly/apps/vellum/adhars/AdharsSensorHub.kt:175-201 | each gyroscope remap applied twice gives back the original pair |
| ScreenRotation.DefaultRotationIsZero | app/src/main/java/dev/fanfly/apps/vellum/adhars/AdharsSensorHub.kt:189-201 | ROTATION_180 and every unknown code map accel to (-x, -y) and gyro to (-g0, -g1), as ROTATION_0 does |
| ScreenRotation.QuarterTurnsCompose | app/src/main/java/dev/fanfly/apps/vellum/adhars/AdharsSensorHub.kt:175-187 | two 90 remaps, or two 270 remaps, of the gravity pair equal the 0 remap |
| AdharsState.CalibrateResetsFilterState | app/src/main/java/dev/fanfly/apps/vellum/adhars/AdharsSensorHub.kt:81-96 | calibrate zeroes caches, velocity, linear acceleration, timestamps, previousAccelZ, fused angles and offsets, clears isZeroPositionSet and lastKnownPitchRoll, and keeps the listener |
| AdharsState.CalibrateIdempotent | app/src/main/java/dev/fanfly/apps/vellum/adhars/AdharsSensorHub.kt:81-96 | calibrating twice gives the same state as calibrating once |
| AdharsState.StartListeningResets | app/src/main/java/dev/fanfly/apps/vellum/adhars/AdharsSensorHub.kt:64-73 | startListening stores the listener, registers, and leaves the filter state that calibrate gives |
| AdharsState.StopListeningKeepsFilterState | app/src/main/java/dev/fanfly/apps/vellum/adhars/AdharsSensorHub.kt:75-78 | stopListening clears the listener and registration, leaves filter state untouched, is idempotent, and changes nothing before any start |
| AdharsState.LocationRejections | app/src/main/java/dev/fanfly/apps/vellum/adhars/AdharsSensorHub.kt:101-117 | a null fix changes nothing; the first fix after reset only sets lastLocationTimestamp; a fix with dt <= 0 changes nothing |
| AdharsState.LocationFiniteDifference | app/src/main/java/dev/fanfly/apps/vellum/adhars/AdharsSensorHub.kt:113-134 | an accepted fix sets the velocity to the fix's, the new velocity equals the old one plus acceleration times dt on x and y, the time advances strictly, and nothing else changes |
| AdharsState.LocationTouchesOnlyGpsFields | app/src/main/java/dev/fanfly/apps/vellum/adhars/AdharsSensorHub.kt:101-137 | the location path changes only the GPS fields, never their z components, and moves the fix time only on a first or accepted fix |
| AdharsState.SensorEventFrame | app/src/main/java/dev/fanfly/apps/vellum/adhars/AdharsSensorHub.kt:141-259 | the motion path keeps listener, registration and GPS fields; a known event becomes the baseline timestamp; the filter is set exactly when a baseline existed; a call goes only to the stored listener and only for a fused event |
| AdharsState.StaleMotionEventStillFused | app/src/main/java/dev/fanfly/apps/vellum/adhars/AdharsSensorHub.kt:149-158 | an event no newer than the baseline still fuses and rewinds lastTimestamp to its own timestamp |
| AdharsState.UnknownSensorIgnored | app/src/main/java/dev/fanfly/apps/vellum/adhars/AdharsSensorHub.kt:143-147 | an event of any other sensor kind changes nothing and makes no call |
| AdharsState.FirstEventSetsBaseline | app/src/main/java/dev/fanfly/apps/vellum/adhars/AdharsSensorHub.kt:143-153 | the first event after reset only copies its vector into its own cache, records lastTimestamp and previousAccelZ, and makes no call |
| AdharsState.BootstrapZeroes | app/src/main/java/dev/fanfly/apps/vellum/adhars/AdharsSensorHub.kt:215-245 | the bootstrap sets offsets and fused angles to the accelerometer angles and marks the zero position, so the relative output is exactly (0, 0) |
| AdharsState.GimbalLockGuard | app/src/main/java/dev/fanfly/apps/vellum/adhars/AdharsSensorHub.kt:229-238 | pitch is always 0.99(fusedPitch - gyroPitchChange) + 0.01 accelPitch; at or above 85 degrees roll changes by exactly -gyroRollChange whatever accelRoll is, below it roll is blended like pitch |
| AdharsState.BlendBetween | app/src/main/java/dev/fanfly/apps/vellum/adhars/AdharsSensorHub.kt:229-235 | the blend lies between the gyro-propagated and the accelerometer angle, and its distance to the accelerometer angle shrinks by the factor 0.99 |
| AdharsState.OutputGate | app/src/main/java/dev/fanfly/apps/vellum/adhars/AdharsSensorHub.kt:252-259 | the gate opens iff there is no previous pair or roll or pitch moved by more than 0.25; when open it records the pair and calls the listener iff there is one; when shut nothing changes |
| AdharsState.GateShutMeansClose | app/src/main/java/dev/fanfly/apps/vellum/adhars/AdharsSensorHub.kt:252-256 | when the gate stays shut the recorded pair is within 0.25 of the new one on both axes |
| AdharsTraces.InitialInv | app/src/main/java/dev/fanfly/apps/vellum/adhars/AdharsSensorHub.kt:43-61 | the freshly constructed state satisfies the hub invariant |
| AdharsTraces.InvGravityZ | app/src/main/java/dev/fanfly/apps/vellum/adhars/AdharsSensorHub.kt:160-164 | in a reachable state gravityZ equals accelData[2] |
| AdharsTraces.FuseEventKeepsInv | app/src/main/java/dev/fanfly/apps/vellum/adhars/AdharsSensorHub.kt:204-259 | a fused event keeps the invariant, including that the published pair stays within 0.25 of the current output |
| AdharsTraces.SensorKeepsInv | app/src/main/java/dev/fanfly/apps/vellum/adhars/AdharsSensorHub.kt:141-259 | every motion event keeps the invariant |
| AdharsTraces.LocationKeepsInv | app/src/main/java/dev/fanfly/apps/vellum/adhars/AdharsSensorHub.kt:101-137 | every location fix keeps the invariant, in particular the z component of the linear acceleration stays 0 |
| AdharsTraces.StepKeepsInv | app/src/main/java/dev/fanfly/apps/vellum/adhars/AdharsSensorHub.kt:64-259 | every operation of the hub keeps the invariant |
| AdharsTraces.RunKeepsInv | app/src/main/java/dev/fanfly/apps/vellum/adhars/AdharsSensorHub.kt:64-259 | any run of inputs keeps the invariant |
| AdharsTraces.ReachableInv | app/src/main/java/dev/fanfly/apps/vellum/adhars/AdharsSensorHub.kt:43-259 | every state reachable from construction satisfies the invariant |
| AdharsTraces.StepCall | app/src/main/java/dev/fanfly/apps/vellum/adhars/AdharsSensorHub.kt:252-259 | a call is made only by a sensor event, to the stored listener of a registered hub, once the zero position is set, with the pair now recorded |
| AdharsTraces.NoCallsWithoutListener | app/src/main/java/dev/fanfly/apps/vellum/adhars/AdharsSensorHub.kt:75-78 | with no listener and no start in a run, the run makes no call and the listener stays absent |
| AdharsTraces.NoCallsAfterStop | app/src/main/java/dev/fanfly/apps/vellum/adhars/AdharsSensorHub.kt:75-78 | after stopListening no call is made until the next startListening |
| AdharsTraces.BootstrapPublishesZero | app/src/main/java/dev/fanfly/apps/vellum/adhars/AdharsSensorHub.kt:215-259 | the first fused event after reset publishes exactly (0, 0) to the listener, if there is one |
| AdharsTraces.BaselineAfterCalibrate | app/src/main/java/dev/fanfly/apps/vellum/adhars/AdharsSensorHub.kt:81-153 | after calibrate a first event with a nonzero timestamp only sets the baseline |
| AdharsTraces.FirstFusedEventZero | app/src/main/java/dev/fanfly/apps/vellum/adhars/AdharsSensorHub.kt:149-259 | a fused event on an unset zero position with nothing published publishes (0, 0) |
| AdharsTraces.CalibrationZeroing | app/src/main/java/dev/fanfly/apps/vellum/adhars/AdharsSensorHub.kt:81-259 | calibrate, then two motion events of known kinds, the first with a nonzero timestamp: no call for the first, exactly (0, 0) to the listener for the second |
| AdharsSensorHub.AdharsSensorHub.constructor | app/src/main/java/dev/fanfly/apps/vellum/adhars/AdharsSensorHub.kt:43-61 | a new hub has fresh buffers and the all-zero state with no listener |
| AdharsSensorHub.AdharsSensorHub.StartListening | app/src/main/java/dev/fanfly/apps/vellum/adhars/AdharsSensorHub.kt:64-73 | the fields end as StartListening gives |
| AdharsSensorHub.AdharsSensorHub.StopListening | app/src/main/java/dev/fanfly/apps/vellum/adhars/AdharsSensorHub.kt:75-78 | the fields end as StopListening gives; the buffers are not touched |
| AdharsSensorHub.AdharsSensorHub.ResetBuffers | app/src/main/java/dev/fanfly/apps/vellum/adhars/AdharsSensorHub.kt:83-86 | the four buffers hold zeros afterwards |
| AdharsSensorHub.AdharsSensorHub.Calibrate | app/src/main/java/dev/fanfly/apps/vellum/adhars/AdharsSensorHub.kt:81-96 | the fields and buffers end as Calibrate gives |
| AdharsSensorHub.AdharsSensorHub.OnLocationUpdate | app/src/main/java/dev/fanfly/apps/vellum/adhars/AdharsSensorHub.kt:101-137 | the fields and the two GPS buffers end as OnLocationUpdate gives; the sensor caches are not touched |
| AdharsSensorHub.AdharsSensorHub.OnSensorChanged | app/src/main/java/dev/fanfly/apps/vellum/adhars/AdharsSensorHub.kt:141-259 | the new state and the returned listener call are those OnSensorChanged gives; the GPS buffers are not touched |
| AdharsSensorHub.AdharsSensorHub.FuseSample | app/src/main/java/dev/fanfly/apps/vellum/adhars/AdharsSensorHub.kt:215-239 | the fused angles, offsets and flag end as Fuse gives |
| AdharsSensorHub.AdharsSensorHub.PublishRelative | app/src/main/java/dev/fanfly/apps/vellum/adhars/AdharsSensorHub.kt:243-259 | lastKnownPitchRoll and the returned call are those Publish gives for the relative attitude |

## Left out

- Sensor and window plumbing is not modelled: `SensorManager` lookup, `registerListener` and
  `unregisterListener`, and reading `windowManager.defaultDisplay.rotation`. Registration is a boolean, and
  the rotation is a parameter.
- `onAccuracyChanged` is not modelled. Its body is empty.
- Logger calls are not modelled. They have no effect on the state.
- Floating-point rounding is not modelled. Every `Float`/`Double` computation is exact real arithmetic.
  `NS2S` is exactly 1/1e9, and `1 - 0.99f` is exactly 0.01.
- `atan2`, `sqrt`, `sin`, `cos`, `Math.toDegrees` and `Math.toRadians` are opaque parameters. Nothing is
  proved about the accuracy of the angle estimates.
- 64-bit overflow of the `Long` timestamp differences is not modelled.
- A `SensorEvent` is modelled by its first three values. With fewer than three, `arraycopy` would throw.
- The proto builder `adharsData { }` is the `PitchRoll` datatype.
- Concurrency is not modelled. The Kotlin code has no locking between the location callback and the
  sensor callback, and the model runs every call sequentially.
- The listener is a token, and its `onDataUpdate` call is a returned value. What the listener does with
  the data is not modelled.
- `previousAccelZ` is kept as state but nothing in the hub reads it.
- The rest of the app is not part of this model: the location provider, the view model, the Compose
  drawing code, the log repository, navigation and the build setup.
