/** The state of the attitude-estimation hub as a value, and the effect of each
    of its operations on that value. The class in module AdharsSensorHub is
    proved to follow these functions; the lemmas here state what the
    operations promise. */
module AdharsState {
  import opened ScreenRotation

  datatype Option<T> = None | Some(value: T)

  // Companion constants of the hub.
  const COMPLEMENTARY_FILTER_ALPHA: real := 0.99
  const GIMBAL_LOCK_PITCH_THRESHOLD_DEGREES: real := 85.0
  const MIN_PITCH_UPDATE_DEGREE: real := 0.25
  const MIN_ROLL_UPDATE_DEGREE: real := 0.25
  /** Nanoseconds per second (the Kotlin hub multiplies by NS2S = 1 / 1e9). */
  const NANOS_PER_SECOND: real := 1000000000.0
  /** Milliseconds per second (location fix times are in milliseconds). */
  const MILLIS_PER_SECOND: real := 1000.0

  // Android sensor type codes.
  const TYPE_ACCELEROMETER: int := 1
  const TYPE_GYROSCOPE: int := 4

  /** A three-component FloatArray, as a value. */
  datatype Vec3 = Vec3(x: real, y: real, z: real)
  const Zero3: Vec3 := Vec3(0.0, 0.0, 0.0)

  /** The pitch/roll pair the hub publishes (the Kotlin hub's AdharsData message). */
  datatype PitchRoll = PitchRoll(pitch: real, roll: real)

  /** Identifies the registered listener. */
  type ListenerToken = nat

  /** One call of the listener's onDataUpdate. */
  datatype Call = Call(listener: ListenerToken, data: PitchRoll)

  /** A motion sample: Android's sensor type code, the first three values and
      the timestamp in nanoseconds. */
  datatype SensorEvent = SensorEvent(sensorType: int, values: Vec3, timestamp: int)

  /** A location fix: time in milliseconds, speed in m/s, bearing in degrees. */
  datatype LocationFix = LocationFix(time: int, speed: real, bearing: real)

  /** The numeric library the hub calls and this model does not interpret:
      kotlin.math atan2, sqrt, sin, cos and Math.toDegrees / toRadians. */
  datatype Trig = Trig(
    atan2: (real, real) -> real,
    sqrt: real -> real,
    sin: real -> real,
    cos: real -> real,
    toDegrees: real -> real,
    toRadians: real -> real)

  /** Every field of the hub, plus whether its sensors are registered with the
      sensor manager. */
  datatype HubState = HubState(
    accelData: Vec3,
    gyroData: Vec3,
    fusedPitch: real,
    fusedRoll: real,
    listener: Option<ListenerToken>,
    pitchOffset: real,
    rollOffset: real,
    isZeroPositionSet: bool,
    lastKnownPitchRoll: Option<PitchRoll>,
    lastTimestamp: int,
    estimatedLinearAccel: Vec3,
    currentVelocity: Vec3,
    lastLocationTimestamp: int,
    previousAccelZ: real,
    registered: bool)

  function Abs(x: real): real {
    if x < 0.0 then -x else x
  }

  /** The state a freshly constructed hub starts in. */
  const Initial: HubState := HubState(
    Zero3, Zero3, 0.0, 0.0, None, 0.0, 0.0, false, None, 0, Zero3, Zero3, 0, 0.0, false)

  // ---------------------------------------------------------------- lifecycle

  /** calibrate(): every filter field back to zero; listener and registration kept. */
  function Calibrate(s: HubState): HubState {
    s.(accelData := Zero3, gyroData := Zero3,
       estimatedLinearAccel := Zero3, currentVelocity := Zero3,
       lastLocationTimestamp := 0, previousAccelZ := 0.0,
       lastKnownPitchRoll := None, isZeroPositionSet := false,
       fusedPitch := 0.0, fusedRoll := 0.0,
       pitchOffset := 0.0, rollOffset := 0.0,
       lastTimestamp := 0)
  }

  /** startListening(listener): store the listener, calibrate, register. */
  function StartListening(s: HubState, listener: ListenerToken): HubState {
    Calibrate(s.(listener := Some(listener))).(registered := true)
  }

  /** stopListening(): unregister and clear the listener. */
  function StopListening(s: HubState): HubState {
    s.(registered := false, listener := None)
  }

  /** The filter fields, which every lifecycle lemma compares. */
  predicate SameFilterState(a: HubState, b: HubState) {
    a.(listener := None, registered := false) == b.(listener := None, registered := false)
  }

  lemma CalibrateResetsFilterState(s: HubState)
    ensures var r := Calibrate(s);
      r.accelData == r.gyroData == r.estimatedLinearAccel == r.currentVelocity == Zero3
      && r.lastLocationTimestamp == 0 && r.lastTimestamp == 0 && r.previousAccelZ == 0.0
      && r.fusedPitch == r.fusedRoll == r.pitchOffset == r.rollOffset == 0.0
      && !r.isZeroPositionSet && r.lastKnownPitchRoll == None
      && r.listener == s.listener && r.registered == s.registered
    ensures SameFilterState(Calibrate(s), Initial)
  {
  }

  lemma CalibrateIdempotent(s: HubState)
    ensures Calibrate(Calibrate(s)) == Calibrate(s)
  {
  }

  lemma StartListeningResets(s: HubState, listener: ListenerToken)
    ensures StartListening(s, listener).listener == Some(listener)
    ensures StartListening(s, listener).registered
    ensures SameFilterState(StartListening(s, listener), Calibrate(s))
  {
  }

  lemma StopListeningKeepsFilterState(s: HubState)
    ensures StopListening(s).listener == None && !StopListening(s).registered
    ensures SameFilterState(StopListening(s), s)
    ensures StopListening(StopListening(s)) == StopListening(s)
    ensures StopListening(Initial) == Initial
  {
  }

  // ----------------------------------------------------------------- location

  /** The velocity a fix implies: speed resolved along the compass bearing. */
  function FixVelocity(t: Trig, fix: LocationFix): Pair {
    var bearingRad := t.toRadians(fix.bearing);
    Pair(fix.speed * t.sin(bearingRad), fix.speed * t.cos(bearingRad))
  }

  /** Seconds between two fix times in milliseconds. */
  function FixSeconds(time: int, lastTime: int): real {
    (time - lastTime) as real / MILLIS_PER_SECOND
  }

  /** The acceleration that takes velocity previous to current in dt seconds. */
  function FiniteDifference(current: real, previous: real, dt: real): real
    requires dt > 0.0
  {
    (current - previous) / dt
  }

  /** onLocationUpdate(location): finite-difference horizontal acceleration. */
  function OnLocationUpdate(s: HubState, location: Option<LocationFix>, t: Trig): HubState {
    if location.None? then s
    else if s.lastLocationTimestamp == 0 then s.(lastLocationTimestamp := location.value.time)
    else
      var fix := location.value;
      var dt := FixSeconds(fix.time, s.lastLocationTimestamp);
      if dt <= 0.0 then s
      else
        var v := FixVelocity(t, fix);
        var ax := FiniteDifference(v.x, s.currentVelocity.x, dt);
        var ay := FiniteDifference(v.y, s.currentVelocity.y, dt);
        s.(estimatedLinearAccel := s.estimatedLinearAccel.(x := ax, y := ay),
           currentVelocity := s.currentVelocity.(x := v.x, y := v.y),
           lastLocationTimestamp := fix.time)
  }

  /** A fix is differenced against the previous one exactly when it is present,
      there was a previous fix and it is strictly newer. */
  predicate FixAccepted(s: HubState, location: Option<LocationFix>) {
    location.Some? && s.lastLocationTimestamp != 0 && location.value.time > s.lastLocationTimestamp
  }

  lemma LocationRejections(s: HubState, location: Option<LocationFix>, t: Trig)
    ensures location.None? ==> OnLocationUpdate(s, location, t) == s
    ensures location.Some? && s.lastLocationTimestamp == 0 ==>
      OnLocationUpdate(s, location, t) == s.(lastLocationTimestamp := location.value.time)
    ensures location.Some? && s.lastLocationTimestamp != 0 && location.value.time <= s.lastLocationTimestamp ==>
      OnLocationUpdate(s, location, t) == s
  {
  }

  /** An accepted fix: the new velocity is the old one plus acceleration times
      dt on both horizontal axes, the new velocity is the fix's, the time
      advances, and nothing else changes (the z components included). */
  lemma LocationFiniteDifference(s: HubState, fix: LocationFix, t: Trig)
    requires FixAccepted(s, Some(fix))
    ensures var r := OnLocationUpdate(s, Some(fix), t);
      var dt := FixSeconds(fix.time, s.lastLocationTimestamp);
      var v := FixVelocity(t, fix);
      dt > 0.0
      && r.currentVelocity == Vec3(v.x, v.y, s.currentVelocity.z)
      && v.x == s.currentVelocity.x + r.estimatedLinearAccel.x * dt
      && v.y == s.currentVelocity.y + r.estimatedLinearAccel.y * dt
      && r.estimatedLinearAccel.z == s.estimatedLinearAccel.z
      && r.lastLocationTimestamp == fix.time > s.lastLocationTimestamp
      && r == s.(estimatedLinearAccel := r.estimatedLinearAccel,
                 currentVelocity := r.currentVelocity,
                 lastLocationTimestamp := fix.time)
  {
  }

  /** The location path only touches the GPS fields. */
  lemma LocationTouchesOnlyGpsFields(s: HubState, location: Option<LocationFix>, t: Trig)
    ensures var r := OnLocationUpdate(s, location, t);
      r == s.(estimatedLinearAccel := r.estimatedLinearAccel,
              currentVelocity := r.currentVelocity,
              lastLocationTimestamp := r.lastLocationTimestamp)
      && r.estimatedLinearAccel.z == s.estimatedLinearAccel.z
      && r.currentVelocity.z == s.currentVelocity.z
    ensures OnLocationUpdate(s, location, t).lastLocationTimestamp != s.lastLocationTimestamp ==>
      s.lastLocationTimestamp == 0 || FixAccepted(s, location)
  {
  }

  // ------------------------------------------------------------ motion sensors
  // onSensorChanged runs these stages in order: cache the sample, set the
  // baseline (first event only), correct gravity, remap for the screen
  // rotation, compute the tilt angles, fuse, take the relative attitude, and
  // gate and deliver the output.

  predicate KnownSensor(sensorType: int) {
    sensorType == TYPE_ACCELEROMETER || sensorType == TYPE_GYROSCOPE
  }

  /** Cache: copy the event's vector into the cache of its kind. */
  function CacheSample(s: HubState, event: SensorEvent): HubState
    requires KnownSensor(event.sensorType)
  {
    if event.sensorType == TYPE_ACCELEROMETER then s.(accelData := event.values)
    else s.(gyroData := event.values)
  }

  /** Seconds between two motion timestamps in nanoseconds. */
  function MotionSeconds(timestamp: int, lastTimestamp: int): real {
    (timestamp - lastTimestamp) as real / NANOS_PER_SECOND
  }

  /** Gravity correction: the accelerometer vector minus the GPS linear acceleration. */
  function Gravity(s: HubState): Vec3 {
    Vec3(s.accelData.x - s.estimatedLinearAccel.x,
         s.accelData.y - s.estimatedLinearAccel.y,
         s.accelData.z - s.estimatedLinearAccel.z)
  }

  /** Tilt angles from the remapped gravity vector, in degrees. */
  function AccelPitch(t: Trig, a: Pair, gravityZ: real): real {
    t.toDegrees(t.atan2(-a.y, t.sqrt(a.x * a.x + gravityZ * gravityZ)))
  }

  function AccelRoll(t: Trig, a: Pair): real {
    t.toDegrees(t.atan2(a.x, -a.y))
  }

  /** The complementary filter for one angle. */
  function Blend(previous: real, gyroChange: real, accelAngle: real): real {
    COMPLEMENTARY_FILTER_ALPHA * (previous - gyroChange) + (1.0 - COMPLEMENTARY_FILTER_ALPHA) * accelAngle
  }

  /** Fusion: bootstrap from the accelerometer, or fuse with the gimbal-lock guard. */
  function Fuse(s: HubState, accelPitch: real, accelRoll: real, gyroPitchChange: real, gyroRollChange: real): HubState {
    if !s.isZeroPositionSet then
      s.(pitchOffset := accelPitch, rollOffset := accelRoll,
         fusedPitch := accelPitch, fusedRoll := accelRoll,
         isZeroPositionSet := true)
    else
      var pitch := Blend(s.fusedPitch, gyroPitchChange, accelPitch);
      s.(fusedPitch := pitch,
         fusedRoll := if Abs(pitch) < GIMBAL_LOCK_PITCH_THRESHOLD_DEGREES
                      then Blend(s.fusedRoll, gyroRollChange, accelRoll)
                      else s.fusedRoll - gyroRollChange)
  }

  /** Relative attitude: the fused attitude relative to the calibration offset. */
  function Relative(s: HubState): PitchRoll {
    PitchRoll(s.fusedPitch - s.pitchOffset, s.fusedRoll - s.rollOffset)
  }

  /** Gate: the output test, an OR over the two axes. */
  predicate ShouldPublish(last: Option<PitchRoll>, data: PitchRoll) {
    last.None?
    || Abs(last.value.roll - data.roll) > MIN_ROLL_UPDATE_DEGREE
    || Abs(last.value.pitch - data.pitch) > MIN_PITCH_UPDATE_DEGREE
  }

  /** The new state after an event and the listener call it caused, if any. */
  datatype Outcome = Outcome(state: HubState, call: Option<Call>)

  /** Gate and delivery: record and deliver the new pair when the gate opens. */
  function Publish(s: HubState, data: PitchRoll): Outcome {
    if ShouldPublish(s.lastKnownPitchRoll, data) then
      Outcome(s.(lastKnownPitchRoll := Some(data)),
              if s.listener.Some? then Some(Call(s.listener.value, data)) else None)
    else Outcome(s, None)
  }

  /** onSensorChanged(event), with the screen rotation read during the call. */
  function OnSensorChanged(s: HubState, event: SensorEvent, rotation: int, t: Trig): Outcome {
    if !KnownSensor(event.sensorType) then Outcome(s, None)
    else
      var c := CacheSample(s, event);
      if c.lastTimestamp == 0 then Outcome(Baseline(c, event), None)
      else FuseEvent(c, event, rotation, t)
  }

  /** Baseline: the first event after a reset only records the baseline. */
  function Baseline(c: HubState, event: SensorEvent): HubState {
    c.(lastTimestamp := event.timestamp, previousAccelZ := c.accelData.z)
  }

  /** Every stage after the baseline, for an event that has one, on the cached state c. */
  function FuseEvent(c: HubState, event: SensorEvent, rotation: int, t: Trig): Outcome {
    var f := FusedState(c, event, rotation, t);
    Publish(f, Relative(f))
  }

  /** Gravity correction, remap, tilt angles and fusion. */
  function FusedState(c: HubState, event: SensorEvent, rotation: int, t: Trig): HubState {
    var dt := MotionSeconds(event.timestamp, c.lastTimestamp);
    var g := Gravity(c);
    var a := RemapAccel(rotation, Pair(g.x, g.y));
    var gyro := RemapGyro(rotation, Pair(c.gyroData.x, c.gyroData.y));
    Fuse(c.(lastTimestamp := event.timestamp),
         AccelPitch(t, a, g.z), AccelRoll(t, a),
         GyroChange(t, gyro.x, dt), GyroChange(t, gyro.y, dt))
  }

  /** The angle in degrees a gyroscope rate turns through in dt seconds. */
  function GyroChange(t: Trig, rate: real, dt: real): real {
    t.toDegrees(rate * dt)
  }

  /** An event fuses exactly when its kind is known and a baseline timestamp exists. */
  predicate Fuses(s: HubState, event: SensorEvent) {
    KnownSensor(event.sensorType) && s.lastTimestamp != 0
  }

  lemma UnknownSensorIgnored(s: HubState, event: SensorEvent, rotation: int, t: Trig)
    requires !KnownSensor(event.sensorType)
    ensures OnSensorChanged(s, event, rotation, t) == Outcome(s, None)
  {
  }

  /** The motion path never touches the listener, the registration or the GPS
      fields; an event of a known kind always becomes the new baseline
      timestamp; the filter is fused exactly when a baseline existed; and a
      call is made only for a fused event. */
  lemma SensorEventFrame(s: HubState, event: SensorEvent, rotation: int, t: Trig)
    ensures var o := OnSensorChanged(s, event, rotation, t);
      o.state.listener == s.listener && o.state.registered == s.registered
      && o.state.estimatedLinearAccel == s.estimatedLinearAccel
      && o.state.currentVelocity == s.currentVelocity
      && o.state.lastLocationTimestamp == s.lastLocationTimestamp
      && (KnownSensor(event.sensorType) ==> o.state.lastTimestamp == event.timestamp)
      && (o.state.isZeroPositionSet <==> s.isZeroPositionSet || Fuses(s, event))
      && (o.call.Some? ==> Fuses(s, event) && s.listener == Some(o.call.value.listener))
  {
  }

  /** Unlike the location path, the motion path does not reject a
      non-positive dt: an event older than the baseline is still fused, and the
      baseline moves back to its timestamp. */
  lemma StaleMotionEventStillFused(s: HubState, event: SensorEvent, rotation: int, t: Trig)
    requires Fuses(s, event) && event.timestamp <= s.lastTimestamp
    ensures MotionSeconds(event.timestamp, s.lastTimestamp) <= 0.0
    ensures var o := OnSensorChanged(s, event, rotation, t);
      o.state.isZeroPositionSet && o.state.lastTimestamp == event.timestamp
      && o.state == FuseEvent(CacheSample(s, event), event, rotation, t).state
  {
  }

  /** The first accepted event after a reset only fills its cache and the
      baseline: no fusion, no call. */
  lemma FirstEventSetsBaseline(s: HubState, event: SensorEvent, rotation: int, t: Trig)
    requires KnownSensor(event.sensorType) && s.lastTimestamp == 0
    ensures var o := OnSensorChanged(s, event, rotation, t);
      o.call == None
      && o.state == CacheSample(s, event).(lastTimestamp := event.timestamp,
                                           previousAccelZ := o.state.accelData.z)
      && (event.sensorType == TYPE_ACCELEROMETER ==> o.state.accelData == event.values && o.state.gyroData == s.gyroData)
      && (event.sensorType == TYPE_GYROSCOPE ==> o.state.gyroData == event.values && o.state.accelData == s.accelData)
  {
  }

  /** Bootstrap after calibration: offsets and fused angles all take the
      accelerometer angles, so the relative output is exactly (0, 0). */
  lemma BootstrapZeroes(s: HubState, accelPitch: real, accelRoll: real, gyroPitchChange: real, gyroRollChange: real)
    requires !s.isZeroPositionSet
    ensures var f := Fuse(s, accelPitch, accelRoll, gyroPitchChange, gyroRollChange);
      f.isZeroPositionSet
      && f.fusedPitch == f.pitchOffset == accelPitch
      && f.fusedRoll == f.rollOffset == accelRoll
      && Relative(f) == PitchRoll(0.0, 0.0)
  {
  }

  /** Pitch is always blended; roll is blended while |pitch| < 85 and otherwise
      integrated from the gyroscope alone, independently of accelRoll. */
  lemma GimbalLockGuard(s: HubState, accelPitch: real, accelRoll: real, otherAccelRoll: real,
                        gyroPitchChange: real, gyroRollChange: real)
    requires s.isZeroPositionSet
    ensures var f := Fuse(s, accelPitch, accelRoll, gyroPitchChange, gyroRollChange);
      var g := Fuse(s, accelPitch, otherAccelRoll, gyroPitchChange, gyroRollChange);
      f.fusedPitch == 0.99 * (s.fusedPitch - gyroPitchChange) + 0.01 * accelPitch
      && f.pitchOffset == s.pitchOffset && f.rollOffset == s.rollOffset
      && (Abs(f.fusedPitch) >= 85.0 ==> f.fusedRoll == g.fusedRoll == s.fusedRoll - gyroRollChange)
      && (Abs(f.fusedPitch) < 85.0 ==> f.fusedRoll == 0.99 * (s.fusedRoll - gyroRollChange) + 0.01 * accelRoll)
  {
  }

  /** The blend is a convex combination: it lies between the gyro-propagated
      angle and the accelerometer angle, and keeps a common value fixed. */
  lemma BlendBetween(previous: real, gyroChange: real, accelAngle: real)
    ensures var b := Blend(previous, gyroChange, accelAngle);
      var p := previous - gyroChange;
      (p <= accelAngle ==> p <= b <= accelAngle)
      && (accelAngle <= p ==> accelAngle <= b <= p)
      && (p == accelAngle ==> b == accelAngle)
      && b - accelAngle == COMPLEMENTARY_FILTER_ALPHA * (p - accelAngle)
  {
  }

  /** The gate publishes iff there is no previous pair or either axis moved
      by more than 0.25 degrees; a publish always records the pair, and calls
      the listener exactly when there is one. */
  lemma OutputGate(s: HubState, data: PitchRoll)
    ensures var o := Publish(s, data);
      var gateOpens := s.lastKnownPitchRoll.None?
        || Abs(s.lastKnownPitchRoll.value.roll - data.roll) > 0.25
        || Abs(s.lastKnownPitchRoll.value.pitch - data.pitch) > 0.25;
      (gateOpens ==> o.state == s.(lastKnownPitchRoll := Some(data)))
      && (!gateOpens ==> o.state == s)
      && (o.call.Some? <==> gateOpens && s.listener.Some?)
      && (o.call.Some? ==> o.call.value == Call(s.listener.value, data))
  {
  }

  /** When the gate stays shut the recorded pair is within 0.25 degrees of
      the new one on both axes. */
  lemma GateShutMeansClose(last: PitchRoll, data: PitchRoll)
    requires !ShouldPublish(Some(last), data)
    ensures -0.25 <= last.pitch - data.pitch <= 0.25
    ensures -0.25 <= last.roll - data.roll <= 0.25
  {
  }
}
