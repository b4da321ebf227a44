/** The hub itself: the mutable fields and FloatArray buffers of the Kotlin
    class, and its lifecycle, location and sensor callbacks operating on them
    in place. Each operation is proved to move the hub from State() to the
    state the matching function of AdharsState gives. */
module AdharsSensorHub {
  import opened ScreenRotation
  import opened AdharsState

  class AdharsSensorHub {
    const accelData: array<real>
    const gyroData: array<real>
    var fusedPitch: real
    var fusedRoll: real
    var sensorUpdateListener: Option<ListenerToken>
    var pitchOffset: real
    var rollOffset: real
    var isZeroPositionSet: bool
    var lastKnownPitchRoll: Option<PitchRoll>
    var lastTimestamp: int
    const estimatedLinearAccel: array<real>
    const currentVelocity: array<real>
    var lastLocationTimestamp: int
    var previousAccelZ: real
    /** Whether this hub is registered with the sensor manager. */
    var registered: bool

    /** The four buffers hold three values each and do not alias. */
    ghost predicate Valid()
      reads this
    {
      accelData.Length == 3 && gyroData.Length == 3
      && estimatedLinearAccel.Length == 3 && currentVelocity.Length == 3
      && accelData != gyroData && accelData != estimatedLinearAccel && accelData != currentVelocity
      && gyroData != estimatedLinearAccel && gyroData != currentVelocity
      && estimatedLinearAccel != currentVelocity
    }

    static ghost function Vec(a: array<real>): Vec3
      reads a
      requires a.Length == 3
    {
      Vec3(a[0], a[1], a[2])
    }

    /** The hub's fields as one value. */
    ghost function State(): HubState
      reads this, accelData, gyroData, estimatedLinearAccel, currentVelocity
      requires Valid()
    {
      HubState(Vec(accelData), Vec(gyroData), fusedPitch, fusedRoll, sensorUpdateListener,
               pitchOffset, rollOffset, isZeroPositionSet, lastKnownPitchRoll, lastTimestamp,
               Vec(estimatedLinearAccel), Vec(currentVelocity), lastLocationTimestamp,
               previousAccelZ, registered)
    }

    constructor ()
      ensures Valid() && State() == Initial
      ensures fresh(accelData) && fresh(gyroData) && fresh(estimatedLinearAccel) && fresh(currentVelocity)
    {
      accelData := new real[3](_ => 0.0);
      gyroData := new real[3](_ => 0.0);
      estimatedLinearAccel := new real[3](_ => 0.0);
      currentVelocity := new real[3](_ => 0.0);
      fusedPitch, fusedRoll := 0.0, 0.0;
      sensorUpdateListener := None;
      pitchOffset, rollOffset := 0.0, 0.0;
      isZeroPositionSet := false;
      lastKnownPitchRoll := None;
      lastTimestamp := 0;
      lastLocationTimestamp := 0;
      previousAccelZ := 0.0;
      registered := false;
    }

    method StartListening(listener: ListenerToken)
      requires Valid()
      modifies this, accelData, gyroData, estimatedLinearAccel, currentVelocity
      ensures Valid() && State() == AdharsState.StartListening(old(State()), listener)
    {
      sensorUpdateListener := Some(listener);
      Calibrate();
      registered := true;
    }

    method StopListening()
      requires Valid()
      modifies this
      ensures Valid() && State() == AdharsState.StopListening(old(State()))
    {
      registered := false;
      sensorUpdateListener := None;
    }

    /** The four FloatArray.fill(0f) calls of calibrate(). */
    method ResetBuffers()
      requires Valid()
      modifies accelData, gyroData, estimatedLinearAccel, currentVelocity
      ensures Vec(accelData) == Zero3 && Vec(gyroData) == Zero3
      ensures Vec(estimatedLinearAccel) == Zero3 && Vec(currentVelocity) == Zero3
    {
      accelData[0], accelData[1], accelData[2] := 0.0, 0.0, 0.0;
      gyroData[0], gyroData[1], gyroData[2] := 0.0, 0.0, 0.0;
      estimatedLinearAccel[0], estimatedLinearAccel[1], estimatedLinearAccel[2] := 0.0, 0.0, 0.0;
      currentVelocity[0], currentVelocity[1], currentVelocity[2] := 0.0, 0.0, 0.0;
    }

    method Calibrate()
      requires Valid()
      modifies this, accelData, gyroData, estimatedLinearAccel, currentVelocity
      ensures Valid() && State() == AdharsState.Calibrate(old(State()))
    {
      ResetBuffers();
      lastLocationTimestamp := 0;
      previousAccelZ := 0.0;
      lastKnownPitchRoll := None;
      isZeroPositionSet := false;
      fusedPitch := 0.0;
      fusedRoll := 0.0;
      pitchOffset := 0.0;
      rollOffset := 0.0;
      lastTimestamp := 0;
    }

    method OnLocationUpdate(location: Option<LocationFix>, t: Trig)
      requires Valid()
      modifies this, estimatedLinearAccel, currentVelocity
      ensures Valid() && State() == AdharsState.OnLocationUpdate(old(State()), location, t)
    {
      if location.None? {
        return;
      }
      if lastLocationTimestamp == 0 {
        lastLocationTimestamp := location.value.time;
        return;
      }
      var dt := FixSeconds(location.value.time, lastLocationTimestamp);
      if dt <= 0.0 {
        return;
      }
      var v := FixVelocity(t, location.value);
      var ax := FiniteDifference(v.x, currentVelocity[0], dt);
      var ay := FiniteDifference(v.y, currentVelocity[1], dt);
      estimatedLinearAccel[0] := ax;
      estimatedLinearAccel[1] := ay;
      currentVelocity[0] := v.x;
      currentVelocity[1] := v.y;
      lastLocationTimestamp := location.value.time;
    }

    /** Handles one motion event with the screen rotation read for it; returns
        the listener call made, if any. */
    method OnSensorChanged(event: SensorEvent, rotation: int, t: Trig) returns (call: Option<Call>)
      requires Valid()
      modifies this, accelData, gyroData
      ensures Valid() && Outcome(State(), call) == AdharsState.OnSensorChanged(old(State()), event, rotation, t)
    {
      call := None;
      if event.sensorType == TYPE_ACCELEROMETER {
        accelData[0], accelData[1], accelData[2] := event.values.x, event.values.y, event.values.z;
      } else if event.sensorType == TYPE_GYROSCOPE {
        gyroData[0], gyroData[1], gyroData[2] := event.values.x, event.values.y, event.values.z;
      } else {
        return;
      }
      ghost var cached := State();
      assert cached == CacheSample(old(State()), event);

      if lastTimestamp == 0 {
        lastTimestamp := event.timestamp;
        previousAccelZ := accelData[2];
        return;
      }
      var dt := MotionSeconds(event.timestamp, lastTimestamp);
      lastTimestamp := event.timestamp;

      var gravityX := accelData[0] - estimatedLinearAccel[0];
      var gravityY := accelData[1] - estimatedLinearAccel[1];
      var gravityZ := accelData[2] - estimatedLinearAccel[2];
      assert Vec3(gravityX, gravityY, gravityZ) == Gravity(cached);

      var remappedA := RemapAccel(rotation, Pair(gravityX, gravityY));
      var remappedG := RemapGyro(rotation, Pair(gyroData[0], gyroData[1]));
      var accelPitch := AccelPitch(t, remappedA, gravityZ);
      var accelRoll := AccelRoll(t, remappedA);

      assert Pair(gyroData[0], gyroData[1]) == Pair(cached.gyroData.x, cached.gyroData.y);
      assert dt == MotionSeconds(event.timestamp, cached.lastTimestamp);
      ghost var fused := Fuse(cached.(lastTimestamp := event.timestamp), accelPitch, accelRoll,
                              GyroChange(t, remappedG.x, dt), GyroChange(t, remappedG.y, dt));
      assert fused == FusedState(cached, event, rotation, t);
      FuseSample(accelPitch, accelRoll, GyroChange(t, remappedG.x, dt), GyroChange(t, remappedG.y, dt));
      assert State() == fused;
      call := PublishRelative();
    }

    /** The fusion stage of onSensorChanged: bootstrap or complementary filter. */
    method FuseSample(accelPitch: real, accelRoll: real, gyroPitchChange: real, gyroRollChange: real)
      requires Valid()
      modifies this
      ensures Valid() && State() == Fuse(old(State()), accelPitch, accelRoll, gyroPitchChange, gyroRollChange)
    {
      if !isZeroPositionSet {
        pitchOffset := accelPitch;
        rollOffset := accelRoll;
        fusedPitch := accelPitch;
        fusedRoll := accelRoll;
        isZeroPositionSet := true;
      } else {
        fusedPitch := Blend(fusedPitch, gyroPitchChange, accelPitch);
        if Abs(fusedPitch) < GIMBAL_LOCK_PITCH_THRESHOLD_DEGREES {
          fusedRoll := Blend(fusedRoll, gyroRollChange, accelRoll);
        } else {
          fusedRoll := fusedRoll - gyroRollChange;
        }
      }
    }

    /** The last stages of onSensorChanged: relative attitude, gate, listener call. */
    method PublishRelative() returns (call: Option<Call>)
      requires Valid()
      modifies this
      ensures Valid() && Outcome(State(), call) == Publish(old(State()), Relative(old(State())))
    {
      call := None;
      var newData := PitchRoll(fusedPitch - pitchOffset, fusedRoll - rollOffset);
      var oldData := lastKnownPitchRoll;
      if oldData.None? || Abs(oldData.value.roll - newData.roll) > MIN_ROLL_UPDATE_DEGREE
         || Abs(oldData.value.pitch - newData.pitch) > MIN_PITCH_UPDATE_DEGREE
      {
        if sensorUpdateListener.Some? {
          call := Some(Call(sensorUpdateListener.value, newData));
        }
        lastKnownPitchRoll := Some(newData);
      }
    }
  }
}
