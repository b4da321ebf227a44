/** Sequences of calls into the hub: the invariant every operation keeps, and
    what a run of inputs may and may not deliver to the listener. */
module AdharsTraces {
  import opened ScreenRotation
  import opened AdharsState

  /** One call into the hub, from the application or from a callback. */
  datatype HubInput =
    | Start(listener: ListenerToken)
    | Stop
    | Recalibrate
    | Location(location: Option<LocationFix>)
    | Sensor(event: SensorEvent, rotation: int)

  function Step(s: HubState, input: HubInput, t: Trig): Outcome {
    match input
    case Start(l) => Outcome(StartListening(s, l), None)
    case Stop => Outcome(StopListening(s), None)
    case Recalibrate => Outcome(Calibrate(s), None)
    case Location(location) => Outcome(OnLocationUpdate(s, location, t), None)
    case Sensor(event, rotation) => OnSensorChanged(s, event, rotation, t)
  }

  /** The state after a run of inputs and the listener calls made, in order. */
  datatype Trace = Trace(state: HubState, calls: seq<Call>)

  function CallsOf(o: Outcome): seq<Call> {
    if o.call.Some? then [o.call.value] else []
  }

  function Run(s: HubState, inputs: seq<HubInput>, t: Trig): Trace
    decreases |inputs|
  {
    if inputs == [] then Trace(s, [])
    else
      var o := Step(s, inputs[0], t);
      var rest := Run(o.state, inputs[1..], t);
      Trace(rest.state, CallsOf(o) + rest.calls)
  }

  /** What holds of every state the hub can reach:
      - GPS never estimates vertical acceleration, so gravityZ is accelData[2];
      - a listener is stored exactly while the sensors are registered;
      - nothing has been published since the last reset until the offset is set;
      - the last published pair is within the output thresholds of the
        current relative attitude on both axes. */
  ghost predicate Inv(s: HubState) {
    s.estimatedLinearAccel.z == 0.0
    && (s.listener.Some? <==> s.registered)
    && (!s.isZeroPositionSet ==> s.lastKnownPitchRoll.None?)
    && (s.lastKnownPitchRoll.Some? ==>
          Abs(s.lastKnownPitchRoll.value.pitch - Relative(s).pitch) <= MIN_PITCH_UPDATE_DEGREE
          && Abs(s.lastKnownPitchRoll.value.roll - Relative(s).roll) <= MIN_ROLL_UPDATE_DEGREE)
  }

  lemma InitialInv()
    ensures Inv(Initial)
  {
  }

  lemma InvGravityZ(s: HubState)
    requires Inv(s)
    ensures Gravity(s).z == s.accelData.z
  {
  }

  /** A fused event leaves the relative attitude and the published pair within
      the thresholds, whether or not the gate opened. */
  lemma FuseEventKeepsInv(c: HubState, event: SensorEvent, rotation: int, t: Trig)
    requires Inv(c)
    ensures Inv(FuseEvent(c, event, rotation, t).state)
  {
    var f := FusedState(c, event, rotation, t);
    if !ShouldPublish(f.lastKnownPitchRoll, Relative(f)) {
      GateShutMeansClose(f.lastKnownPitchRoll.value, Relative(f));
    }
  }

  lemma SensorKeepsInv(s: HubState, event: SensorEvent, rotation: int, t: Trig)
    requires Inv(s)
    ensures Inv(OnSensorChanged(s, event, rotation, t).state)
  {
    if KnownSensor(event.sensorType) {
      var c := CacheSample(s, event);
      assert Inv(c);
      if c.lastTimestamp != 0 {
        FuseEventKeepsInv(c, event, rotation, t);
      }
    }
  }

  lemma LocationKeepsInv(s: HubState, location: Option<LocationFix>, t: Trig)
    requires Inv(s)
    ensures Inv(OnLocationUpdate(s, location, t))
  {
    LocationTouchesOnlyGpsFields(s, location, t);
  }

  lemma StepKeepsInv(s: HubState, input: HubInput, t: Trig)
    requires Inv(s)
    ensures Inv(Step(s, input, t).state)
  {
    match input
    case Sensor(event, rotation) => SensorKeepsInv(s, event, rotation, t);
    case Location(location) => LocationKeepsInv(s, location, t);
    case _ =>
  }

  lemma {:induction false} RunKeepsInv(s: HubState, inputs: seq<HubInput>, t: Trig)
    requires Inv(s)
    ensures Inv(Run(s, inputs, t).state)
    decreases |inputs|
  {
    if inputs != [] {
      StepKeepsInv(s, inputs[0], t);
      RunKeepsInv(Step(s, inputs[0], t).state, inputs[1..], t);
    }
  }

  /** Every state reachable from construction satisfies the invariant. */
  lemma ReachableInv(inputs: seq<HubInput>, t: Trig)
    ensures Inv(Run(Initial, inputs, t).state)
  {
    InitialInv();
    RunKeepsInv(Initial, inputs, t);
  }

  /** A call is made only to the stored listener, only once the zero
      position is set, and always with the pair the hub now records. */
  lemma StepCall(s: HubState, input: HubInput, t: Trig)
    requires Inv(s)
    ensures var o := Step(s, input, t);
      o.call.Some? ==>
        input.Sensor? && s.listener == Some(o.call.value.listener) && s.registered
        && o.state.isZeroPositionSet
        && o.state.lastKnownPitchRoll == Some(o.call.value.data)
  {
  }

  predicate NoStart(inputs: seq<HubInput>) {
    forall i :: 0 <= i < |inputs| ==> !inputs[i].Start?
  }

  /** With no listener stored and no startListening in the run, the run makes
      no listener call at all; in particular nothing is delivered after
      stopListening until the next startListening. */
  lemma {:induction false} NoCallsWithoutListener(s: HubState, inputs: seq<HubInput>, t: Trig)
    requires s.listener.None? && NoStart(inputs)
    ensures Run(s, inputs, t).calls == []
    ensures Run(s, inputs, t).state.listener.None?
    decreases |inputs|
  {
    if inputs != [] {
      var o := Step(s, inputs[0], t);
      assert o.call.None? && o.state.listener.None?;
      assert NoStart(inputs[1..]) by {
        forall i | 0 <= i < |inputs[1..]| ensures !inputs[1..][i].Start? {
          assert inputs[1..][i] == inputs[i + 1];
        }
      }
      NoCallsWithoutListener(o.state, inputs[1..], t);
    }
  }

  lemma NoCallsAfterStop(s: HubState, inputs: seq<HubInput>, t: Trig)
    requires NoStart(inputs)
    ensures Run(s, [Stop] + inputs, t).calls == []
  {
    assert ([Stop] + inputs)[1..] == inputs;
    NoCallsWithoutListener(StopListening(s), inputs, t);
  }

  /** The first fused event after a reset publishes exactly (0, 0). */
  lemma BootstrapPublishesZero(c: HubState, event: SensorEvent, rotation: int, t: Trig)
    requires !c.isZeroPositionSet && c.lastKnownPitchRoll.None?
    ensures var o := FuseEvent(c, event, rotation, t);
      o.call == (if c.listener.Some? then Some(Call(c.listener.value, PitchRoll(0.0, 0.0))) else None)
      && o.state.isZeroPositionSet
      && o.state.lastKnownPitchRoll == Some(PitchRoll(0.0, 0.0))
  {
  }

  /** After calibrate(), a first motion event with a nonzero timestamp only
      sets the baseline. */
  lemma BaselineAfterCalibrate(s: HubState, event: SensorEvent, rotation: int, t: Trig)
    requires KnownSensor(event.sensorType) && event.timestamp != 0
    ensures var o := OnSensorChanged(Calibrate(s), event, rotation, t);
      o.call == None && o.state.lastTimestamp != 0 && o.state.listener == s.listener
      && !o.state.isZeroPositionSet && o.state.lastKnownPitchRoll.None?
  {
    assert CacheSample(Calibrate(s), event).lastTimestamp == 0;
  }

  /** The first fused event since the reset publishes (0, 0). */
  lemma FirstFusedEventZero(s: HubState, event: SensorEvent, rotation: int, t: Trig)
    requires KnownSensor(event.sensorType) && s.lastTimestamp != 0
    requires !s.isZeroPositionSet && s.lastKnownPitchRoll.None?
    ensures var o := OnSensorChanged(s, event, rotation, t);
      o.call == (if s.listener.Some? then Some(Call(s.listener.value, PitchRoll(0.0, 0.0))) else None)
      && o.state.isZeroPositionSet
      && o.state.lastKnownPitchRoll == Some(PitchRoll(0.0, 0.0))
  {
    var c := CacheSample(s, event);
    assert OnSensorChanged(s, event, rotation, t) == FuseEvent(c, event, rotation, t);
    BootstrapPublishesZero(c, event, rotation, t);
  }

  /** Calibration zeroing: after calibrate(), the first accepted motion event
      only sets the baseline, and the next one publishes exactly (0, 0) to the
      listener, whatever the attitude and the readings. */
  lemma CalibrationZeroing(s: HubState, e1: SensorEvent, r1: int, e2: SensorEvent, r2: int, t: Trig)
    requires KnownSensor(e1.sensorType) && KnownSensor(e2.sensorType) && e1.timestamp != 0
    ensures var o1 := OnSensorChanged(Calibrate(s), e1, r1, t);
      var o2 := OnSensorChanged(o1.state, e2, r2, t);
      o1.call == None
      && o2.call == (if s.listener.Some? then Some(Call(s.listener.value, PitchRoll(0.0, 0.0))) else None)
      && o2.state.isZeroPositionSet
      && o2.state.lastKnownPitchRoll == Some(PitchRoll(0.0, 0.0))
  {
    BaselineAfterCalibrate(s, e1, r1, t);
    FirstFusedEventZero(OnSensorChanged(Calibrate(s), e1, r1, t).state, e2, r2, t);
  }
}
