/** A stop is reached within a fixed number of messages and then held. */
module Stopping {
  import opened Numeric
  import opened Quaternions
  import opened Splines
  import opened Messages
  import opened Interpolation
  import opened Machine
  import opened Soundness

  /** Messages needed in the worst case: one to leave the running stage, one to start the ramp, 250
      samples of at least 4 ms for the ramp's 1 s, and one to report it finished. */
  const STOP_MESSAGES: nat := 253

  /** The joints of a reference have one velocity and one acceleration per position, and all fit
      the spline array. */
  predicate ShapedJoints(j: JointGoal) { |j.velocity| == |j.position| && |j.acceleration| == |j.position| }

  predicate Shaped(r: Reference) {
    && ShapedJoints(r.joints) && ShapedJoints(r.external)
    && |r.joints.position| + |r.external.position| <= SPLINES
  }

  predicate Still(j: JointGoal) {
    && (forall i :: 0 <= i < |j.velocity| ==> j.velocity[i] == 0.0)
    && (forall i :: 0 <= i < |j.acceleration| ==> j.acceleration[i] == 0.0)
  }

  /** Everything the ramp of the given mode controls is at rest. */
  predicate Halted(r: Reference, mode: Mode) {
    && Still(r.external)
    && (mode.JointMode? ==> Still(r.joints))
    && (mode.PoseMode? ==> r.linear == ZERO3 && r.acceleration == ZERO3)
  }

  predicate StopsAt(p: Polynomial, T: real) { p.Velocity(T) == 0.0 && p.Acceleration(T) == 0.0 }

  predicate StopsRange(splines: seq<Polynomial>, lo: int, hi: int, T: real) {
    forall k :: lo <= k < hi ==> StopsAt(PolynomialAt(splines, k), T)
  }

  /** Every polynomial in use ends at rest. */
  predicate StopsAll(ip: Interpolator, r: Reference) {
    var T := ip.conditions.duration;
    && StopsRange(ip.splines, ip.offset, ip.offset + |r.external.position|, T)
    && StopsRange(ip.splines, 0, if ip.conditions.mode.JointMode? then |r.joints.position| else 3, T)
  }

  // ---------------------------------------------------------------- The fit of a stop

  predicate StopConditions(c: Conditions) {
    c.operation == RampDownOp && c.duration == RAMP_DOWN_STOP_DURATION && c.rampDownFactor == 0.0
  }

  lemma AxisStops(c: Conditions, s: Boundary)
    requires StopConditions(c)
    ensures StopsAt(AxisFit(c, s), RAMP_DOWN_STOP_DURATION)
  {
    RampDownEnd(s, RAMP_DOWN_STOP_DURATION, c.rampDownFactor);
    hide RampDownFit, Polynomial.Velocity, Polynomial.Acceleration;
  }

  /** Fitting a stop leaves every axis in use with a polynomial that ends at rest. */
  lemma StopFit(ip: Interpolator, start: Reference, goal: Reference, c: Conditions)
    requires |ip.splines| == SPLINES && Shaped(start) && StopConditions(c)
    ensures StopsAll(Updated(ip, start, goal, c), start)
  {
    hide AxisFit, StopsAt;
    var ip' := Updated(ip, start, goal, c);
    var robot := |start.joints.position|;
    forall k | 0 <= k < SPLINES
        && (k < (if c.mode.JointMode? then robot else 3) || robot <= k < robot + |start.external.position|)
      ensures StopsAt(PolynomialAt(ip'.splines, k), RAMP_DOWN_STOP_DURATION)
    {
      AxisStops(c, JointBoundary(start.external, goal.external, k - robot));
      AxisStops(c, JointBoundary(start.joints, goal.joints, k));
      AxisStops(c, CartesianBoundary(start, goal, k));
    }
  }

  // ---------------------------------------------------------------- Evaluating past the end

  /** Past the end of its duration a spline goal has constant joint values, and a stop none but zero
      rates. */
  predicate Settled(ip: Interpolator, r: Reference) {
    var T := ip.conditions.duration;
    && r.external == SplineJoints(ip.splines, ip.offset, r.external, T)
    && (ip.conditions.mode.JointMode? ==> r.joints == SplineJoints(ip.splines, 0, r.joints, T))
    && (ip.conditions.mode.PoseMode? ==> SplineCartesian(ip.splines, r, T) == r)
  }

  lemma SplineJointsStop(splines: seq<Polynomial>, base: int, j: JointGoal, T: real)
    requires ShapedJoints(j) && |j.position| <= |splines| && StopsRange(splines, base, base + |j.position|, T)
    ensures var j' := SplineJoints(splines, base, j, T);
            Still(j') && SplineJoints(splines, base, j', T) == j'
  {
    hide Polynomial.Position, Polynomial.Velocity, Polynomial.Acceleration;
    var j' := SplineJoints(splines, base, j, T);
    forall i | 0 <= i < |j.position|
      ensures j'.velocity[i] == 0.0 && j'.acceleration[i] == 0.0
    {
      assert StopsAt(PolynomialAt(splines, base + i), T);
    }
  }

  lemma SplineCartesianStop(splines: seq<Polynomial>, r: Reference, T: real)
    requires StopsRange(splines, 0, 3, T)
    ensures var r' := SplineCartesian(splines, r, T);
            r'.linear == ZERO3 && r'.acceleration == ZERO3 && SplineCartesian(splines, r', T) == r'
  {
    hide Polynomial.Position, Polynomial.Velocity, Polynomial.Acceleration;
    assert StopsAt(PolynomialAt(splines, 0), T);
    assert StopsAt(PolynomialAt(splines, 1), T);
    assert StopsAt(PolynomialAt(splines, 2), T);
  }

  /** Orientation does not affect what the position splines write. */
  lemma OrientedKeeps(k: Maths, ip: Interpolator, out: Reference, dt: real, t: real)
    requires ip.conditions.operation == RampDownOp && ip.ramp.operation == RampDownOp
    ensures var r := Oriented(k, ip, out, dt, t);
            r == out.(quaternion := r.quaternion, angular := r.angular)
  {
  }

  /** In pose mode the rotation stops too, and does so for every ramp down, even one that only halves
      the other rates; from then on the orientation is merely normalised again. */
  lemma OrientationStops(k: Maths, ip: Interpolator, start: Reference, goal: Reference, c: Conditions, out: Reference,
                         dt: real, time: real)
    requires c.operation == RampDownOp && c.mode.PoseMode? && c.duration >= LOWEST_SAMPLE_TIME && time >= c.duration
    requires k.RampEndpoints()
    ensures var r := Evaluated(k, Updated(ip, start, goal, c), out, dt, time);
            r.angular == ZERO3 && r.quaternion == Normalize(k, out.quaternion)
  {
    hide SplineJoints, PolynomialAt, Normalize, Advance, Slot, Maths.RampOut, Scale3, Progress, Maths.RampEndpoints;
    var ip' := Updated(ip, start, goal, c);
    assert ip'.ramp.operation == RampDownOp && ip'.ramp.duration == c.duration == ip'.conditions.duration;
    RampIsOver(k, c.duration, ip'.ramp.angular);
    NoRotation(k, out.quaternion, dt);
  }

  lemma RampIsOver(k: Maths, d: real, v: Vec3)
    requires d > 0.0 && k.RampEndpoints()
    ensures Scale3(k.RampOut(Progress(d, d)), v) == ZERO3
  {
    assert d / d == 1.0;
    assert k.RampOut(Progress(d, d)) == 0.0;
  }

  lemma NoRotation(k: Maths, q: Quaternion, dt: real)
    ensures Advance(k, q, q, ZERO3, dt) == q
  {
    hide Multiply, Times, Scale3;
    NothingScaled(k.degToRad);
    NothingTimes(q, 0.5, dt);
  }

  lemma NothingScaled(a: real)
    ensures Scale3(a, ZERO3) == ZERO3
  {
  }

  lemma NothingTimes(q: Quaternion, a: real, b: real)
    ensures Multiply(NO_ROTATION, q) == NO_ROTATION && Times(NO_ROTATION, a) == NO_ROTATION
            && Times(NO_ROTATION, b) == NO_ROTATION
  {
  }

  predicate RampReady(ip: Interpolator) {
    ip.conditions.operation == RampDownOp && (ip.conditions.mode.PoseMode? ==> ip.ramp.operation == RampDownOp)
  }

  lemma StopEvaluation(k: Maths, ip: Interpolator, out: Reference, dt: real, time: real)
    requires |ip.splines| == SPLINES && Shaped(out) && StopsAll(ip, out) && RampReady(ip)
    requires time >= ip.conditions.duration >= 0.0
    ensures var r := Evaluated(k, ip, out, dt, time);
            Halted(r, ip.conditions.mode) && Settled(ip, r) && StopsAll(ip, r) && Shaped(r)
  {
    hide Polynomial.Position, Polynomial.Velocity, Polynomial.Acceleration, StopsAt, Oriented;
    var T := ip.conditions.duration;
    SplineJointsStop(ip.splines, ip.offset, out.external, T);
    if ip.conditions.mode.JointMode? {
      SplineJointsStop(ip.splines, 0, out.joints, T);
    } else {
      SplineCartesianStop(ip.splines, out, T);
      OrientedKeeps(k, ip, SplineCartesian(ip.splines, out, T), dt, T);
    }
  }

  // ---------------------------------------------------------------- Emitting

  /** Outside the normal state the controller leaves the references alone. */
  lemma NoFade(k: Maths, c: Controller, out: Output, s: MotionStep)
    requires !c.normal
    ensures FadedReferences(k, c, out, s) == s.references
  {
    var r, f, i0 := s.references, s.feedback, c.initial;
    var a, b := FadeOut(k, s), FadeIn(k, s);
    hide FadeOut, FadeIn;
    assert FadedJoints(out.external.velocity, r.external.velocity, f.external.velocity, i0.external.velocity, false,
        c.linear, a, b)
        == r.external.velocity;
    assert FadedJoints(out.joints.velocity, r.joints.velocity, f.joints.velocity, i0.joints.velocity, false, c.linear,
        a, b)
        == r.joints.velocity;
  }

  lemma FadeLengths(k: Maths, c: Controller, out: Output, s: MotionStep)
    ensures var r := FadedReferences(k, c, out, s);
            && |r.joints.position| == |s.references.joints.position|
               && |r.joints.velocity| == |s.references.joints.velocity|
            && |r.joints.acceleration| == |s.references.joints.acceleration|
            && |r.external.position| == |s.references.external.position|
            && |r.external.velocity| == |s.references.external.velocity|
            && |r.external.acceleration| == |s.references.external.acceleration|
  {
    hide FadeOut, FadeIn, Faded, Faded3;
  }

  /** Emitting keeps the shape of the references. */
  lemma EmitShaped(k: Maths, m: Motion)
    requires Shaped(m.step.references)
    ensures Shaped(Emit(k, m).step.references)
    ensures |Emit(k, m).step.references.external.position| == |m.step.references.external.position|
    ensures |Emit(k, m).step.references.joints.position| == |m.step.references.joints.position|
  {
    hide Evaluated, FadedReferences, FollowedOutputs;
    if m.hasActive {
      EvaluatedLengths(k, m.step.interpolator, m.step.references, m.step.sampleTime,
          m.step.timePassed + m.step.sampleTime);
      FadeLengths(k, m.controller, m.outputs, EvaluateInterpolator(k, m.step));
    }
  }

  /** A stopping ramp is fitted and in control. */
  predicate Ramping(m: Motion) {
    && m.hasActive && !m.controller.normal
    && |m.step.interpolator.splines| == SPLINES && Shaped(m.step.references)
    && RampReady(m.step.interpolator) && m.step.interpolator.conditions.duration == RAMP_DOWN_STOP_DURATION
    && StopsAll(m.step.interpolator, m.step.references)
  }

  /** The ramp is over: everything is at rest and stays where it is. */
  predicate AtRestNow(m: Motion) {
    && Ramping(m) && m.step.timePassed >= RAMP_DOWN_STOP_DURATION
    && Halted(m.step.references, m.step.interpolator.conditions.mode)
    && Settled(m.step.interpolator, m.step.references)
  }

  lemma RampEmit(k: Maths, m: Motion)
    requires Ramping(m)
    ensures var m' := Emit(k, m);
            && m' == m.(step := m'.step, outputs := m'.outputs)
            && m'.step == m.step.(timePassed := m.step.timePassed + m.step.sampleTime, references := m'.step.references)
            && Ramping(m')
            && (m.step.timePassed + m.step.sampleTime >= RAMP_DOWN_STOP_DURATION ==> AtRestNow(m'))
  {
    hide Evaluated, FadedReferences, FollowedOutputs, StopsAt, Settled, Halted;
    var s := EvaluateInterpolator(k, m.step);
    EmitShaped(k, m);
    NoFade(k, m.controller, m.outputs, s);
    if m.step.timePassed + m.step.sampleTime >= RAMP_DOWN_STOP_DURATION {
      StopEvaluation(k, m.step.interpolator, m.step.references, m.step.sampleTime,
          m.step.timePassed + m.step.sampleTime);
    }
  }

  /** Evaluated again past its end, a settled stop gives the same joints. */
  lemma SettledStays(k: Maths, ip: Interpolator, r: Reference, dt: real, time: real)
    requires Settled(ip, r) && RampReady(ip) && time >= ip.conditions.duration >= 0.0
    ensures var r' := Evaluated(k, ip, r, dt, time);
            r' == r.(quaternion := r'.quaternion, angular := r'.angular)
  {
    hide Polynomial.Position, Polynomial.Velocity, Polynomial.Acceleration, Oriented, SplineJoints, SplineCartesian;
    if ip.conditions.mode.PoseMode? {
      OrientedKeeps(k, ip, r, dt, ip.conditions.duration);
    }
  }

  // ---------------------------------------------------------------- Braking

  /** A regular message of a running session. */
  predicate Regular(i: Input) { i.ok && !i.first && i.sampleTime >= LOWEST_SAMPLE_TIME }

  /** A stop has been ordered and is at most n messages away. */
  predicate Braking(m: Motion, n: int) {
    && Inv(m) && Shaped(m.step.references) && m.events.run.stop
    && match m.sm.current
       case Stage(Normal, Running) =>
         m.events.run.rampDown && n >= if m.sm.hasPending then STOP_MESSAGES - 1 else STOP_MESSAGES
       case Stage(RampDown, Finished) => false
       case Stage(RampDown, _) =>
         && Ramping(m)
         && (if m.sm.hasPending && m.sm.pending == STOPPED then n >= 1 && AtRestNow(m)
             else n >= 2 && m.step.timePassed >= LOWEST_SAMPLE_TIME * (STOP_MESSAGES - 1 - n) as real)
       case _ => false
  }

  /** Stopped, at rest and waiting for a resume. */
  predicate Held(m: Motion) {
    && Inv(m) && m.sm.current == STOPPED && !m.sm.hasPending
    && m.events.run.stop && !m.events.run.resume && AtRestNow(m)
  }

  lemma PlainPrepare(m: Motion, i: Input)
    requires i.ok && !i.first && m.sm.current != IDLE
    ensures Prepare(m, i) == Receive(m, i).(hasNew := false)
  {
    hide ResetMotion;
  }

  /** The message that starts the ramp. */
  lemma BeginBrake(k: Maths, e: Motion)
    requires Entered(e) && e.sm.current == RAMP_START && e.events.run.stop
    requires Shaped(e.step.references) && e.step.sampleTime >= LOWEST_SAMPLE_TIME
    ensures var m' := Emit(k, Refit(Process(k, e)));
            && m'.sm == StateManager(RAMP_START, RAMPING, true) && m'.events == e.events
            && Ramping(m') && m'.step.timePassed >= LOWEST_SAMPLE_TIME
  {
    var b := BeginRampDown(e);
    assert Process(k, e) == b;
    BeginBrakeFit(e);
    hide Process, BeginRampDown, Emit, Refit, Ramping, Entered;
    RampEmit(k, Refit(b));
  }

  lemma BeginBrakeFit(e: Motion)
    requires Entered(e) && e.sm.current == RAMP_START && e.events.run.stop && Shaped(e.step.references)
    ensures var m' := Refit(BeginRampDown(e));
            && m'.sm == StateManager(RAMP_START, RAMPING, true) && m'.events == e.events
            && Ramping(m') && m'.step.timePassed == 0.0 && m'.step.sampleTime == e.step.sampleTime
  {
    hide Slot, StopsAt, Remainder, FittedInv, FactorInv;
    assert |e.step.interpolator.splines| == SPLINES by { assert FittedInv(e); SplineCount(e); }
    var b := BeginRampDown(e);
    var r := b.step.references.(reach := b.step.goal.reach, duration := b.step.conditions.duration);
    StopFit(b.step.interpolator, r, b.step.goal, b.step.conditions);
  }

  lemma SplineCount(e: Motion)
    requires FittedInv(e)
    ensures |e.step.interpolator.splines| == SPLINES
  {
  }

  /** A message while the ramp runs. */
  lemma RampTick(k: Maths, e: Motion, n: int)
    requires Entered(e) && e.sm.current == RAMPING && Ramping(e) && n >= 2
    requires e.step.sampleTime >= LOWEST_SAMPLE_TIME
    requires e.step.timePassed >= LOWEST_SAMPLE_TIME * (STOP_MESSAGES - 1 - n) as real
    ensures var m' := Emit(k, Refit(Process(k, e)));
            && m'.sm.current == RAMPING && m'.events == e.events && Ramping(m')
            && (if m'.sm.hasPending then m'.sm.pending == STOPPED && AtRestNow(m')
                else n >= 3 && m'.step.timePassed >= LOWEST_SAMPLE_TIME * (STOP_MESSAGES - n) as real)
  {
    var p := Process(k, e);
    assert p == if DurationReached(e.step) then e.(sm := StateManager(RAMPING, STOPPED, true)) else e;
    hide Process, Emit, AtRestNow, FittedInv, FactorInv, StopsAll, Shaped, RampReady;
    assert Refit(p) == p;
    RampEmit(k, p);
  }

  /** The message that reports the ramp finished, with no resume granted yet. */
  lemma ArriveTick(k: Maths, e: Motion)
    requires Entered(e) && e.sm.current == STOPPED && AtRestNow(e) && e.step.sampleTime >= 0.0
    requires e.events.run.stop && !e.events.run.resume
    ensures var m' := Emit(k, Refit(Process(k, e)));
            && m'.sm == e.sm && m'.events == EventsAfter(e) && AtRestNow(m')
            && SameJoints(m'.step.references, e.step.references)
            && m'.step.timePassed >= e.step.timePassed
            && m'.step.interpolator == e.step.interpolator && m'.controller == e.controller
  {
    var p := Process(k, e);
    StoppedProcess(k, e);
    hide Process, Emit, FittedInv, FactorInv, StopsAll, Shaped, Halted, Settled, EventsAfter;
    assert Refit(p) == p;
    RampEmit(k, p);
    StayPut(k, p);
  }

  /** The same joints, positions and rates; only the orientation may differ. */
  predicate SameJoints(a: Reference, b: Reference) { a == b.(quaternion := a.quaternion, angular := a.angular) }

  lemma StoppedProcess(k: Maths, e: Motion)
    requires e.sm.current == STOPPED && e.events.run.stop && !e.events.run.resume
    ensures var p := Process(k, e);
            && p.sm == e.sm && p.events == EventsAfter(e) && p.hasNew == e.hasNew && p.hasActive == e.hasActive
            && p.controller == e.controller && p.step == e.step.(factor := p.step.factor)
  {
    hide UpdateNormalGoal, SetPending;
  }

  lemma StayPut(k: Maths, m: Motion)
    requires AtRestNow(m) && m.step.sampleTime >= 0.0
    ensures SameJoints(Emit(k, m).step.references, m.step.references)
  {
    hide Evaluated, FollowedOutputs, FadedReferences, StopsAll, Shaped, Halted, Settled;
    SettledStays(k, m.step.interpolator, m.step.references, m.step.sampleTime, m.step.timePassed + m.step.sampleTime);
    NoFade(k, m.controller, m.outputs, EvaluateInterpolator(k, m.step));
  }

  lemma RunningTick(k: Maths, e: Motion)
    requires Entered(e) && e.sm.current == RUNNING && e.events.run.rampDown && Shaped(e.step.references)
    ensures var m' := Emit(k, Refit(Process(k, e)));
            && m'.sm == StateManager(RUNNING, RAMP_START, true) && m'.events == e.events && Shaped(m'.step.references)
            && m'.step.point == e.step.point && m'.current == e.current && m'.primary == e.primary
               && m'.temporary == e.temporary
  {
    var p := Process(k, e);
    assert p == e.(sm := StateManager(RUNNING, RAMP_START, true));
    hide Process, Emit, FittedInv, FactorInv;
    assert Refit(p) == p;
    EmitFrame(k, p);
    EmitShaped(k, p);
  }

  /** One message brings the stop one message closer, or reaches it. */
  lemma BrakeTick(k: Maths, m: Motion, i: Input, n: int)
    requires Braking(m, n) && Regular(i)
    ensures var m' := Tick(k, m, i);
            && n >= 1
            && (m'.sm.current != STOPPED ==> Braking(m', n - 1) && m'.events == m.events)
            && (m'.sm.current == STOPPED && !m.events.run.resume ==> Held(m'))
  {
    var p := Prepare(m, i);
    var e := Advance1(p);
    TickInv(k, m, i);
    PlainPrepare(m, i);
    PrepareInv(m, i);
    EnterInv(p);
    hide Process, Emit, Refit, Prepare, Inv, Entered, AtRestNow, EventsAfter;
    BrakeEntry(m, i, n);
    assert Tick(k, m, i) == Emit(k, Refit(Process(k, e)));
    if m.sm.current == RUNNING && !m.sm.hasPending {
      RunningTick(k, e);
    } else if m.sm.current == RUNNING {
      BeginBrake(k, e);
    } else if m.sm.pending == STOPPED && m.sm.hasPending {
      if !m.events.run.resume {
        ArriveTick(k, e);
        HeldEvents(e);
      } else {
        GuardNeverRejects(k, e);
        StageKept(k, Process(k, e));
      }
    } else {
      RampTick(k, e, n);
    }
  }

  lemma StageKept(k: Maths, m: Motion)
    ensures Emit(k, Refit(m)).sm == m.sm
  {
    hide Emit, UpdateInterpolator;
    EmitFrame(k, Refit(m));
  }

  lemma HeldEvents(e: Motion)
    requires e.sm.current == STOPPED && e.events.run.stop && !e.events.run.resume
    ensures EventsAfter(e).run.stop && !EventsAfter(e).run.resume
  {
  }

  /** What the entered machine inherits. */
  lemma BrakeEntry(m: Motion, i: Input, n: int)
    requires Braking(m, n) && Regular(i)
    requires Prepare(m, i) == Receive(m, i).(hasNew := false)
    ensures var e := Advance1(Prepare(m, i));
            && e.events == m.events && Shaped(e.step.references) && e.step.sampleTime >= LOWEST_SAMPLE_TIME
            && e.step.timePassed == m.step.timePassed && !e.sm.hasPending
            && (m.sm.current == RUNNING || m.sm.current == RAMP_START || m.sm.current == RAMPING)
            && (m.sm.current == RUNNING && !m.sm.hasPending ==> e.sm.current == RUNNING)
            && (m.sm.current == RUNNING && m.sm.hasPending ==> e.sm.current == RAMP_START)
            && (m.sm.current != RUNNING ==> Ramping(e))
            && (m.sm.current != RUNNING && m.sm.hasPending && m.sm.pending == STOPPED ==>
                  e.sm.current == STOPPED && AtRestNow(e))
            && (m.sm.current != RUNNING && !(m.sm.hasPending && m.sm.pending == STOPPED) ==> e.sm.current == RAMPING)
  {
    hide Prepare, FittedInv, FactorInv, StopsAll, Halted, Settled;
    match m.sm.current
    case Stage(Normal, Running) =>
    case Stage(RampDown, NoSub) =>
    case Stage(RampDown, Running) =>
    case _ =>
  }

  /** No command can call a stop off while the ramp lasts. */
  lemma BrakeCommand(k: Maths, m: Motion, a: Action, n: int)
    requires Braking(m, n) && !a.Message?
    ensures Braking(Do(k, m, a), n)
    ensures !(RaisesResume(a) && Accepted(m, a)) ==> Do(k, m, a).events.run.resume == m.events.run.resume
  {
    DoInv(k, m, a);
    hide Tick, Inv, AtRestNow, StopsAll, Shaped;
    if a.AddTrajectory? { assert Do(k, m, a).step == m.step; }
  }

  /** Commands that ask for motion after the stop. */
  predicate RaisesResume(a: Action) {
    || (a.AddTrajectory? && a.override)
    || a.StartStaticGoal?
    || a.ResumeTrajectory?
    || a.SetStaticPosition? || a.SetStaticVelocity? || a.FinishStaticGoal?
  }

  // ---------------------------------------------------------------- Whole runs

  function MessageCount(acts: seq<Action>): nat {
    if acts == [] then 0 else (if acts[0].Message? then 1 else 0) + MessageCount(acts[1..])
  }

  /** Any commands, but every message is a regular one. */
  predicate Uninterrupted(acts: seq<Action>) {
    forall a :: a in acts && a.Message? ==> Regular(a.input)
  }

  /** No command that asks for motion is accepted. */
  predicate Patient(k: Maths, m: Motion, acts: seq<Action>)
    decreases |acts|
  {
    acts == [] || (!(RaisesResume(acts[0]) && Accepted(m, acts[0])) && Patient(k, Do(k, m, acts[0]), acts[1..]))
  }

  /** Whatever commands interleave, an ordered stop is reached within n messages; if nobody asks for
      motion, it is reached at rest. */
  lemma {:induction false} StopIsReached(k: Maths, m: Motion, acts: seq<Action>, n: int) returns (j: nat)
    requires Braking(m, n) && Uninterrupted(acts) && MessageCount(acts) >= n
    ensures 0 < j <= |acts| && MessageCount(acts[..j]) <= n
    ensures Run(k, m, acts[..j]).sm.current == STOPPED
    ensures !m.events.run.resume && Patient(k, m, acts) ==>
              Held(Run(k, m, acts[..j])) && Patient(k, Run(k, m, acts[..j]), acts[j..])
    decreases |acts|
  {
    hide Do, Braking, Held, RaisesResume, Accepted;
    BrakingIsPositive(m, n);
    var a, rest := acts[0], acts[1..];
    var m' := Do(k, m, a);
    assert acts == [a] + rest;
    var n' := n;
    if a.Message? {
      BrakeTick(k, m, a.input, n);
      MessageIsTick(k, m, a);
      n' := n - 1;
    } else {
      BrakeCommand(k, m, a, n);
      BrakingStage(m', n);
    }
    if m'.sm.current == STOPPED {
      j := 1;
      assert acts[..1] == [a];
      RunOne(k, m, a);
    } else {
      var j' := StopIsReached(k, m', rest, n');
      j := j' + 1;
      assert acts[..j][1..] == rest[..j'] && acts[..j][0] == a && acts[j..] == rest[j'..];
    }
  }

  lemma BrakingIsPositive(m: Motion, n: int)
    requires Braking(m, n)
    ensures n >= 1
  {
    hide Inv, Ramping, AtRestNow;
  }

  lemma BrakingStage(m: Motion, n: int)
    requires Braking(m, n)
    ensures m.sm.current != STOPPED
  {
    hide Inv, Ramping, AtRestNow;
  }

  lemma MessageIsTick(k: Maths, m: Motion, a: Action)
    requires a.Message?
    ensures Do(k, m, a) == Tick(k, m, a.input)
  {
  }

  lemma RunOne(k: Maths, m: Motion, a: Action)
    ensures Run(k, m, [a]) == Do(k, m, a)
  {
    hide Do;
    assert [a][1..] == [];
    assert Run(k, Do(k, m, a), []) == Do(k, m, a);
  }

  /** m' is m later on: held by the same ramp in the same place. */
  predicate StillHeld(m: Motion, m': Motion) {
    && Held(m') && SameJoints(m'.step.references, m.step.references)
    && m'.step.interpolator == m.step.interpolator && m'.controller == m.controller
  }

  /** A held stop stays held, with the joint references frozen, until somebody resumes. */
  lemma {:induction false} HeldRun(k: Maths, m: Motion, acts: seq<Action>)
    requires Held(m) && Uninterrupted(acts) && Patient(k, m, acts)
    ensures StillHeld(m, Run(k, m, acts))
    decreases |acts|
  {
    hide Do, Held;
    if acts != [] {
      HeldAccepts(m);
      HeldStep(k, m, acts[0]);
      HeldRun(k, Do(k, m, acts[0]), acts[1..]);
    }
  }

  lemma HeldAccepts(m: Motion)
    requires Held(m)
    ensures Accepted(m, ResumeTrajectory) && RaisesResume(ResumeTrajectory)
  {
    hide Inv, AtRestNow;
  }

  lemma HeldStep(k: Maths, m: Motion, a: Action)
    requires Held(m) && a != ResumeTrajectory && (a.Message? ==> Regular(a.input))
    ensures StillHeld(m, Do(k, m, a))
  {
    DoInv(k, m, a);
    if a.Message? {
      HeldTick(k, m, a.input);
      MessageIsTick(k, m, a);
      hide Tick, Do, Held;
    } else {
      hide Tick, Command, Inv, StopsAll, Halted, Settled, Shaped;
    }
  }

  lemma HeldTick(k: Maths, m: Motion, i: Input)
    requires Held(m) && Regular(i)
    ensures StillHeld(m, Tick(k, m, i))
  {
    var p := Prepare(m, i);
    var e := Advance1(p);
    TickInv(k, m, i);
    PlainPrepare(m, i);
    PrepareInv(m, i);
    EnterInv(p);
    hide Process, Emit, Refit, Prepare, Inv, Entered, EventsAfter, StopsAll, Halted, Settled, Shaped;
    ArriveTick(k, e);
    HeldEvents(e);
  }

  /** The guarantee of stopTrajectory: after 253 regular messages, whatever other commands arrive as
      long as none that asks for motion is accepted, every joint is at rest, and it stays where it is. */
  lemma StopAndHold(k: Maths, m: Motion, discard: bool, acts: seq<Action>) returns (j: nat)
    requires Inv(m) && Shaped(m.step.references) && Accepted(m, StopTrajectory(discard)) && !m.events.run.resume
    requires Uninterrupted(acts) && MessageCount(acts) >= STOP_MESSAGES
    requires Patient(k, Do(k, m, StopTrajectory(discard)), acts)
    ensures j <= |acts| && MessageCount(acts[..j]) <= STOP_MESSAGES
    ensures var m0 := Do(k, m, StopTrajectory(discard));
            var stopped, final := Run(k, m0, acts[..j]), Run(k, m0, acts);
            && Held(stopped) && StillHeld(stopped, final)
            && Halted(final.step.references, final.step.interpolator.conditions.mode)
  {
    hide Do, Braking, Patient, Held, Halted, Inv, Shaped;
    var m0 := Do(k, m, StopTrajectory(discard));
    StopBrakes(k, m, discard);
    j := StopIsReached(k, m0, acts, STOP_MESSAGES);
    assert acts == acts[..j] + acts[j..];
    RunConcat(k, m0, acts[..j], acts[j..]);
    assert Uninterrupted(acts[j..]);
    HeldRun(k, Run(k, m0, acts[..j]), acts[j..]);
    HeldIsHalted(Run(k, m0, acts));
  }

  lemma HeldIsHalted(m: Motion)
    requires Held(m)
    ensures Halted(m.step.references, m.step.interpolator.conditions.mode)
  {
    hide Inv, Ramping, Settled, Halted;
  }

  lemma StopBrakes(k: Maths, m: Motion, discard: bool)
    requires Inv(m) && Shaped(m.step.references) && Accepted(m, StopTrajectory(discard))
    ensures Braking(Do(k, m, StopTrajectory(discard)), STOP_MESSAGES)
    ensures Do(k, m, StopTrajectory(discard)).events.run.resume == m.events.run.resume
  {
    DoInv(k, m, StopTrajectory(discard));
    hide Inv, Tick, Shaped;
  }
}
