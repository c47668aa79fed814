/** Static position goals: the law the code follows, and when the goal is reached exactly. */
module StaticGoals {
  import opened Numeric
  import opened Quaternions
  import opened Splines
  import opened Messages
  import opened Interpolation
  import opened Machine
  import opened Dispatching
  import opened Soundness
  import opened Conservation
  import opened Faults
  import opened Stopping

  // ---------------------------------------------------------------- The ramp law

  predicate SameSize(a: JointGoal, b: JointGoal) {
    |a.position| == |b.position| && |a.velocity| == |b.velocity| && |a.acceleration| == |b.acceleration|
  }

  /** A position ramp whose goal keeps the start velocities. */
  predicate PositionRamp(r: SoftRamp, j: JointGoal, start: JointGoal, goal: JointGoal) {
    && r.operation == RampInPosition && ShapedJoints(j)
    && SameSize(start, j) && SameSize(goal, j) && goal.velocity == start.velocity
  }

  /** Because the position case falls through into the velocity case, a position ramp adds one sample
      of the start velocity to every position and keeps that velocity. */
  lemma PositionRampLaw(k: Maths, r: SoftRamp, j: JointGoal, start: JointGoal, goal: JointGoal, dt: real, t: real)
    requires PositionRamp(r, j, start, goal)
    ensures var j' := RampJoints(k, r, j, start, goal, dt, t);
            var f := k.RampUp(Progress(t, r.duration));
            && SameSize(j', j)
            && (forall i :: 0 <= i < |j'.position| ==>
                  j'.position[i] == Mix(start.position[i], goal.position[i], f) + dt * start.velocity[i])
            && (forall i :: 0 <= i < |j'.velocity| ==> j'.velocity[i] == start.velocity[i])
            && (forall i :: 0 <= i < |j'.acceleration| ==> j'.acceleration[i] == 0.0)
  {
    var f := k.RampUp(Progress(t, r.duration));
    forall i | 0 <= i < |start.velocity| ensures Mix(start.velocity[i], goal.velocity[i], f) == start.velocity[i] {
      MixSame(start.velocity[i], f);
    }
    hide Mix, Maths.RampUp, Maths.RampUpRate, Progress;
  }

  lemma MixSame(v: real, f: real)
    ensures Mix(v, v, f) == v
  {
  }

  /** At the end of the ramp the position is the goal plus one sample of the start velocity. */
  lemma PositionRampEnd(k: Maths, r: SoftRamp, j: JointGoal, start: JointGoal, goal: JointGoal, dt: real, t: real)
    requires PositionRamp(r, j, start, goal) && k.RampEndpoints() && t >= r.duration > 0.0
    ensures var j' := RampJoints(k, r, j, start, goal, dt, t);
            && |j'.position| == |goal.position|
            && forall i :: 0 <= i < |goal.position| ==> j'.position[i] == goal.position[i] + dt * start.velocity[i]
  {
    PositionRampLaw(k, r, j, start, goal, dt, t);
    ProgressEnd(t, r.duration);
    assert k.RampUp(1.0) == 1.0;
    hide RampJoints, Progress, Maths.RampUp;
    forall i | 0 <= i < |goal.position|
      ensures Mix(start.position[i], goal.position[i], 1.0) == goal.position[i]
    {
      MixEnds(start.position[i], goal.position[i]);
    }
  }

  lemma ProgressEnd(t: real, d: real)
    requires t >= d > 0.0
    ensures Progress(t, d) == 1.0
  {
    assert t / d >= 1.0;
  }

  /** So the goal is missed, by one sample of it, exactly for the joints that were moving. */
  lemma GoalReachedIffStill(k: Maths, r: SoftRamp, j: JointGoal, start: JointGoal, goal: JointGoal, dt: real, t: real)
    requires PositionRamp(r, j, start, goal) && k.RampEndpoints() && t >= r.duration > 0.0 && dt > 0.0
    ensures RampJoints(k, r, j, start, goal, dt, t).position == goal.position
            <==> forall i :: 0 <= i < |start.velocity| ==> start.velocity[i] == 0.0
  {
    PositionRampEnd(k, r, j, start, goal, dt, t);
    hide RampJoints;
    var p := RampJoints(k, r, j, start, goal, dt, t).position;
    forall i | 0 <= i < |goal.position|
      ensures p[i] == goal.position[i] <==> start.velocity[i] == 0.0
    {
      Offset(goal.position[i], dt, start.velocity[i]);
    }
    if p == goal.position {
      forall i | 0 <= i < |start.velocity| ensures start.velocity[i] == 0.0 {
        assert p[i] == goal.position[i];
      }
    }
  }

  lemma Offset(g: real, dt: real, v: real)
    requires dt > 0.0
    ensures g + dt * v == g <==> v == 0.0
  {
    if v > 0.0 { assert dt * v > 0.0; }
    if v < 0.0 { assert dt * (-v) > 0.0; }
  }

  // ---------------------------------------------------------------- Joint sessions

  predicate JointPoints(points: seq<PointGoal>) {
    forall i :: 0 <= i < |points| ==> points[i].cartesian.None?
  }

  /** Nothing given to the machine asks for a pose. */
  predicate ModeInv(m: Motion) {
    && m.step.mode.JointMode? && m.step.conditions.mode.JointMode?
    && m.events.positionGoal.cartesian.None? && m.events.velocityGoal.cartesian.None?
  }

  predicate JointInv(m: Motion, origin: seq<PointGoal>) {
    ModeInv(m) && StemsFrom(m, origin) && JointPoints(origin)
  }

  predicate JointAction(a: Action) {
    && (a.AddTrajectory? ==> JointPoints(a.points))
    && (a.SetStaticPosition? ==> a.position.cartesian.None?)
    && (a.SetStaticVelocity? ==> a.velocity.cartesian.None?)
  }

  lemma JointOrigin(points: seq<PointGoal>, origin: seq<PointGoal>)
    requires AllFrom(points, origin) && JointPoints(origin)
    ensures JointPoints(points)
  {
    forall j | 0 <= j < |points| ensures points[j].cartesian.None? {
      assert OneOf(points[j], origin);
    }
  }

  lemma UpdateNormalGoalMode(k: Maths, m: Motion)
    requires ModeInv(m) && (m.current.Some? ==> JointPoints(m.current.value))
    ensures ModeInv(UpdateNormalGoal(k, m))
  {
    var d := UpdateNormalGoalRefines(k, m);
    hide UpdateNormalGoal, Exhausted;
    if m.current.Some? && m.current.value != [] {
      PreparedFacts(k, m.step, m.current.value, |m.current.value| == 1, d);
    }
  }

  lemma ProcessMode(k: Maths, m: Motion, origin: seq<PointGoal>)
    requires JointInv(m, origin)
    ensures ModeInv(Process(k, m))
  {
    PresentPointsAreJoint(m, origin);
    hide StemsFrom, JointPoints, ProcessNormal, ProcessRampDown, ProcessStatic, ModeInv;
    match m.sm.current.state
    case Normal => NormalMode(k, m);
    case RampDown => RampDownMode(k, m);
    case StaticGoal => StaticMode(k, m);
  }

  lemma PresentPointsAreJoint(m: Motion, origin: seq<PointGoal>)
    requires StemsFrom(m, origin) && JointPoints(origin)
    ensures m.current.Some? ==> JointPoints(m.current.value)
    ensures m.primary != [] ==> JointPoints(m.primary[0])
  {
    hide OneOf, AllFrom, JointPoints;
    if m.current.Some? { JointOrigin(m.current.value, origin); }
    if m.primary != [] { JointOrigin(m.primary[0], origin); }
  }

  lemma StaticMode(k: Maths, m: Motion)
    requires ModeInv(m)
    ensures ModeInv(ProcessStatic(k, m))
  {
    StaticGoalMode(k, m);
    hide SetPending, PreparePosition, PrepareVelocity;
  }

  lemma StaticGoalMode(k: Maths, m: Motion)
    requires ModeInv(m)
    ensures var s := PreparePosition(k, m.step, m.events.positionGoal, m.events.still.fast);
            s.mode.JointMode? && s.conditions.mode.JointMode?
    ensures var s := PrepareVelocity(m.step, m.events.velocityGoal, m.events.still.fast);
            s.mode.JointMode? && s.conditions.mode.JointMode?
  {
  }

  lemma NormalMode(k: Maths, m: Motion)
    requires ModeInv(m) && (m.current.Some? ==> JointPoints(m.current.value))
    requires m.primary != [] ==> JointPoints(m.primary[0])
    ensures ModeInv(ProcessNormal(k, m))
  {
    hide UpdateNormalGoal, ConditionMet, SetPending, JointPoints;
    UpdateNormalGoalMode(k, m);
    if m.primary != [] { UpdateNormalGoalMode(k, m.(current := Some(m.primary[0]), primary := m.primary[1..])); }
  }

  lemma RampDownMode(k: Maths, m: Motion)
    requires ModeInv(m) && (m.current.Some? ==> JointPoints(m.current.value))
    ensures ModeInv(ProcessRampDown(k, m))
  {
    hide EndRampDown, SetPending, JointPoints, Remainder;
    if m.sm.current.sub.Finished? { EndMode(k, ApplyDiscard(ApplyFactor(m))); }
  }

  lemma EndMode(k: Maths, m: Motion)
    requires ModeInv(m) && (m.current.Some? ==> JointPoints(m.current.value))
    ensures ModeInv(EndRampDown(k, m))
  {
    hide UpdateNormalGoal, SetPending, JointPoints, Released;
    UpdateNormalGoalMode(k, m.(events := m.events.(run := Released(m.events.run))));
  }

  lemma TickJoint(k: Maths, m: Motion, i: Input, origin: seq<PointGoal>)
    requires JointInv(m, origin)
    ensures JointInv(Prepare(m, i), origin) && JointInv(Advance1(Prepare(m, i)), origin)
    ensures JointInv(Tick(k, m, i), origin)
  {
    hide Process, Emit, Refit, StemsFrom, JointPoints, FromFeedback, Remainder;
    var e := Advance1(Prepare(m, i));
    PrepareStems(m, i, origin);
    EntryStems(Prepare(m, i), origin);
    TickStems(k, m, i, origin);
    assert ModeInv(Prepare(m, i));
    hide Prepare;
    ProcessMode(k, e, origin);
    RefitMode(Process(k, e));
    EmitFrame(k, Refit(Process(k, e)));
  }

  lemma EntryStems(m: Motion, origin: seq<PointGoal>)
    requires StemsFrom(m, origin)
    ensures StemsFrom(Advance1(m), origin)
  {
    hide AllFrom, OneOf;
  }

  lemma RefitMode(m: Motion)
    ensures ModeInv(Refit(m)) == ModeInv(m)
  {
    hide Updated;
  }

  lemma DoJoint(k: Maths, m: Motion, a: Action, origin: seq<PointGoal>)
    requires JointInv(m, origin) && JointAction(a)
    ensures JointInv(Do(k, m, a), origin + Added(m, a))
  {
    hide Tick, StemsFrom;
    DoStems(k, m, a, origin);
    assert JointPoints(origin + Added(m, a));
    if a.Message? { TickJoint(k, m, a.input, origin); }
  }

  // ---------------------------------------------------------------- At rest in the static stage

  predicate Quiet(r: Reference) { Still(r.joints) && Still(r.external) }

  predicate NoVelocity(j: JointGoal) { forall i :: 0 <= i < |j.velocity| ==> j.velocity[i] == 0.0 }

  /** A position goal is being followed, from rest. */
  predicate Tracking(m: Motion) {
    var ip, r := m.step.interpolator, m.step.references;
    && m.hasActive && !m.controller.normal
    && ip.conditions.operation == RampInPosition && ip.conditions.mode.JointMode?
    && ip.conditions.duration == ip.ramp.duration > 0.0
    && PositionRamp(ip.ramp, r.joints, ip.ramp.start.joints, ip.ramp.goal.joints)
    && PositionRamp(ip.ramp, r.external, ip.ramp.start.external, ip.ramp.goal.external)
    && NoVelocity(ip.ramp.start.joints) && NoVelocity(ip.ramp.start.external)
  }

  /** A stop that has been ordered leads to rest, the static stage begins at rest and, as long as no
      velocity goal is given (strict), stays at rest. */
  predicate StillInv(m: Motion, strict: bool) {
    && Inv(m) && Shaped(m.step.references) && (strict ==> !m.events.still.velocity) && m.step.timePassed >= 0.0
    && (m.sm.current.state.RampDown? && !Resuming(m) && m.events.run.stop ==>
          Ramping(m) && (m.sm.current == STOPPED || (m.sm.hasPending && m.sm.pending == STOPPED) ==> AtRestNow(m)))
    && (m.sm.current == STOPPED && m.sm.hasPending && m.sm.pending == STATIC_START ==> Quiet(m.step.references))
    && (strict && m.sm.current.state.StaticGoal? ==> Quiet(m.step.references) && (m.hasActive ==> Tracking(m)))
  }

  /** The same, for a machine that has just entered a stage. */
  predicate StillEntry(e: Motion, strict: bool) {
    && Entered(e) && Shaped(e.step.references) && (strict ==> !e.events.still.velocity)
    && e.step.timePassed >= 0.0 && e.step.sampleTime >= LOWEST_SAMPLE_TIME
    && (e.sm.current in {RAMPING, STOPPED} && e.events.run.stop ==>
           Ramping(e) && (e.sm.current == STOPPED ==> AtRestNow(e)))
    && (strict && e.sm.current.state.StaticGoal? ==> Quiet(e.step.references))
    && (strict && e.sm.current in {STATIC, STATIC_END} && e.hasActive ==> Tracking(e))
  }

  /** Messages whose feedback fits the spline array. */
  predicate Fitting(i: Input) {
    && i.sampleTime >= LOWEST_SAMPLE_TIME
    && |i.feedback.joints.position| + |i.feedback.external.position| <= SPLINES
  }

  /** A message that resets nothing, or whose feedback fits. */
  predicate Tolerable(i: Input) { Regular(i) || Fitting(i) }

  lemma PrepareStill(m: Motion, i: Input, strict: bool)
    requires StillInv(m, strict) && Tolerable(i)
    ensures StillInv(Prepare(m, i), strict) && Prepare(m, i).step.sampleTime == i.sampleTime && !Prepare(m, i).hasNew
  {
    PrepareInv(m, i);
    PrepareEvents(m, i);
    PreparedStages(m, i);
    hide Prepare, Inv, StopsAll, RampReady, Still, PositionRamp, NoVelocity;
    if Prepare(m, i).sm.current in {IDLE, RUNNING} {
      assert Shaped(Prepare(m, i).step.references);
    }
  }

  /** A message either leaves the machine in its stage and its references alone, or finds or makes it
      idle or running, with the references it had or the feedback's. */
  lemma PreparedStages(m: Motion, i: Input)
    ensures var p := Prepare(m, i);
            && p.step.sampleTime == i.sampleTime && !p.hasNew
            && (if p.sm.current in {IDLE, RUNNING}
                then
                  || (p.step.references == m.step.references && p.step.timePassed == m.step.timePassed)
                  || (!Regular(i) && p.step.references == FromFeedback(i.feedback) && p.step.timePassed == 0.0)
                else p == Receive(m, i).(hasNew := false))
  {
    hide FromFeedback, Remainder;
  }

  lemma EntryStill(m: Motion, strict: bool)
    requires StillInv(m, strict) && m.sm.current != IDLE && !m.hasNew && m.step.sampleTime >= LOWEST_SAMPLE_TIME
    ensures StillEntry(Advance1(m), strict)
  {
    EnterInv(m);
    hide FittedInv, FactorInv, StopsAll, RampReady, Still, PositionRamp, NoVelocity, Settled, Halted, Shaped;
    assert ManagerInv(m.sm);
  }

  // ---------------------------------------------------------------- Stage by stage

  /** What every stage must re-establish besides Inv. */
  predicate StillBody(m: Motion, strict: bool) {
    && Shaped(m.step.references) && (strict ==> !m.events.still.velocity) && m.step.timePassed >= 0.0
    && (m.sm.current.state.RampDown? && !Resuming(m) && m.events.run.stop ==>
          Ramping(m) && (m.sm.current == STOPPED || (m.sm.hasPending && m.sm.pending == STOPPED) ==> AtRestNow(m)))
    && (m.sm.current == STOPPED && m.sm.hasPending && m.sm.pending == STATIC_START ==> Quiet(m.step.references))
    && (strict && m.sm.current.state.StaticGoal? ==> Quiet(m.step.references) && (m.hasActive ==> Tracking(m)))
  }

  lemma FinishBasics(k: Maths, p: Motion)
    requires Shaped(p.step.references) && p.step.timePassed >= 0.0 && p.step.sampleTime >= 0.0
    ensures var m' := Emit(k, Refit(p));
            && Shaped(m'.step.references) && m'.step.timePassed >= 0.0
            && m'.events == p.events && m'.sm == p.sm && m'.hasActive == p.hasActive
  {
    RefitBasics(p);
    EmitTime(k, Refit(p));
    hide Emit, Refit, Shaped;
    EmitShaped(k, Refit(p));
    EmitFrame(k, Refit(p));
  }

  lemma RefitBasics(p: Motion)
    requires Shaped(p.step.references) && p.step.timePassed >= 0.0
    ensures var m' := Refit(p);
            && Shaped(m'.step.references) && m'.step.timePassed >= 0.0 && m'.step.sampleTime == p.step.sampleTime
            && m'.events == p.events && m'.sm == p.sm && m'.hasActive == p.hasActive
  {
    hide Updated;
  }

  lemma EmitTime(k: Maths, m: Motion)
    requires m.step.timePassed >= 0.0 && m.step.sampleTime >= 0.0
    ensures Emit(k, m).step.timePassed >= 0.0
  {
    hide Evaluated, FadedReferences, FollowedOutputs;
  }

  lemma RunningStill(k: Maths, e: Motion, strict: bool)
    requires StillEntry(e, strict) && e.sm.current == RUNNING
    ensures StillBody(Emit(k, Refit(Process(k, e))), strict)
  {
    hide Process, Emit, Refit, Entered, Shaped;
    GuardNeverRejects(k, e);
    ProcessEvents(k, e);
    ProcessMovesNothing(k, e);
    FinishBasics(k, Process(k, e));
  }

  lemma RampStartStill(k: Maths, e: Motion, strict: bool)
    requires StillEntry(e, strict) && e.sm.current == RAMP_START
    ensures StillBody(Emit(k, Refit(Process(k, e))), strict)
  {
    hide Process, Emit, Refit, Entered, Ramping, AtRestNow, Shaped;
    GuardNeverRejects(k, e);
    ProcessEvents(k, e);
    ProcessMovesNothing(k, e);
    FinishBasics(k, Process(k, e));
    if e.events.run.stop { BeginBrake(k, e); }
  }

  lemma RampingStill(k: Maths, e: Motion, strict: bool)
    requires StillEntry(e, strict) && e.sm.current == RAMPING
    ensures StillBody(Emit(k, Refit(Process(k, e))), strict)
  {
    hide Process, Emit, Refit, Entered, Ramping, AtRestNow, Shaped;
    GuardNeverRejects(k, e);
    ProcessEvents(k, e);
    ProcessMovesNothing(k, e);
    FinishBasics(k, Process(k, e));
    if e.events.run.stop { RampTick(k, e, STOP_MESSAGES - 1); }
  }

  lemma StoppedStill(k: Maths, e: Motion, strict: bool)
    requires StillEntry(e, strict) && e.sm.current == STOPPED && ModeInv(e)
    ensures StillBody(Emit(k, Refit(Process(k, e))), strict)
  {
    hide Process, Emit, Refit, Entered, Ramping, AtRestNow, Shaped, Quiet;
    GuardNeverRejects(k, e);
    ProcessEvents(k, e);
    ProcessMovesNothing(k, e);
    FinishBasics(k, Process(k, e));
    StoppedActive(e);
    if e.events.run.stop && !e.events.run.resume {
      ArriveTick(k, e);
      RestIsShaped(Emit(k, Refit(Process(k, e))));
    } else if e.events.run.stop && e.events.still.start {
      FittedMode(e);
      EnterStaticAtRest(k, e, strict);
    }
  }

  lemma RestIsShaped(m: Motion)
    requires AtRestNow(m)
    ensures Ramping(m)
  {
  }

  lemma EnterStaticAtRest(k: Maths, e: Motion, strict: bool)
    requires StillEntry(e, strict) && e.sm.current == STOPPED
    requires e.events.run.stop && e.events.run.resume && e.events.still.start
    requires e.step.interpolator.conditions.mode.JointMode?
    ensures Quiet(Emit(k, Refit(Process(k, e))).step.references)
  {
    var p := Process(k, e);
    LeaveStopProcess(k, e);
    hide Process, Emit, Entered, StopsAll, RampReady, Settled, Shaped;
    assert Refit(p) == p;
    RampEmit(k, p);
  }

  lemma StoppedActive(e: Motion)
    requires Entered(e) && e.sm.current == STOPPED
    ensures e.hasActive && !e.sm.hasPending
  {
    hide FittedInv;
  }

  lemma FittedMode(e: Motion)
    requires Entered(e) && ModeInv(e) && e.hasActive
    ensures e.step.interpolator.conditions.mode.JointMode?
  {
  }

  lemma LeaveStopProcess(k: Maths, e: Motion)
    requires e.sm.current == STOPPED && e.events.run.stop && e.events.run.resume && e.events.still.start
    ensures var p := Process(k, e);
            && p.hasNew == e.hasNew && p.hasActive == e.hasActive
            && p.controller == e.controller && p.step == e.step.(factor := p.step.factor)
  {
    hide UpdateNormalGoal, SetPending;
  }

  /** Evaluating a position ramp from rest stays at rest. */
  lemma TrackingEmit(k: Maths, m: Motion)
    requires Tracking(m) && Shaped(m.step.references)
    ensures var m' := Emit(k, m);
            && Tracking(m') && Quiet(m'.step.references)
            && m'.step.timePassed == m.step.timePassed + m.step.sampleTime
            && m'.step.interpolator == m.step.interpolator
  {
    hide FadedReferences, FollowedOutputs, RampJoints, Shaped;
    var ip, r := m.step.interpolator, m.step.references;
    var s := EvaluateInterpolator(k, m.step);
    var t := Saturate(s.timePassed, 0.0, ip.conditions.duration);
    PositionRampLaw(k, ip.ramp, r.joints, ip.ramp.start.joints, ip.ramp.goal.joints, m.step.sampleTime, t);
    PositionRampLaw(k, ip.ramp, r.external, ip.ramp.start.external, ip.ramp.goal.external, m.step.sampleTime, t);
    NoFade(k, m.controller, m.outputs, s);
  }

  lemma StaticStartStill(k: Maths, e: Motion)
    requires StillEntry(e, true) && e.sm.current == STATIC_START
    ensures StillBody(Emit(k, Refit(Process(k, e))), true)
  {
    var p := Process(k, e);
    GuardNeverRejects(k, e);
    ProcessEvents(k, e);
    ProcessMovesNothing(k, e);
    FinishBasics(k, p);
    assert !p.hasNew && !p.hasActive;
    hide Process, Entered, Shaped, Quiet;
    assert Emit(k, Refit(p)) == p;
  }

  lemma StaticEndStill(k: Maths, e: Motion)
    requires StillEntry(e, true) && e.sm.current == STATIC_END
    ensures StillBody(Emit(k, Refit(Process(k, e))), true)
  {
    var p := Process(k, e);
    GuardNeverRejects(k, e);
    ProcessEvents(k, e);
    ProcessMovesNothing(k, e);
    FinishBasics(k, p);
    assert !p.hasNew && p.hasActive == e.hasActive;
    hide Process, Entered, Shaped, Quiet, Emit, PositionRamp, NoVelocity;
    assert Refit(p) == p;
    ContinueStill(k, p);
  }

  /** With no new goal, the static stage goes on as it was. */
  lemma ContinueStill(k: Maths, p: Motion)
    requires Shaped(p.step.references) && Quiet(p.step.references) && (p.hasActive ==> Tracking(p))
    ensures Quiet(Emit(k, p).step.references) && (p.hasActive ==> Tracking(Emit(k, p)))
  {
    if p.hasActive {
      hide Emit, Shaped, Quiet, Tracking;
      TrackingEmit(k, p);
    }
  }

  lemma StaticRunStill(k: Maths, e: Motion)
    requires StillEntry(e, true) && e.sm.current == STATIC && ModeInv(e)
    ensures StillBody(Emit(k, Refit(Process(k, e))), true)
  {
    hide Process, Emit, Entered, Shaped, Quiet, PositionRamp, NoVelocity, Refit;
    var p := Process(k, e);
    GuardNeverRejects(k, e);
    ProcessEvents(k, e);
    ProcessMovesNothing(k, e);
    FinishBasics(k, p);
    if e.events.still.position && !e.events.run.rampDown {
      NewPositionGoal(k, e);
      TrackingEmit(k, Refit(p));
    } else {
      NoNewGoal(k, e);
      ContinueStill(k, p);
    }
  }

  lemma NoNewGoal(k: Maths, e: Motion)
    requires StillEntry(e, true) && e.sm.current == STATIC && !(e.events.still.position && !e.events.run.rampDown)
    ensures var p := Process(k, e);
            !p.hasNew && p.hasActive == e.hasActive && Refit(p) == p && (p.hasActive ==> Tracking(p))
  {
    hide PositionRamp, NoVelocity, Shaped, Quiet, FittedInv, SetPending;
  }

  /** A position goal taken up at rest is followed from rest. */
  lemma NewPositionGoal(k: Maths, e: Motion)
    requires StillEntry(e, true) && e.sm.current == STATIC && ModeInv(e)
    requires e.events.still.position && !e.events.run.rampDown
    ensures var m' := Refit(Process(k, e));
            var g := e.events.positionGoal;
            var ramp := m'.step.interpolator.ramp;
            && Tracking(m') && Shaped(m'.step.references) && m'.step.timePassed == 0.0
            && ramp.goal.joints.position == Overlay(e.step.references.joints.position, g.joints)
            && ramp.goal.external.position == Overlay(e.step.references.external.position, g.external)
            && ramp.duration == (if e.events.still.fast then STATIC_GOAL_DURATION_SHORT else STATIC_GOAL_DURATION)
            && m'.step.sampleTime == e.step.sampleTime
  {
    PositionApplied(k, e);
    PositionFitted(k, e.step, e.events.positionGoal, e.events.still.fast);
    FitKeepsShape(PreparePosition(k, e.step, e.events.positionGoal, e.events.still.fast));
    PreparedReferences(k, e.step, e.events.positionGoal, e.events.still.fast);
    hide Process, PreparePosition, UpdateInterpolator, FittedInv, FactorInv, Ramping, AtRestNow;
  }

  /** The goal a position command sets: the references with the given positions. */
  function Target(r: Reference, g: StaticPositionGoal): Reference {
    r.(joints := r.joints.(position := Overlay(r.joints.position, g.joints)),
       external := r.external.(position := Overlay(r.external.position, g.external)))
  }

  lemma PositionFitted(k: Maths, s: MotionStep, g: StaticPositionGoal, fast: bool)
    requires g.cartesian.None?
    ensures var s' := UpdateInterpolator(PreparePosition(k, s, g, fast));
            var ip, t := s'.interpolator, Target(s.references, g);
            && ip.conditions.operation == RampInPosition == ip.ramp.operation && ip.conditions.mode.JointMode?
            && ip.conditions.duration == ip.ramp.duration
            && ip.ramp.duration == (if fast then STATIC_GOAL_DURATION_SHORT else STATIC_GOAL_DURATION)
            && ip.ramp.start.joints == s.references.joints && ip.ramp.start.external == s.references.external
            && ip.ramp.goal.joints == t.joints && ip.ramp.goal.external == t.external
            && s'.timePassed == 0.0 && s'.sampleTime == s.sampleTime
  {
    hide Overlay, OverlayVec, OverlayPose;
  }

  lemma FitKeepsShape(s: MotionStep)
    ensures var r := UpdateInterpolator(s).references;
            r.joints == s.references.joints && r.external == s.references.external
  {
    hide Updated;
  }

  lemma PreparedReferences(k: Maths, s: MotionStep, g: StaticPositionGoal, fast: bool)
    ensures PreparePosition(k, s, g, fast).references == s.references
  {
    hide Overlay, OverlayVec, OverlayPose;
  }

  lemma PositionApplied(k: Maths, e: Motion)
    requires e.sm.current == STATIC && e.events.still.position && !e.events.run.rampDown
    ensures var p := Process(k, e);
            p.hasNew && p.hasActive && p.sm.current == STATIC
            && p.step == PreparePosition(k, e.step, e.events.positionGoal, e.events.still.fast)
  {
    hide PreparePosition;
  }

  // ---------------------------------------------------------------- Whole runs

  lemma StageStill(k: Maths, e: Motion, strict: bool)
    requires StillEntry(e, strict) && ModeInv(e)
    ensures StillBody(Emit(k, Refit(Process(k, e))), strict)
  {
    EnteredStages(e, strict);
    hide Process, Emit, Refit, StillBody, ModeInv, StillEntry;
    match e.sm.current
    case Stage(Normal, Running) => RunningStill(k, e, strict);
    case Stage(Normal, _) => assert false;
    case Stage(RampDown, NoSub) => RampStartStill(k, e, strict);
    case Stage(RampDown, Running) => RampingStill(k, e, strict);
    case Stage(RampDown, Finished) => StoppedStill(k, e, strict);
    case Stage(StaticGoal, sub) =>
      if !strict {
        MovingStatic(k, e);
      } else {
        match sub
        case NoSub => StaticStartStill(k, e);
        case Running => StaticRunStill(k, e);
        case Finished => StaticEndStill(k, e);
      }
  }

  /** With velocity goals the static stage may move; no more than shapes and times is claimed of it. */
  lemma MovingStatic(k: Maths, e: Motion)
    requires StillEntry(e, false) && e.sm.current.state.StaticGoal?
    ensures StillBody(Emit(k, Refit(Process(k, e))), false)
  {
    hide Process, Emit, Refit, Entered, Shaped, Ramping, AtRestNow;
    GuardNeverRejects(k, e);
    ProcessMovesNothing(k, e);
    FinishBasics(k, Process(k, e));
  }

  lemma EnteredStages(e: Motion, strict: bool)
    requires StillEntry(e, strict)
    ensures e.sm.current.state.Normal? ==> e.sm.current == RUNNING
  {
    hide FittedInv, FactorInv, Shaped, Ramping, AtRestNow, Quiet, Tracking;
    match e.sm.current
    case Stage(Normal, Running) =>
    case Stage(_, _) =>
  }

  lemma StillTick(k: Maths, m: Motion, i: Input, origin: seq<PointGoal>, strict: bool)
    requires StillInv(m, strict) && JointInv(m, origin) && Tolerable(i)
    ensures StillInv(Tick(k, m, i), strict)
  {
    hide Process, Emit, Refit, Prepare, Inv, StemsFrom, JointPoints, ModeInv, Shaped, Ramping, AtRestNow, Quiet,
         Tracking;
    TickInv(k, m, i);
    TickJoint(k, m, i, origin);
    PrepareInv(m, i);
    PrepareStill(m, i, strict);
    if i.ok {
      EntryStill(Prepare(m, i), strict);
      StageStill(k, Advance1(Prepare(m, i)), strict);
    }
  }

  lemma DoStill(k: Maths, m: Motion, a: Action, origin: seq<PointGoal>, strict: bool)
    requires StillInv(m, strict) && JointInv(m, origin) && JointAction(a)
             && (strict ==> !(a.SetStaticVelocity? && Accepted(m, a)))
    requires a.Message? ==> Fitting(a.input)
    ensures StillInv(Do(k, m, a), strict)
  {
    DoInv(k, m, a);
    if a.Message? {
      hide Tick, StillInv, JointInv;
      StillTick(k, m, a.input, origin, strict);
    } else {
      hide Tick, Inv, Shaped, StopsAll, RampReady, Halted, Settled, Still, PositionRamp, NoVelocity, JointInv;
    }
  }

  /** Joint commands only, every message within the spline array. */
  predicate JointSession(acts: seq<Action>) {
    forall a :: a in acts ==> JointAction(a) && (a.Message? ==> Fitting(a.input))
  }

  /** No velocity goal is accepted. */
  predicate NoVelocityGoal(k: Maths, m: Motion, acts: seq<Action>)
    decreases |acts|
  {
    acts == [] || (!(acts[0].SetStaticVelocity? && Accepted(m, acts[0]))
        && NoVelocityGoal(k, Do(k, m, acts[0]), acts[1..]))
  }

  lemma {:induction false} StillRun(k: Maths, m: Motion, acts: seq<Action>, origin: seq<PointGoal>, strict: bool)
    requires StillInv(m, strict) && JointInv(m, origin) && JointSession(acts) && (strict ==> NoVelocityGoal(k, m, acts))
    ensures StillInv(Run(k, m, acts), strict) && JointInv(Run(k, m, acts), origin + AddedIn(k, m, acts))
    decreases |acts|
  {
    hide Do, StillInv, JointInv, Added, JointAction, Fitting, Accepted;
    if acts == [] {
      assert origin + [] == origin;
    } else {
      DoStill(k, m, acts[0], origin, strict);
      DoJoint(k, m, acts[0], origin);
      StillRun(k, Do(k, m, acts[0]), acts[1..], origin + Added(m, acts[0]), strict);
      assert origin + Added(m, acts[0]) + AddedIn(k, Do(k, m, acts[0]), acts[1..]) == origin + AddedIn(k, m, acts);
    }
  }

  /** In every run of a joint session, through any stops, faults, session restarts and fast updates:
      from a moment outside the static stage with no velocity goal pending until the next velocity
      goal is given, the static stage has all joint velocities at exactly zero. What happened
      before, velocity goals included, does not matter. */
  lemma StaticStageIsStill(k: Maths, kind: SplineMethod, offset: int, past: seq<Action>, acts: seq<Action>)
    requires JointSession(past) && JointSession(acts) && NoVelocityGoal(k, Run(k, Initial(kind, offset), past), acts)
    requires var m := Run(k, Initial(kind, offset), past);
             !m.sm.current.state.StaticGoal? && !m.events.still.velocity
    ensures var m := Run(k, Initial(kind, offset), past + acts);
            && StillInv(m, true) && ModeInv(m)
            && JointInv(m, AddedIn(k, Initial(kind, offset), past)
               + AddedIn(k, Run(k, Initial(kind, offset), past), acts))
            && (m.sm.current.state.StaticGoal? ==> Quiet(m.step.references))
  {
    hide Run, StillInv, JointInv, Inv, NoVelocityGoal, JointSession, Initial;
    var m0 := Initial(kind, offset);
    InitialStill(kind, offset);
    StillRun(k, m0, past, [], false);
    var m, origin := Run(k, m0, past), AddedIn(k, m0, past);
    assert [] + origin == origin;
    Stricter(m);
    StillRun(k, m, acts, origin, true);
    RunConcat(k, m0, past, acts);
    JointMode(Run(k, m, acts), origin + AddedIn(k, m, acts));
    StaticIsQuiet(Run(k, m, acts));
  }

  lemma InitialStill(kind: SplineMethod, offset: int)
    ensures StillInv(Initial(kind, offset), false) && JointInv(Initial(kind, offset), [])
  {
    InitialInv(kind, offset);
  }

  /** Outside the static stage, with no velocity goal pending, rest is all that is known of it. */
  lemma Stricter(m: Motion)
    requires StillInv(m, false) && !m.sm.current.state.StaticGoal? && !m.events.still.velocity
    ensures StillInv(m, true)
  {
    hide Inv, Shaped, Ramping, AtRestNow, Quiet, Tracking;
  }

  lemma StaticIsQuiet(m: Motion)
    requires StillInv(m, true)
    ensures m.sm.current.state.StaticGoal? ==> Quiet(m.step.references)
  {
    hide Inv, Shaped, Ramping, AtRestNow, Quiet, Tracking;
  }

  lemma JointMode(m: Motion, origin: seq<PointGoal>)
    requires JointInv(m, origin)
    ensures ModeInv(m)
  {
  }
}
