/** A slow static position goal, from command to arrival: a stop ramp, a second entry of the static
    stage, and 5 s of motion. */
module SlowGoals {
  import opened Numeric
  import opened Quaternions
  import opened Splines
  import opened Messages
  import opened Interpolation
  import opened Machine
  import opened Soundness
  import opened Conservation
  import opened Stopping
  import opened Faults
  import opened StaticGoals
  import opened References
  import opened Races
  import opened Pursuits

  // ---------------------------------------------------------------- The start flag

  /** The static stage is entered and held under its start flag. */
  predicate StartInv(m: Motion) {
    m.sm.current == STATIC_START || m.sm.current == STATIC || (m.sm.hasPending && m.sm.pending == STATIC_START) ==>
      m.events.still.start
  }

  lemma TickStarts(k: Maths, m: Motion, i: Input)
    requires Inv(m) && StartInv(m)
    ensures StartInv(Tick(k, m, i))
  {
    var p := Prepare(m, i);
    PrepareInv(m, i);
    PrepareEvents(m, i);
    PrepareStarts(m, i);
    if i.ok {
      var e := Advance1(p);
      AdvanceStarts(p);
      EnterInv(p);
      GuardNeverRejects(k, e);
      ProcessEvents(k, e);
      StageKept(k, Process(k, e));
      FinishConserves(k, Process(k, e));
      hide Process, Emit, Refit, Prepare, Inv, FittedInv, FactorInv, Pipeline, StoredInv;
      assert Tick(k, m, i) == Emit(k, Refit(Process(k, e)));
    }
  }

  lemma PrepareStarts(m: Motion, i: Input)
    requires StartInv(m)
    ensures StartInv(Prepare(m, i))
  {
    hide ResetStep, Remainder;
  }

  lemma AdvanceStarts(p: Motion)
    requires Inv(p) && StartInv(p)
    ensures StartInv(Advance1(p))
  {
    hide FittedInv, FactorInv, GoalInv;
  }

  lemma {:induction false} RunStarts(k: Maths, m: Motion, acts: seq<Action>)
    requires Inv(m) && StartInv(m)
    ensures StartInv(Run(k, m, acts))
    decreases |acts|
  {
    hide Do, Inv, StartInv;
    if acts != [] {
      DoInv(k, m, acts[0]);
      DoStarts(k, m, acts[0]);
      RunStarts(k, Do(k, m, acts[0]), acts[1..]);
    }
  }

  lemma DoStarts(k: Maths, m: Motion, a: Action)
    requires Inv(m) && StartInv(m)
    ensures StartInv(Do(k, m, a))
  {
    hide Tick, Inv;
    if a.Message? { TickStarts(k, m, a.input); }
  }

  // ---------------------------------------------------------------- The way to the static stage

  /** The flags of a static stage that is still to be entered. */
  predicate Bound(e: Events) { e.run.stop && e.run.resume && e.still.start }

  /** The stop is reached: the static stage is next. */
  lemma ArriveAtStatic(k: Maths, m: Motion, i: Input, n: int)
    requires Braking(m, n) && Regular(i) && Bound(m.events) && Tick(k, m, i).sm.current == STOPPED
    ensures var m' := Tick(k, m, i);
            && m'.sm == StateManager(STOPPED, STATIC_START, true) && !m'.events.run.rampDown
            && m'.events.still == m.events.still && m'.events.positionGoal == m.events.positionGoal
  {
    hide Process, Emit, Refit, Prepare, Inv, Ramping, AtRestNow, Pipeline, StoredInv;
    PlainPrepare(m, i);
    var e := Advance1(Prepare(m, i));
    BrakeEntry(m, i, n);
    GuardNeverRejects(k, e);
    ProcessEvents(k, e);
    StageKept(k, Process(k, e));
    FinishConserves(k, Process(k, e));
    assert Tick(k, m, i) == Emit(k, Refit(Process(k, e)));
  }

  /** The message after the stop enters the static stage. */
  lemma EnterStatic(k: Maths, m: Motion, i: Input)
    requires m.sm == StateManager(STOPPED, STATIC_START, true) && Regular(i)
    ensures Tick(k, m, i).sm == StateManager(STATIC_START, STATIC, true) && Tick(k, m, i).events == m.events
  {
    hide Process, Emit, Refit, Prepare, Pipeline, StoredInv;
    PlainPrepare(m, i);
    var e := Advance1(Prepare(m, i));
    GuardNeverRejects(k, e);
    ProcessEvents(k, e);
    StageKept(k, Process(k, e));
    FinishConserves(k, Process(k, e));
    assert Tick(k, m, i) == Emit(k, Refit(Process(k, e)));
  }

  /** The message after a slow goal was given asks for the stop. */
  lemma LeaveStatic(k: Maths, m: Motion, i: Input)
    requires m.sm.current == STATIC && !m.sm.hasPending && Regular(i) && m.events.run.rampDown && !m.events.still.finish
    ensures Tick(k, m, i).sm == StateManager(STATIC, RAMP_START, true) && Tick(k, m, i).events == m.events
  {
    hide Process, Emit, Refit, Prepare, Pipeline, StoredInv;
    PlainPrepare(m, i);
    var e := Advance1(Prepare(m, i));
    GuardNeverRejects(k, e);
    ProcessEvents(k, e);
    StageKept(k, Process(k, e));
    FinishConserves(k, Process(k, e));
    assert Tick(k, m, i) == Emit(k, Refit(Process(k, e)));
  }

  // ---------------------------------------------------------------- A slow goal on its way

  /** Messages until a slow goal is taken up: one to ask for the stop, one to start it, 251 to reach it, one to
      enter the static stage and one to take the goal up. */
  const APPROACH_MESSAGES: nat := STOP_MESSAGES + 2

  /** A slow goal g has been given and not been taken up yet. */
  predicate Wanted(e: Events, g: StaticPositionGoal) {
    e.still.start && e.still.position && !e.still.velocity && !e.still.finish && !e.still.fast && e.positionGoal == g
  }

  /** At most n messages before g is taken up, from rest. Before the stop the static stage may be moving. */
  predicate Approaching(m: Motion, g: StaticPositionGoal, origin: seq<PointGoal>, n: int) {
    && StillInv(m, m.sm.current != STATIC) && JointInv(m, origin) && Wanted(m.events, g)
    && match m.sm.current
       case Stage(StaticGoal, Running) =>
         && Bound(m.events) && m.events.run.rampDown
         && (if m.sm.hasPending then m.sm.pending == RAMP_START
            && n >= APPROACH_MESSAGES - 1 else n >= APPROACH_MESSAGES)
       case Stage(StaticGoal, NoSub) => m.sm.hasPending && m.sm.pending == STATIC && !m.events.run.rampDown && n >= 1
       case Stage(RampDown, Finished) => m.sm.hasPending && m.sm.pending == STATIC_START && !m.events.run.rampDown
           && n >= 2
       case Stage(RampDown, _) => Bound(m.events) && Braking(m, n - 2)
       case _ => false
  }

  /** g has been taken up at rest. */
  predicate TakenUpAtRest(m: Motion, r: Reference, g: StaticPositionGoal) {
    && Pursuing(m, r, Target(r, g)) && NoVelocity(r.joints) && NoVelocity(r.external)
    && m.step.timePassed >= LOWEST_SAMPLE_TIME && m.step.interpolator.ramp.duration == STATIC_GOAL_DURATION
  }

  lemma CalmTick(k: Maths, m: Motion, i: Input, origin: seq<PointGoal>, strict: bool)
    requires StillInv(m, strict) && JointInv(m, origin) && Regular(i)
    ensures StillInv(Tick(k, m, i), strict) && JointInv(Tick(k, m, i), origin)
  {
    hide StillInv, JointInv, Tick;
    StillTick(k, m, i, origin, strict);
    TickJoint(k, m, i, origin);
  }

  lemma StillFacts(m: Motion, strict: bool)
    requires StillInv(m, strict)
    ensures Inv(m) && Shaped(m.step.references)
    ensures strict && m.sm.current.state.StaticGoal? ==>
              NoVelocity(m.step.references.joints) && NoVelocity(m.step.references.external)
  {
    hide Inv, Shaped, Ramping, AtRestNow, Tracking;
  }

  /** One message brings the goal one message closer, or takes it up. */
  lemma ApproachTick(k: Maths, m: Motion, i: Input, g: StaticPositionGoal, origin: seq<PointGoal>, n: int)
    requires Approaching(m, g, origin, n) && Regular(i) && k.RampEndpoints() && g.cartesian.None?
    ensures var m' := Tick(k, m, i);
            n >= 1 && (Approaching(m', g, origin, n - 1) || TakenUpAtRest(m', m.step.references, g))
  {
    hide Tick, StillInv, JointInv, Braking, Inv, Shaped, Maths.RampEndpoints, Pursuing, NoVelocity;
    var strict := m.sm.current != STATIC;
    CalmTick(k, m, i, origin, strict);
    StillFacts(m, strict);
    match m.sm.current
    case Stage(StaticGoal, Running) =>
      if m.sm.hasPending {
        StopAgain(k, m, i);
        BrakingStage(Tick(k, m, i), STOP_MESSAGES - 2);
        BrakingPhase(Tick(k, m, i), STOP_MESSAGES - 2, m, i, k);
        Stricter(Tick(k, m, i));
        BrakingLonger(Tick(k, m, i), STOP_MESSAGES - 2, n - 3);
      } else {
        LeaveStatic(k, m, i);
      }
    case Stage(StaticGoal, NoSub) => PositionTakenUp(k, m, i);
    case Stage(RampDown, Finished) => EnterStatic(k, m, i);
    case Stage(RampDown, _) => BrakePhase(k, m, i, n - 2);
    case _ =>
  }

  lemma BrakingLonger(m: Motion, n: int, n': int)
    requires Braking(m, n) && n' >= n && m.sm.current.state.RampDown?
    ensures Braking(m, n')
  {
    hide Inv, Ramping, AtRestNow, Shaped;
  }

  /** The first ramp message leads to a ramp stage. */
  lemma BrakingPhase(m': Motion, n: int, m: Motion, i: Input, k: Maths)
    requires Braking(m', n) && m' == Tick(k, m, i) && m.sm.hasPending && m.sm.pending == RAMP_START && Regular(i)
    ensures m'.sm.current == RAMP_START
  {
    hide Process, Emit, Refit, Braking;
    var e := Advance1(Prepare(m, i));
    GuardNeverRejects(k, e);
    StageKept(k, Process(k, e));
  }

  lemma BrakePhase(k: Maths, m: Motion, i: Input, n: int)
    requires Braking(m, n) && Regular(i) && Bound(m.events) && m.sm.current.state.RampDown?
    ensures var m' := Tick(k, m, i);
            && n >= 1
            && if m'.sm.current == STOPPED
               then
                 && m'.sm == StateManager(STOPPED, STATIC_START, true) && !m'.events.run.rampDown
                 && m'.events.still == m.events.still && m'.events.positionGoal == m.events.positionGoal
               else m'.sm.current == RAMPING && Braking(m', n - 1) && m'.events == m.events
  {
    hide Tick, Bound;
    BrakeTick(k, m, i, n);
    if Tick(k, m, i).sm.current == STOPPED {
      ArriveAtStatic(k, m, i, n);
    } else {
      RampStages(k, m, i, n);
    }
  }

  lemma RampStages(k: Maths, m: Motion, i: Input, n: int)
    requires Braking(m, n) && Regular(i) && m.sm.current.state.RampDown? && Tick(k, m, i).sm.current != STOPPED
    ensures Tick(k, m, i).sm.current == RAMPING
  {
    hide Process, Emit, Refit, Prepare, Inv, Ramping, AtRestNow;
    PlainPrepare(m, i);
    var e := Advance1(Prepare(m, i));
    BrakeEntry(m, i, n);
    GuardNeverRejects(k, e);
    StageKept(k, Process(k, e));
  }

  lemma ApproachRejects(k: Maths, m: Motion, a: Action, g: StaticPositionGoal, origin: seq<PointGoal>, n: int)
    requires Approaching(m, g, origin, n) && !a.Message? && !Accepted(m, a)
    ensures Approaching(Do(k, m, a), g, origin, n)
  {
    var strict := m.sm.current != STATIC;
    RejectedFrame(k, m, a);
    DoInv(k, m, a);
    var m' := Do(k, m, a);
    hide Do, Inv, Shaped, StopsAll, Halted, RampReady, SplineJoints, SplineCartesian, Quiet, Accepted, PositionRamp,
         NoVelocity, StemsFrom, JointPoints, DurationReached;
    assert m' == m.(step := m.step.(kind := m'.step.kind));
    assert StillInv(m', strict) && JointInv(m', origin) by {
      StillKind(m, m', strict);
      JointKind(m, m', origin);
    }
    hide StillInv, JointInv;
  }

  lemma StillKind(m: Motion, m': Motion, strict: bool)
    requires StillInv(m, strict) && Inv(m') && m' == m.(step := m.step.(kind := m'.step.kind))
    ensures StillInv(m', strict)
  {
    hide Inv, Shaped, StopsAll, Halted, RampReady, SplineJoints, SplineCartesian, Quiet, PositionRamp, NoVelocity;
  }

  lemma JointKind(m: Motion, m': Motion, origin: seq<PointGoal>)
    requires JointInv(m, origin) && m' == m.(step := m.step.(kind := m'.step.kind))
    ensures JointInv(m', origin)
  {
    hide JointPoints, QueueFrom, AllFrom, OneOf;
  }

  // ---------------------------------------------------------------- The whole run

  /** 5 s in samples of 4 ms, of which the take-up is the first. */
  const SLOW_MESSAGES: nat := APPROACH_MESSAGES + 1249

  /** The joints a goal names are where it says, and at rest. */
  predicate Reached(m: Motion, r: Reference, g: StaticPositionGoal) {
    && SameLengths(m.step.references, r)
    && Named(m.step.references.joints.position, g.joints) && Named(m.step.references.external.position, g.external)
    && NoVelocity(m.step.references.joints) && NoVelocity(m.step.references.external)
  }

  predicate Named(position: seq<real>, goal: seq<real>) {
    forall q :: 0 <= q < |position| && q < |goal| ==> position[q] == goal[q]
  }

  lemma LandedIsReached(m: Motion, r: Reference, r0: Reference, g: StaticPositionGoal)
    requires Landed(m, r, Target(r, g)) && NoVelocity(r.joints) && NoVelocity(r.external)
    requires SameLengths(m.step.references, r0) && m.step.sampleTime > 0.0
    ensures Reached(m, r0, g)
  {
    hide SameLengths;
    OffByNothing(m.step.references.joints.position, Overlay(r.joints.position, g.joints), r.joints.velocity,
        m.step.sampleTime);
    OffByNothing(m.step.references.external.position, Overlay(r.external.position, g.external), r.external.velocity,
        m.step.sampleTime);
  }

  lemma {:induction false} ApproachRun(k: Maths, m: Motion, g: StaticPositionGoal, acts: seq<Action>,
                                       origin: seq<PointGoal>, n: int)
    requires Approaching(m, g, origin, n) && k.RampEndpoints() && g.cartesian.None?
    requires Undisturbed(k, m, acts) && MessageCount(acts) >= n + 1249
    ensures Reached(Run(k, m, acts), m.step.references, g)
    decreases |acts|
  {
    hide Do, Approaching, TakenUpAtRest, Reached, Accepted, Maths.RampEndpoints, SameLengths, Regular;
    ApproachIsPositive(m, g, origin, n);
    var a, rest := acts[0], acts[1..];
    var m1 := Do(k, m, a);
    if a.Message? {
      MessageIsTick(k, m, a);
      ApproachTick(k, m, a.input, g, origin, n);
      TickLengths(k, m, a.input);
      if TakenUpAtRest(m1, m.step.references, g) {
        Arrives(k, m1, m.step.references, g, rest);
      } else {
        ApproachRun(k, m1, g, rest, origin, n - 1);
        ReachedFrom(Run(k, m1, rest), m1.step.references, m.step.references, g);
      }
    } else {
      RejectedFrame(k, m, a);
      ApproachRejects(k, m, a, g, origin, n);
      ApproachRun(k, m1, g, rest, origin, n);
    }
  }

  lemma ApproachIsPositive(m: Motion, g: StaticPositionGoal, origin: seq<PointGoal>, n: int)
    requires Approaching(m, g, origin, n)
    ensures n >= 1
  {
    hide StillInv, JointInv, Braking, Wanted, Bound;
    if m.sm.current.state.RampDown? && m.sm.current != STOPPED { BrakingIsPositive(m, n - 2); }
  }

  lemma ReachedFrom(m: Motion, r1: Reference, r: Reference, g: StaticPositionGoal)
    requires Reached(m, r1, g) && SameLengths(r1, r)
    ensures Reached(m, r, g)
  {
    hide Named, NoVelocity;
  }

  /** The rest of the way. */
  lemma Arrives(k: Maths, m: Motion, r: Reference, g: StaticPositionGoal, acts: seq<Action>)
    requires TakenUpAtRest(m, r, g) && k.RampEndpoints() && Undisturbed(k, m, acts) && MessageCount(acts) >= 1249
    ensures Reached(Run(k, m, acts), r, g)
  {
    hide Run, Do, Undisturbed, Maths.RampEndpoints, Pursuing, Landed, NoVelocity, Reached, SameLengths;
    PursuitRun(k, m, acts, r, Target(r, g));
    PursuitLengths(Run(k, m, acts), r, Target(r, g));
    LandedIsReached(Run(k, m, acts), r, r, g);
  }

  lemma PursuitLengths(m: Motion, r: Reference, t: Reference)
    requires Pursuing(m, r, t)
    ensures SameLengths(m.step.references, r) && m.step.sampleTime > 0.0
  {
    hide Inv;
  }

  /** The static stage has been told to end. */
  predicate Ending(m: Motion) { m.events.still.finish || (m.sm.hasPending && m.sm.pending == STATIC_END) }

  lemma SlowGoalIsGiven(k: Maths, m: Motion, g: StaticPositionGoal, origin: seq<PointGoal>)
    requires StillInv(m, false) && JointInv(m, origin) && StartInv(m) && g.cartesian.None?
    requires m.sm.current == STATIC && !Ending(m)
    ensures var m' := Do(k, m, SetStaticPosition(g, false));
            Approaching(m', g, origin, APPROACH_MESSAGES) && m'.step == m.step
  {
    var a := SetStaticPosition(g, false);
    DoStill(k, m, a, origin, false);
    DoJoint(k, m, a, origin);
    assert origin + Added(m, a) == origin;
    hide StillInv, JointInv, Braking, Tick;
  }

  /** A slow position goal given in a static stage that has not been told to end, even in one that is moving
      after a velocity goal or already stopping for an earlier slow goal, is reached exactly in every joint
      it names, within 1504 regular messages and whatever their sample times, and held at rest: the
      machine stops before it pursues the goal. */
  lemma SlowGoalIsReached(k: Maths, m: Motion, g: StaticPositionGoal, acts: seq<Action>, origin: seq<PointGoal>)
    requires StillInv(m, false) && JointInv(m, origin) && StartInv(m) && k.RampEndpoints() && g.cartesian.None?
    requires m.sm.current == STATIC && !Ending(m)
    requires Undisturbed(k, Do(k, m, SetStaticPosition(g, false)), acts) && MessageCount(acts) >= SLOW_MESSAGES
    ensures Reached(Run(k, Do(k, m, SetStaticPosition(g, false)), acts), m.step.references, g)
  {
    hide Do, Run, StillInv, JointInv, Maths.RampEndpoints, Undisturbed, Approaching, Reached;
    SlowGoalIsGiven(k, m, g, origin);
    ApproachRun(k, Do(k, m, SetStaticPosition(g, false)), g, acts, origin, APPROACH_MESSAGES);
  }

  /** In every run of a joint session, whatever it has done before. */
  lemma EverySlowGoalIsReached(k: Maths, kind: SplineMethod, offset: int, past: seq<Action>, g: StaticPositionGoal,
                               acts: seq<Action>)
    requires JointSession(past) && k.RampEndpoints() && g.cartesian.None?
    requires var m := Run(k, Initial(kind, offset), past);
             && m.sm.current == STATIC && !Ending(m)
             && Undisturbed(k, Do(k, m, SetStaticPosition(g, false)), acts)
    requires MessageCount(acts) >= SLOW_MESSAGES
    ensures var m := Run(k, Initial(kind, offset), past);
            Reached(Run(k, Do(k, m, SetStaticPosition(g, false)), acts), m.step.references, g)
  {
    hide Run, Do, StillInv, JointInv, Maths.RampEndpoints, Reached, JointSession, Undisturbed, Inv;
    var m0 := Initial(kind, offset);
    InitialStill(kind, offset);
    InitialInv(kind, offset);
    assert StartInv(m0);
    StillRun(k, m0, past, [], false);
    RunStarts(k, m0, past);
    SlowGoalIsReached(k, Run(k, m0, past), g, acts, [] + AddedIn(k, m0, past));
  }
}
