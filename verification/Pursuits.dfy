/** Static goals from command to arrival: a position goal is pursued along a ramp, a velocity goal is
    cruised. What the static stage was doing before may still be moving it. */
module Pursuits {
  import opened Numeric
  import opened Quaternions
  import opened Messages
  import opened Interpolation
  import opened Machine
  import opened Soundness
  import opened Stopping
  import opened References
  import opened StaticGoals
  import opened Races

  // ---------------------------------------------------------------- Undisturbed runs

  /** Regular messages; whatever commands there are, none is accepted. */
  predicate Undisturbed(k: Maths, m: Motion, acts: seq<Action>)
    decreases |acts|
  {
    acts == [] ||
    ((if acts[0].Message? then Regular(acts[0].input) else !Accepted(m, acts[0])) &&
     Undisturbed(k, Do(k, m, acts[0]), acts[1..]))
  }

  /** A rejected command changes nothing; a configuration changes the spline method. */
  lemma RejectedFrame(k: Maths, m: Motion, a: Action)
    requires !a.Message? && !Accepted(m, a)
    ensures Do(k, m, a) == m.(step := m.step.(kind := Do(k, m, a).step.kind))
  {
    hide Tick, Command;
  }

  /** The messages of a run, with the time between them. */
  function TotalTime(acts: seq<Action>): real {
    if acts == [] then 0.0 else (if acts[0].Message? then acts[0].input.sampleTime else 0.0) + TotalTime(acts[1..])
  }

  lemma TickLengths(k: Maths, m: Motion, i: Input)
    requires Regular(i)
    ensures SameLengths(Tick(k, m, i).step.references, m.step.references)
  {
    hide Process, Emit, SameLengths;
    var e := Advance1(Prepare(m, i));
    ProcessMovesNothing(k, e);
    RefitLengths(Process(k, e));
    EmitLengths(k, Refit(Process(k, e)));
    assert e.step.references == m.step.references;
    LengthsChain(Tick(k, m, i).step.references, Refit(Process(k, e)).step.references, m.step.references);
  }

  lemma RefitLengths(p: Motion)
    ensures SameLengths(Refit(p).step.references, p.step.references)
  {
    hide Updated;
  }

  lemma LengthsChain(a: Reference, b: Reference, c: Reference)
    requires SameLengths(a, b) && SameLengths(b, c)
    ensures SameLengths(a, c)
  {
  }

  // ---------------------------------------------------------------- A static ramp in charge

  /** A joint ramp is in charge of the static stage; nothing else is asked for. */
  predicate Steered(m: Motion, op: Operation) {
    var ip := m.step.interpolator;
    && Inv(m) && Shaped(m.step.references) && m.step.sampleTime >= LOWEST_SAMPLE_TIME
    && m.sm.current == STATIC && !m.sm.hasPending && m.hasActive && !m.controller.normal
    && !m.events.still.position && !m.events.still.velocity && !m.events.still.finish && !m.events.run.rampDown
    && ip.conditions.operation == op == ip.ramp.operation && ip.conditions.mode.JointMode?
    && ip.conditions.duration == ip.ramp.duration > 0.0
  }

  /** Nothing to process: a message only evaluates the ramp. */
  lemma SteeredTick(k: Maths, m: Motion, i: Input, op: Operation)
    requires Steered(m, op) && Regular(i)
    ensures Tick(k, m, i) == Emit(k, Receive(m, i).(hasNew := false))
  {
    PlainPrepare(m, i);
    var e := Advance1(Prepare(m, i));
    hide Emit, Prepare, Inv, Shaped, PreparePosition, PrepareVelocity;
    assert e == Receive(m, i).(hasNew := false);
    assert Process(k, e) == e;
  }

  /** The references such a message leaves. */
  function Ramped(k: Maths, m: Motion, i: Input): Reference {
    Evaluated(k, m.step.interpolator, m.step.references, i.sampleTime, m.step.timePassed + i.sampleTime)
  }

  lemma SteeredStep(k: Maths, m: Motion, i: Input, op: Operation)
    requires Steered(m, op) && Regular(i)
    ensures var m' := Tick(k, m, i);
            && Steered(m', op) && m'.step.interpolator == m.step.interpolator && m'.step.sampleTime == i.sampleTime
            && m'.step.timePassed == m.step.timePassed + i.sampleTime && m'.step.references == Ramped(k, m, i)
            && SameLengths(m'.step.references, m.step.references)
  {
    var e := Receive(m, i).(hasNew := false);
    TickInv(k, m, i);
    TickShaped(k, m, i);
    TickLengths(k, m, i);
    SteeredTick(k, m, i, op);
    NoFade(k, m.controller, e.outputs, EvaluateInterpolator(k, e.step));
    hide Tick, Inv, Shaped, Evaluated, FadedReferences, FollowedOutputs, SameLengths;
  }

  lemma SteeredRejects(k: Maths, m: Motion, a: Action, op: Operation)
    requires Steered(m, op) && !a.Message? && !Accepted(m, a)
    ensures Steered(Do(k, m, a), op)
  {
    DoInv(k, m, a);
    RejectedFrame(k, m, a);
    hide Do, Inv, Shaped, Accepted;
  }

  // ---------------------------------------------------------------- Position goals

  /** A position goal is being pursued, from the references `start` to `goal`. */
  predicate Pursuing(m: Motion, start: Reference, goal: Reference) {
    var ramp := m.step.interpolator.ramp;
    && Steered(m, RampInPosition)
    && ramp.start.joints == start.joints && ramp.start.external == start.external
    && ramp.goal.joints == goal.joints && ramp.goal.external == goal.external
    && PositionRamp(ramp, m.step.references.joints, start.joints, goal.joints)
    && PositionRamp(ramp, m.step.references.external, start.external, goal.external)
  }

  /** Where a pursuit that is over stands: at the goal, plus one sample of the start velocity. */
  predicate Landed(m: Motion, start: Reference, goal: Reference) {
    var r := m.step.references;
    && OffBy(r.joints.position, goal.joints.position, start.joints.velocity, m.step.sampleTime)
    && OffBy(r.external.position, goal.external.position, start.external.velocity, m.step.sampleTime)
    && r.joints.velocity == start.joints.velocity && r.external.velocity == start.external.velocity
  }

  predicate OffBy(p: seq<real>, g: seq<real>, v: seq<real>, dt: real) {
    |p| == |g| == |v| && forall q :: 0 <= q < |g| ==> p[q] == g[q] + dt * v[q]
  }

  /** From the end of its duration on, a pursuit has landed. */
  predicate Punctual(m: Motion, start: Reference, goal: Reference) {
    m.step.timePassed >= m.step.interpolator.ramp.duration ==> Landed(m, start, goal)
  }

  lemma PursuitTick(k: Maths, m: Motion, i: Input, start: Reference, goal: Reference)
    requires Pursuing(m, start, goal) && Regular(i) && k.RampEndpoints()
    ensures var m' := Tick(k, m, i);
            && Pursuing(m', start, goal) && Punctual(m', start, goal)
            && m'.step.timePassed == m.step.timePassed + i.sampleTime
            && m'.step.interpolator.ramp.duration == m.step.interpolator.ramp.duration
  {
    hide Steered, Tick, PositionRamp, Maths.RampEndpoints, Landed;
    SteeredStep(k, m, i, RampInPosition);
    PursuitSizes(m, Tick(k, m, i), start, goal);
    if Tick(k, m, i).step.timePassed >= m.step.interpolator.ramp.duration {
      PursuitLands(k, m, i, start, goal);
    }
  }

  lemma PursuitSizes(m: Motion, m': Motion, start: Reference, goal: Reference)
    requires Pursuing(m, start, goal) && Steered(m', RampInPosition)
    requires m'.step.interpolator == m.step.interpolator && SameLengths(m'.step.references, m.step.references)
    ensures Pursuing(m', start, goal)
  {
    hide Inv;
  }

  lemma PursuitLands(k: Maths, m: Motion, i: Input, start: Reference, goal: Reference)
    requires Pursuing(m, start, goal) && Regular(i) && k.RampEndpoints()
    requires m.step.timePassed + i.sampleTime >= m.step.interpolator.ramp.duration
    requires var s := Tick(k, m, i).step;
             s.references == Ramped(k, m, i) && s.sampleTime == i.sampleTime
    ensures Landed(Tick(k, m, i), start, goal)
  {
    hide Tick, Inv, RampJoints, Shaped, Maths.RampEndpoints;
    var ip, r := m.step.interpolator, m.step.references;
    var d := ip.ramp.duration;
    PositionRampEnd(k, ip.ramp, r.joints, start.joints, goal.joints, i.sampleTime, d);
    PositionRampEnd(k, ip.ramp, r.external, start.external, goal.external, i.sampleTime, d);
    PositionRampLaw(k, ip.ramp, r.joints, start.joints, goal.joints, i.sampleTime, d);
    PositionRampLaw(k, ip.ramp, r.external, start.external, goal.external, i.sampleTime, d);
    assert Saturate(m.step.timePassed + i.sampleTime, 0.0, ip.conditions.duration) == d;
  }

  lemma PursuitRejects(k: Maths, m: Motion, a: Action, start: Reference, goal: Reference)
    requires Pursuing(m, start, goal) && !a.Message? && !Accepted(m, a)
    ensures var m' := Do(k, m, a);
            && Pursuing(m', start, goal) && (Punctual(m, start, goal) ==> Punctual(m', start, goal))
            && m'.step.timePassed == m.step.timePassed
            && m'.step.interpolator.ramp.duration == m.step.interpolator.ramp.duration
  {
    SteeredRejects(k, m, a, RampInPosition);
    RejectedFrame(k, m, a);
    hide Do, Steered, PositionRamp, Accepted;
  }

  /** A pursuit goes on until it lands, and then stays landed. */
  lemma {:induction false} PursuitRun(k: Maths, m: Motion, acts: seq<Action>, start: Reference, goal: Reference)
    requires Pursuing(m, start, goal) && k.RampEndpoints() && Undisturbed(k, m, acts)
    requires MessageCount(acts) > 0 || Punctual(m, start, goal)
    ensures var m' := Run(k, m, acts);
            && Pursuing(m', start, goal) && Punctual(m', start, goal)
            && m'.step.timePassed >= m.step.timePassed + LOWEST_SAMPLE_TIME * MessageCount(acts) as real
            && m'.step.interpolator.ramp.duration == m.step.interpolator.ramp.duration
    decreases |acts|
  {
    hide Do, Pursuing, Punctual, Maths.RampEndpoints, Accepted;
    if acts != [] {
      var a := acts[0];
      if a.Message? {
        MessageIsTick(k, m, a);
        PursuitTick(k, m, a.input, start, goal);
      } else {
        PursuitRejects(k, m, a, start, goal);
      }
      PursuitRun(k, Do(k, m, a), acts[1..], start, goal);
    }
  }

  /** The message that takes a position goal up, whatever the stage was doing. */
  lemma PositionTakenUp(k: Maths, m: Motion, i: Input)
    requires Inv(m) && Shaped(m.step.references) && Regular(i)
    requires m.sm.current != IDLE && UpdateState(m.sm).current == STATIC
    requires m.events.still.position && !m.events.still.velocity && !m.events.still.finish && !m.events.run.rampDown
    requires m.events.positionGoal.cartesian.None? && k.RampEndpoints()
    ensures var m' := Tick(k, m, i);
            && Pursuing(m', m.step.references, Target(m.step.references, m.events.positionGoal))
            && m'.step.timePassed == i.sampleTime
            && m'.step.interpolator.ramp.duration ==
                 (if m.events.still.fast then STATIC_GOAL_DURATION_SHORT else STATIC_GOAL_DURATION)
  {
    var e := Advance1(Prepare(m, i));
    PlainPrepare(m, i);
    TickInv(k, m, i);
    TickShaped(k, m, i);
    TickLengths(k, m, i);
    GuardNeverRejects(k, e);
    ProcessEvents(k, e);
    PositionApplied(k, e);
    hide Process, Emit, Prepare, Inv, Shaped, PreparePosition, UpdateInterpolator, Overlay, SameLengths,
         Maths.RampEndpoints;
    var p := Process(k, e);
    PositionFitted(k, e.step, e.events.positionGoal, e.events.still.fast);
    ProcessMovesNothing(k, e);
    assert Tick(k, m, i) == Emit(k, Refit(p));
    EmitElapses(k, Refit(p));
    EmitFrame(k, Refit(p));
    TakenUpSizes(Tick(k, m, i), m.step.references, m.events.positionGoal);
  }

  lemma TakenUpSizes(m: Motion, r: Reference, g: StaticPositionGoal)
    requires Steered(m, RampInPosition) && SameLengths(m.step.references, r)
    requires var ramp, t := m.step.interpolator.ramp, Target(r, g);
             && ramp.start.joints == r.joints && ramp.start.external == r.external
             && ramp.goal.joints == t.joints && ramp.goal.external == t.external
    ensures Pursuing(m, r, Target(r, g))
  {
    hide Inv;
  }

  // ---------------------------------------------------------------- Fast position goals

  /** 0.1 s in samples of 4 ms. */
  const FAST_MESSAGES: nat := 25

  /** The static stage, open to a new goal. */
  predicate Open(m: Motion) {
    Inv(m) && Shaped(m.step.references) && m.sm.current == STATIC && !m.sm.hasPending && !m.events.still.finish
  }

  /** From command to arrival: 25 regular messages after a fast position goal was given in the static stage
      every joint is at its goal plus one sample of the velocity it had when the goal was given, and
      keeps that velocity. */
  lemma FastGoalLands(k: Maths, m: Motion, g: StaticPositionGoal, acts: seq<Action>)
    requires Open(m) && g.cartesian.None? && k.RampEndpoints()
    requires Undisturbed(k, Do(k, m, SetStaticPosition(g, true)), acts) && MessageCount(acts) >= FAST_MESSAGES
    ensures var m' := Run(k, Do(k, m, SetStaticPosition(g, true)), acts);
            Pursuing(m', m.step.references, Target(m.step.references, g))
                && Landed(m', m.step.references, Target(m.step.references, g))
  {
    hide Do, Inv, Shaped, Maths.RampEndpoints, Landed, Pursuing, Undisturbed, Run;
    GivenIsDone(k, m, g);
    FirstPursuit(k, Given(m, g), acts, FAST_MESSAGES);
  }

  /** Up to the first message nothing happens; that message takes the goal up. */
  lemma {:induction false} FirstPursuit(k: Maths, m: Motion, acts: seq<Action>, n: nat)
    requires Inv(m) && Shaped(m.step.references) && k.RampEndpoints()
    requires m.sm.current != IDLE && UpdateState(m.sm).current == STATIC
    requires m.events.still.position && !m.events.still.velocity && !m.events.still.finish && !m.events.run.rampDown
    requires m.events.positionGoal.cartesian.None?
    requires Undisturbed(k, m, acts) && MessageCount(acts) >= n > 0
    requires LOWEST_SAMPLE_TIME * n as real >= if m.events.still.fast then STATIC_GOAL_DURATION_SHORT
             else STATIC_GOAL_DURATION
    ensures var m', r := Run(k, m, acts), m.step.references;
            Pursuing(m', r, Target(r, m.events.positionGoal)) && Landed(m', r, Target(r, m.events.positionGoal))
    decreases |acts|
  {
    hide Do, Inv, Shaped, Maths.RampEndpoints, Landed, Pursuing, Accepted;
    var a, rest := acts[0], acts[1..];
    if a.Message? {
      MessageIsTick(k, m, a);
      PositionTakenUp(k, m, a.input);
      var m1 := Do(k, m, a);
      var r := m.step.references;
      var t := Target(r, m.events.positionGoal);
      PursuitRun(k, m1, rest, r, t);
    } else {
      RejectedFrame(k, m, a);
      DoInv(k, m, a);
      FirstPursuit(k, Do(k, m, a), rest, n);
    }
  }

  /** So a fast position goal is reached exactly if the joints were at rest when it was given; otherwise it
      is missed by one sample of their velocities, with every message from then on. */
  lemma FastGoalReachedIff(k: Maths, m: Motion, g: StaticPositionGoal, acts: seq<Action>)
    requires Open(m) && g.cartesian.None? && k.RampEndpoints()
    requires Undisturbed(k, Do(k, m, SetStaticPosition(g, true)), acts) && MessageCount(acts) >= FAST_MESSAGES
    ensures var r, r' := m.step.references, Run(k, Do(k, m, SetStaticPosition(g, true)), acts).step.references;
            && (r'.joints.position == Overlay(r.joints.position, g.joints) <==> NoVelocity(r.joints))
            && (r'.external.position == Overlay(r.external.position, g.external) <==> NoVelocity(r.external))
  {
    hide Do, Inv, Shaped, Maths.RampEndpoints, Undisturbed, Run, Overlay, PositionRamp;
    FastGoalLands(k, m, g, acts);
    var m', r := Run(k, Do(k, m, SetStaticPosition(g, true)), acts), m.step.references;
    assert m'.step.sampleTime > 0.0;
    OffByNothing(m'.step.references.joints.position, Overlay(r.joints.position, g.joints), r.joints.velocity,
        m'.step.sampleTime);
    OffByNothing(m'.step.references.external.position, Overlay(r.external.position, g.external), r.external.velocity,
        m'.step.sampleTime);
  }

  lemma OffByNothing(p: seq<real>, g: seq<real>, v: seq<real>, dt: real)
    requires OffBy(p, g, v, dt) && dt > 0.0
    ensures p == g <==> forall q :: 0 <= q < |v| ==> v[q] == 0.0
  {
    if p == g {
      forall q | 0 <= q < |v| ensures v[q] == 0.0 { Offset(g[q], dt, v[q]); }
    }
    if forall q :: 0 <= q < |v| ==> v[q] == 0.0 {
      forall q | 0 <= q < |g| ensures p[q] == g[q] { Offset(g[q], dt, v[q]); }
    }
  }

  /** In a static stage at rest, such as every one that has been given no velocity goal, a fast position goal
      is reached exactly and held at rest. */
  lemma FastGoalIsReached(k: Maths, m: Motion, g: StaticPositionGoal, acts: seq<Action>)
    requires Open(m) && Quiet(m.step.references) && g.cartesian.None? && k.RampEndpoints()
    requires Undisturbed(k, Do(k, m, SetStaticPosition(g, true)), acts) && MessageCount(acts) >= FAST_MESSAGES
    ensures var r, r' := m.step.references, Run(k, Do(k, m, SetStaticPosition(g, true)), acts).step.references;
            && r'.joints.position == Overlay(r.joints.position, g.joints) && NoVelocity(r'.joints)
            && r'.external.position == Overlay(r.external.position, g.external) && NoVelocity(r'.external)
  {
    hide Do, Inv, Shaped, Maths.RampEndpoints, Undisturbed, Run, Overlay, Pursuing;
    FastGoalLands(k, m, g, acts);
    FastGoalReachedIff(k, m, g, acts);
  }

  // ---------------------------------------------------------------- Velocity goals

  /** The goal a velocity command sets: the references with the given velocities. */
  function Speeds(r: Reference, g: StaticVelocityGoal): Reference {
    r.(joints := r.joints.(velocity := Overlay(r.joints.velocity, g.joints)),
       external := r.external.(velocity := Overlay(r.external.velocity, g.external)))
  }

  /** A velocity goal is being followed, from the velocities of `start` to those of `goal`. */
  predicate Cruising(m: Motion, start: Reference, goal: Reference) {
    var ramp := m.step.interpolator.ramp;
    && Steered(m, RampInVelocity)
    && ramp.start.joints == start.joints && ramp.start.external == start.external
    && ramp.goal.joints == goal.joints && ramp.goal.external == goal.external
    && SameLengths(start, m.step.references) && SameLengths(goal, m.step.references)
  }

  /** The joints have the goal's velocities. */
  predicate AtSpeed(m: Motion, goal: Reference) {
    m.step.references.joints.velocity == goal.joints.velocity
        && m.step.references.external.velocity == goal.external.velocity
  }

  /** From the end of its duration on, a velocity goal is met. */
  predicate UpToSpeed(m: Motion, goal: Reference) {
    m.step.timePassed >= m.step.interpolator.ramp.duration ==> AtSpeed(m, goal)
  }

  /** p is q, moved for a time dt at the velocities v. */
  predicate Moved(p: seq<real>, q: seq<real>, v: seq<real>, dt: real) {
    |p| == |q| == |v| && forall j :: 0 <= j < |p| ==> p[j] == q[j] + dt * v[j]
  }

  /** A message of a cruise: the velocities are eased from start to goal, and every position moves by one
      sample of the new velocity. */
  lemma CruiseTick(k: Maths, m: Motion, i: Input, start: Reference, goal: Reference)
    requires Cruising(m, start, goal) && Regular(i) && k.RampEndpoints()
    ensures var m', r := Tick(k, m, i), m.step.references;
            var r' := m'.step.references;
            && Cruising(m', start, goal) && UpToSpeed(m', goal)
            && Moved(r'.joints.position, r.joints.position, r'.joints.velocity, i.sampleTime)
            && Moved(r'.external.position, r.external.position, r'.external.velocity, i.sampleTime)
            && m'.step.timePassed == m.step.timePassed + i.sampleTime
            && m'.step.interpolator.ramp.duration == m.step.interpolator.ramp.duration
  {
    hide Tick, Inv, RampJoints, Maths.RampEndpoints, Maths.RampUp;
    SteeredStep(k, m, i, RampInVelocity);
    var ip, r := m.step.interpolator, m.step.references;
    var t := Saturate(m.step.timePassed + i.sampleTime, 0.0, ip.conditions.duration);
    VelocityRampLaw(k, ip.ramp, r.joints, start.joints, goal.joints, i.sampleTime, t);
    VelocityRampLaw(k, ip.ramp, r.external, start.external, goal.external, i.sampleTime, t);
  }

  /** The joint ramp of a velocity goal. */
  lemma VelocityRampLaw(k: Maths, r: SoftRamp, j: JointGoal, start: JointGoal, goal: JointGoal, dt: real, t: real)
    requires r.operation == RampInVelocity && ShapedJoints(j) && SameSize(start, j) && SameSize(goal, j)
    requires k.RampEndpoints() && r.duration > 0.0
    ensures var j' := RampJoints(k, r, j, start, goal, dt, t);
            && SameSize(j', j) && Moved(j'.position, j.position, j'.velocity, dt)
            && (forall q :: 0 <= q < |j'.velocity| ==>
                  j'.velocity[q] == Mix(start.velocity[q], goal.velocity[q], k.RampUp(Progress(t, r.duration))))
            && (t >= r.duration ==> j'.velocity == goal.velocity)
  {
    var j' := RampJoints(k, r, j, start, goal, dt, t);
    if t >= r.duration {
      ProgressEnd(t, r.duration);
      assert k.RampUp(1.0) == 1.0;
      forall q | 0 <= q < |goal.velocity| ensures j'.velocity[q] == goal.velocity[q] {
        MixEnds(start.velocity[q], goal.velocity[q]);
      }
    }
  }

  lemma CruiseRejects(k: Maths, m: Motion, a: Action, start: Reference, goal: Reference)
    requires Cruising(m, start, goal) && !a.Message? && !Accepted(m, a)
    ensures var m' := Do(k, m, a);
            && Cruising(m', start, goal) && (UpToSpeed(m, goal) ==> UpToSpeed(m', goal))
            && m'.step.references == m.step.references && m'.step.timePassed == m.step.timePassed
            && m'.step.interpolator.ramp.duration == m.step.interpolator.ramp.duration
  {
    SteeredRejects(k, m, a, RampInVelocity);
    RejectedFrame(k, m, a);
    hide Do, Steered, SameLengths, Accepted;
  }

  /** One step of a cruise, message or rejected command. */
  lemma CruiseStep(k: Maths, m: Motion, a: Action, start: Reference, goal: Reference)
    requires Cruising(m, start, goal) && k.RampEndpoints()
    requires if a.Message? then Regular(a.input) else !Accepted(m, a)
    ensures var m', dt := Do(k, m, a), if a.Message? then a.input.sampleTime else 0.0;
            && Cruising(m', start, goal) && (a.Message? || UpToSpeed(m, goal) ==> UpToSpeed(m', goal))
            && m'.step.timePassed == m.step.timePassed + dt
            && m'.step.interpolator.ramp.duration == m.step.interpolator.ramp.duration
            && (m.step.timePassed >= m.step.interpolator.ramp.duration ==>
                  Travelled(m'.step.references, m.step.references, goal, dt))
  {
    hide Do, Tick, Cruising, UpToSpeed, Maths.RampEndpoints, Accepted, Moved;
    CruiseSizes(m, start, goal);
    if a.Message? {
      MessageIsTick(k, m, a);
      CruiseTick(k, m, a.input, start, goal);
      Speedy(Do(k, m, a), goal);
    } else {
      CruiseRejects(k, m, a, start, goal);
      StandsStill(m.step.references.joints.position, goal.joints.velocity);
      StandsStill(m.step.references.external.position, goal.external.velocity);
    }
  }

  /** r' is r after a time dt at the speeds of the goal. */
  predicate Travelled(r': Reference, r: Reference, goal: Reference, dt: real) {
    && Moved(r'.joints.position, r.joints.position, goal.joints.velocity, dt)
    && Moved(r'.external.position, r.external.position, goal.external.velocity, dt)
  }

  /** A cruise gets up to speed. */
  lemma {:induction false} CruiseRun(k: Maths, m: Motion, acts: seq<Action>, start: Reference, goal: Reference)
    requires Cruising(m, start, goal) && k.RampEndpoints() && Undisturbed(k, m, acts)
    requires MessageCount(acts) > 0 || UpToSpeed(m, goal)
    ensures var m' := Run(k, m, acts);
            && Cruising(m', start, goal) && UpToSpeed(m', goal)
            && m'.step.timePassed >= m.step.timePassed + LOWEST_SAMPLE_TIME * MessageCount(acts) as real
            && m'.step.interpolator.ramp.duration == m.step.interpolator.ramp.duration
    decreases |acts|
  {
    hide Do, Cruising, UpToSpeed, Maths.RampEndpoints, Accepted, Travelled;
    if acts != [] {
      CruiseStep(k, m, acts[0], start, goal);
      CruiseRun(k, Do(k, m, acts[0]), acts[1..], start, goal);
    }
  }

  /** Once up to speed, a cruise covers exactly speed times time. */
  lemma {:induction false} CruiseDistance(k: Maths, m: Motion, acts: seq<Action>, start: Reference, goal: Reference)
    requires Cruising(m, start, goal) && k.RampEndpoints() && Undisturbed(k, m, acts)
    requires m.step.timePassed >= m.step.interpolator.ramp.duration
    ensures Travelled(Run(k, m, acts).step.references, m.step.references, goal, TotalTime(acts))
    decreases |acts|
  {
    hide Do, Cruising, UpToSpeed, Maths.RampEndpoints, Accepted, Moved;
    CruiseSizes(m, start, goal);
    if acts == [] {
      StandsStill(m.step.references.joints.position, goal.joints.velocity);
      StandsStill(m.step.references.external.position, goal.external.velocity);
    } else {
      var a := acts[0];
      var m1 := Do(k, m, a);
      var dt := if a.Message? then a.input.sampleTime else 0.0;
      CruiseStep(k, m, a, start, goal);
      CruiseDistance(k, m1, acts[1..], start, goal);
      var r, r1, r2 := m.step.references, m1.step.references, Run(k, m, acts).step.references;
      var t := TotalTime(acts[1..]);
      MovedOn(r2.joints.position, r1.joints.position, r.joints.position, goal.joints.velocity, t, dt);
      MovedOn(r2.external.position, r1.external.position, r.external.position, goal.external.velocity, t, dt);
    }
  }

  lemma CruiseSizes(m: Motion, start: Reference, goal: Reference)
    requires Cruising(m, start, goal)
    ensures |m.step.references.joints.position| == |goal.joints.velocity|
    ensures |m.step.references.external.position| == |goal.external.velocity|
  {
    hide Inv;
  }

  lemma Speedy(m: Motion, goal: Reference)
    requires UpToSpeed(m, goal)
    ensures m.step.timePassed >= m.step.interpolator.ramp.duration ==>
              && m.step.references.joints.velocity == goal.joints.velocity
              && m.step.references.external.velocity == goal.external.velocity
  {
  }

  lemma StandsStill(p: seq<real>, v: seq<real>)
    requires |p| == |v|
    ensures Moved(p, p, v, 0.0)
  {
  }

  lemma MovedOn(p: seq<real>, q: seq<real>, r: seq<real>, v: seq<real>, s: real, t: real)
    requires Moved(p, q, v, s) && Moved(q, r, v, t)
    ensures Moved(p, r, v, t + s)
  {
    forall j | 0 <= j < |p| ensures p[j] == r[j] + (t + s) * v[j] {
      Distribute(s, t, v[j]);
    }
  }

  lemma Distribute(s: real, t: real, v: real)
    ensures (t + s) * v == t * v + s * v
  {
  }

  lemma VelocityFitted(s: MotionStep, g: StaticVelocityGoal, fast: bool)
    requires g.cartesian.None?
    ensures var s' := UpdateInterpolator(PrepareVelocity(s, g, fast));
            var ip, t := s'.interpolator, Speeds(s.references, g);
            && ip.conditions.operation == RampInVelocity == ip.ramp.operation && ip.conditions.mode.JointMode?
            && ip.conditions.duration == ip.ramp.duration
            && ip.ramp.duration == (if fast then STATIC_GOAL_DURATION_SHORT else STATIC_GOAL_DURATION)
            && ip.ramp.start.joints == s.references.joints && ip.ramp.start.external == s.references.external
            && ip.ramp.goal.joints == t.joints && ip.ramp.goal.external == t.external
            && s'.timePassed == 0.0 && s'.sampleTime == s.sampleTime
  {
    hide Overlay, OverlayVec;
  }

  lemma VelocityApplied(k: Maths, e: Motion)
    requires e.sm.current == STATIC && e.events.still.velocity && !e.events.still.position && !e.events.run.rampDown
    ensures var p := Process(k, e);
            p.hasNew && p.hasActive && p.sm.current == STATIC
            && p.step == PrepareVelocity(e.step, e.events.velocityGoal, e.events.still.fast)
  {
    hide PrepareVelocity;
  }

  /** The message that takes a velocity goal up. */
  lemma VelocityTakenUp(k: Maths, m: Motion, i: Input)
    requires Inv(m) && Shaped(m.step.references) && Regular(i)
    requires m.sm.current != IDLE && UpdateState(m.sm).current == STATIC
    requires m.events.still.velocity && !m.events.still.position && !m.events.still.finish && !m.events.run.rampDown
    requires m.events.velocityGoal.cartesian.None?
    ensures var m' := Tick(k, m, i);
            && Cruising(m', m.step.references, Speeds(m.step.references, m.events.velocityGoal))
            && m'.step.timePassed == i.sampleTime
            && m'.step.interpolator.ramp.duration ==
                 (if m.events.still.fast then STATIC_GOAL_DURATION_SHORT else STATIC_GOAL_DURATION)
  {
    var e := Advance1(Prepare(m, i));
    PlainPrepare(m, i);
    TickInv(k, m, i);
    TickShaped(k, m, i);
    TickLengths(k, m, i);
    GuardNeverRejects(k, e);
    ProcessEvents(k, e);
    VelocityApplied(k, e);
    hide Process, Emit, Prepare, Inv, Shaped, PrepareVelocity, UpdateInterpolator, Overlay, SameLengths;
    var p := Process(k, e);
    VelocityFitted(e.step, e.events.velocityGoal, e.events.still.fast);
    ProcessMovesNothing(k, e);
    assert Tick(k, m, i) == Emit(k, Refit(p));
    EmitElapses(k, Refit(p));
    EmitFrame(k, Refit(p));
    SpeedSizes(Tick(k, m, i).step.references, m.step.references, m.events.velocityGoal);
  }

  lemma SpeedSizes(a: Reference, r: Reference, g: StaticVelocityGoal)
    requires SameLengths(a, r)
    ensures SameLengths(r, a) && SameLengths(Speeds(r, g), a)
  {
  }

  lemma {:induction false} FirstCruise(k: Maths, m: Motion, acts: seq<Action>)
    requires Inv(m) && Shaped(m.step.references) && k.RampEndpoints() && m.sm.current == STATIC && !m.sm.hasPending
    requires m.events.still.velocity && !m.events.still.position && !m.events.still.finish && !m.events.run.rampDown
    requires m.events.velocityGoal.cartesian.None? && m.events.still.fast
    requires Undisturbed(k, m, acts) && MessageCount(acts) >= FAST_MESSAGES
    ensures var m', r := Run(k, m, acts), m.step.references;
            Cruising(m', r, Speeds(r, m.events.velocityGoal)) && AtSpeed(m', Speeds(r, m.events.velocityGoal))
    decreases |acts|
  {
    hide Do, Inv, Shaped, Maths.RampEndpoints, AtSpeed, Cruising, Accepted;
    var a, rest := acts[0], acts[1..];
    if a.Message? {
      MessageIsTick(k, m, a);
      VelocityTakenUp(k, m, a.input);
      CruiseRun(k, Do(k, m, a), rest, m.step.references, Speeds(m.step.references, m.events.velocityGoal));
    } else {
      RejectedFrame(k, m, a);
      DoInv(k, m, a);
      FirstCruise(k, Do(k, m, a), rest);
    }
  }

  /** From command to speed: 25 regular messages after a fast velocity goal was given in the static stage
      every joint it names has the given velocity, and the others the one they had. */
  lemma FastVelocityIsReached(k: Maths, m: Motion, g: StaticVelocityGoal, acts: seq<Action>)
    requires Open(m) && g.cartesian.None? && k.RampEndpoints()
    requires Undisturbed(k, Do(k, m, SetStaticVelocity(g, true)), acts) && MessageCount(acts) >= FAST_MESSAGES
    ensures var m' := Run(k, Do(k, m, SetStaticVelocity(g, true)), acts);
            && Cruising(m', m.step.references, Speeds(m.step.references, g)) && Open(m')
            && m'.step.references.joints.velocity == Overlay(m.step.references.joints.velocity, g.joints)
            && m'.step.references.external.velocity == Overlay(m.step.references.external.velocity, g.external)
  {
    var m0 := Do(k, m, SetStaticVelocity(g, true));
    VelocityIsGiven(k, m, g);
    DoInv(k, m, SetStaticVelocity(g, true));
    hide Do, Inv, Shaped, Maths.RampEndpoints, Run, SameLengths, Overlay, Undisturbed;
    FirstCruise(k, m0, acts);
  }

  lemma VelocityIsGiven(k: Maths, m: Motion, g: StaticVelocityGoal)
    requires m.sm.current == STATIC
    ensures var m' := Do(k, m, SetStaticVelocity(g, true));
            && m'.sm == m.sm && m'.step == m.step && m'.events.still.velocity && m'.events.still.fast
               && !m'.events.still.position
            && m'.events.still.finish == m.events.still.finish && !m'.events.run.rampDown && m'.events.velocityGoal == g
  {
  }

  // ---------------------------------------------------------------- Missing a goal

  /** Any static stage will do: give a velocity, let it be reached, give a position. The joint passes its goal
      by one sample of its velocity, and so misses it unless that velocity is zero. */
  lemma FastGoalMisses(k: Maths, m: Motion, v: StaticVelocityGoal, faster: seq<Action>, g: StaticPositionGoal,
                       acts: seq<Action>, q: nat)
    requires Open(m) && v.cartesian.None? && g.cartesian.None? && k.RampEndpoints()
    requires q < |m.step.references.joints.position| && q < |v.joints| && q < |g.joints|
    requires Undisturbed(k, Do(k, m, SetStaticVelocity(v, true)), faster) && MessageCount(faster) >= FAST_MESSAGES
    requires var m1 := Run(k, Do(k, m, SetStaticVelocity(v, true)), faster);
             Undisturbed(k, Do(k, m1, SetStaticPosition(g, true)), acts) && MessageCount(acts) >= FAST_MESSAGES
    ensures var m1 := Run(k, Do(k, m, SetStaticVelocity(v, true)), faster);
            var m2 := Run(k, Do(k, m1, SetStaticPosition(g, true)), acts);
            && q < |m2.step.references.joints.position| && m2.step.sampleTime > 0.0
            && m2.step.references.joints.position[q] == g.joints[q] + m2.step.sampleTime * v.joints[q]
  {
    hide Do, Inv, Shaped, Maths.RampEndpoints, Undisturbed, Run;
    var m1 := Run(k, Do(k, m, SetStaticVelocity(v, true)), faster);
    FastVelocityIsReached(k, m, v, faster);
    FastGoalLands(k, m1, g, acts);
  }
}
