/** What the references and the outputs are, in every run: the interpolator holds the active goal, the
    references are its polynomials at the time passed, and the outputs are the references. */
module References {
  import opened Numeric
  import opened Quaternions
  import opened Splines
  import opened Messages
  import opened Interpolation
  import opened Machine
  import opened Dispatching
  import opened Soundness
  import opened Stopping
  import opened Sizing
  import opened Splicing

  // ---------------------------------------------------------------- Goals through a stage

  /** The goal is the one that was there before. */
  predicate SameGoal(e: Motion, p: Motion) {
    e.hasActive && p.step.conditions == e.step.conditions && p.step.goal == e.step.goal
  }

  /** A goal that is active after processing without being new was active before; a new one has its
      mode in its conditions. */
  predicate GoalsKept(e: Motion, p: Motion) {
    && (p.hasActive && !p.hasNew ==> SameGoal(e, p))
    && (p.hasNew ==> p.step.conditions.mode == p.step.mode)
  }

  lemma ProcessKeepsGoals(k: Maths, e: Motion)
    requires Entered(e)
    ensures GoalsKept(e, Process(k, e))
  {
    hide ProcessNormal, ProcessRampDown, ProcessStatic, FittedInv, FactorInv, GoalsKept;
    assert !e.hasNew;
    match e.sm.current.state
    case Normal => NormalKeepsGoals(k, e);
    case RampDown => RampDownKeepsGoals(k, e);
    case StaticGoal => StaticKeepsGoals(k, e);
  }

  lemma UpdateKeepsGoals(k: Maths, m: Motion)
    ensures var m' := UpdateNormalGoal(k, m);
            m'.hasActive == m'.hasNew && (m'.hasNew ==> m'.step.conditions.mode == m'.step.mode)
  {
    var d := UpdateNormalGoalRefines(k, m);
    hide UpdateNormalGoal, Executes, Exhausted;
  }

  lemma NormalKeepsGoals(k: Maths, e: Motion)
    requires !e.hasNew
    ensures GoalsKept(e, ProcessNormal(k, e))
  {
    hide UpdateNormalGoal, ConditionMet, SetPending;
    UpdateKeepsGoals(k, e);
    if e.primary != [] { UpdateKeepsGoals(k, e.(current := Some(e.primary[0]), primary := e.primary[1..])); }
  }

  lemma RampDownKeepsGoals(k: Maths, e: Motion)
    requires !e.hasNew
    ensures GoalsKept(e, ProcessRampDown(k, e))
  {
    hide EndRampDown, SetPending, Remainder;
    if e.sm.current.sub.Finished? { EndKeepsGoals(k, ApplyDiscard(ApplyFactor(e))); }
  }

  lemma EndKeepsGoals(k: Maths, e: Motion)
    requires !e.hasNew
    ensures GoalsKept(e, EndRampDown(k, e))
  {
    hide UpdateNormalGoal, SetPending, Released;
    UpdateKeepsGoals(k, e.(events := e.events.(run := Released(e.events.run))));
  }

  lemma StaticKeepsGoals(k: Maths, e: Motion)
    requires !e.hasNew
    ensures GoalsKept(e, ProcessStatic(k, e))
  {
    StaticModes(k, e);
    hide PreparePosition, PrepareVelocity, SetPending;
  }

  lemma StaticModes(k: Maths, e: Motion)
    ensures var s := PreparePosition(k, e.step, e.events.positionGoal, e.events.still.fast); s.conditions.mode == s.mode
    ensures var s := PrepareVelocity(e.step, e.events.velocityGoal, e.events.still.fast); s.conditions.mode == s.mode
  {
  }

  // ---------------------------------------------------------------- The fitted goal

  predicate SameLengths(a: Reference, b: Reference) {
    && |a.joints.position| == |b.joints.position| && |a.joints.velocity| == |b.joints.velocity|
    && |a.joints.acceleration| == |b.joints.acceleration|
    && |a.external.position| == |b.external.position| && |a.external.velocity| == |b.external.velocity|
    && |a.external.acceleration| == |b.external.acceleration|
  }

  /** An active goal is the goal the interpolator holds: updating it once more, from the references the
      controller keeps as the start, would change none of its slots, ramps or conditions. */
  predicate FitInv(m: Motion) {
    m.hasActive ==>
      && m.step.interpolator == Updated(m.step.interpolator, m.controller.initial, m.step.goal, m.step.conditions)
      && SameLengths(m.controller.initial, m.step.references)
      && m.controller.mode == m.step.conditions.mode
  }

  lemma UpdatedTwice(ip: Interpolator, start: Reference, goal: Reference, c: Conditions)
    ensures var ip' := Updated(ip, start, goal, c); Updated(ip', start, goal, c) == ip'
  {
    hide AxisFit;
    var ip' := Updated(ip, start, goal, c);
    assert Updated(ip', start, goal, c).splines == ip'.splines;
  }

  lemma RefitFits(p: Motion)
    requires p.hasNew ==> p.hasActive && p.step.conditions.mode == p.step.mode
    requires !p.hasNew ==> FitInv(p)
    ensures FitInv(Refit(p))
  {
    if p.hasNew {
      var r := p.step.references.(reach := p.step.goal.reach, duration := p.step.conditions.duration);
      UpdatedTwice(p.step.interpolator, r, p.step.goal, p.step.conditions);
      hide Updated;
    }
  }

  lemma EmitFits(k: Maths, m: Motion)
    requires FitInv(m)
    ensures FitInv(Emit(k, m))
  {
    if m.hasActive {
      EmitFrame(k, m);
      EmitLengths(k, m);
      hide Emit, Updated;
    }
  }

  lemma EmitLengths(k: Maths, m: Motion)
    ensures SameLengths(Emit(k, m).step.references, m.step.references)
  {
    if m.hasActive {
      var s := EvaluateInterpolator(k, m.step);
      EvaluatedLengths(k, m.step.interpolator, m.step.references, m.step.sampleTime, s.timePassed);
      FadeLengths(k, m.controller, m.outputs, s);
      hide Evaluated, FadedReferences, FollowedOutputs;
    }
  }

  lemma PrepareFits(m: Motion, i: Input)
    requires FitInv(m)
    ensures FitInv(Prepare(m, i))
  {
    hide Updated, ResetStep, Remainder, SameLengths;
  }

  lemma ProcessFits(k: Maths, e: Motion)
    requires Entered(e) && FitInv(e)
    ensures var p := Process(k, e);
            && (p.hasNew ==> p.hasActive && p.step.conditions.mode == p.step.mode)
            && (!p.hasNew ==> FitInv(p))
  {
    ProcessKeepsGoals(k, e);
    ProcessMovesNothing(k, e);
    ProcessInv(k, e);
    hide Process, Entered, Updated, FittedInv, FactorInv, ManagerInv, SameLengths;
  }

  lemma TickFits(k: Maths, m: Motion, i: Input)
    requires Inv(m) && FitInv(m)
    ensures FitInv(Tick(k, m, i))
  {
    hide Prepare, Process, Refit, Emit, Inv, FitInv;
    var p := Prepare(m, i);
    PrepareInv(m, i);
    PrepareFits(m, i);
    if i.ok {
      EnterInv(p);
      AdvanceFits(p);
      ProcessFits(k, Advance1(p));
      RefitFits(Process(k, Advance1(p)));
      EmitFits(k, Refit(Process(k, Advance1(p))));
    }
  }

  lemma AdvanceFits(m: Motion)
    requires FitInv(m)
    ensures FitInv(Advance1(m))
  {
    hide Updated, SameLengths;
  }

  // ---------------------------------------------------------------- On course

  /** The positions are those of the fitted polynomials at the time passed. */
  predicate OnCourse(m: Motion) {
    var ip, r := m.step.interpolator, m.step.references;
    var t := Saturate(m.step.timePassed, 0.0, ip.conditions.duration);
    m.hasActive && UsesSplines(ip.conditions.operation) ==>
      && r.external.position == SplineJoints(ip.splines, ip.offset, r.external, t).position
      && (ip.conditions.mode.JointMode? ==> r.joints.position == SplineJoints(ip.splines, 0, r.joints, t).position)
      && (ip.conditions.mode.PoseMode? ==> r.position == SplineCartesian(ip.splines, r, t).position)
  }

  /** Reading a spline does not depend on what is overwritten. */
  lemma SplineAgain(splines: seq<Polynomial>, base: int, j: JointGoal, j': JointGoal, t: real)
    requires j'.position == SplineJoints(splines, base, j, t).position
    ensures SplineJoints(splines, base, j', t).position == j'.position
  {
    hide Polynomial.Position, Polynomial.Velocity, Polynomial.Acceleration;
  }

  lemma EmitIsOnCourse(k: Maths, m: Motion)
    requires FitInv(m)
    ensures OnCourse(Emit(k, m))
  {
    if m.hasActive && UsesSplines(m.step.interpolator.conditions.operation) {
      var ip := m.step.interpolator;
      var s := EvaluateInterpolator(k, m.step);
      var t := Saturate(s.timePassed, 0.0, ip.conditions.duration);
      var r := FadedReferences(k, m.controller, m.outputs, s);
      FadeKeepsPositions(k, m.controller, m.outputs, s);
      RampKept(m);
      SplineAgain(ip.splines, ip.offset, m.step.references.external, r.external, t);
      if ip.conditions.mode.JointMode? {
        SplineAgain(ip.splines, 0, m.step.references.joints, r.joints, t);
      } else {
        OrientedKeepsAxes(k, ip, SplineCartesian(ip.splines, m.step.references, t), m.step.sampleTime, t);
      }
      hide FadedReferences, FollowedOutputs, SplineJoints, Oriented, Polynomial.Position, Polynomial.Velocity,
           Polynomial.Acceleration, FitInv;
    }
  }

  lemma RampKept(m: Motion)
    requires FitInv(m) && m.hasActive
    ensures var ip := m.step.interpolator;
            ip.conditions.mode.PoseMode? && ip.conditions.operation.RampDownOp? ==> ip.ramp.operation.RampDownOp?
  {
    hide Slot;
  }

  lemma FadeKeepsPositions(k: Maths, c: Controller, out: Output, s: MotionStep)
    ensures var r := FadedReferences(k, c, out, s);
            && r.joints.position == s.references.joints.position
               && r.external.position == s.references.external.position
            && r.position == s.references.position
  {
    hide FadedJoints, Scaled, Faded3;
  }

  lemma TickIsOnCourse(k: Maths, m: Motion, i: Input)
    requires Inv(m) && FitInv(m)
    ensures OnCourse(Tick(k, m, i))
  {
    hide Prepare, Process, Refit, Emit, Inv, FitInv, SplineJoints, SplineCartesian;
    var p := Prepare(m, i);
    PrepareInv(m, i);
    PrepareFits(m, i);
    if i.ok {
      EnterInv(p);
      AdvanceFits(p);
      ProcessFits(k, Advance1(p));
      RefitFits(Process(k, Advance1(p)));
      EmitIsOnCourse(k, Refit(Process(k, Advance1(p))));
    }
  }

  // ---------------------------------------------------------------- Outputs

  /** Feedback, references and outputs have the same number of joints, each with a velocity. */
  predicate Level(m: Motion) {
    var n, e := |m.step.references.joints.position|, |m.step.references.external.position|;
    && Shaped(m.step.references)
    && |m.outputs.joints.position| == |m.outputs.joints.velocity| == n
    && |m.outputs.external.position| == |m.outputs.external.velocity| == e
    && |m.step.feedback.joints.position| == |m.step.feedback.joints.velocity| == n
    && |m.step.feedback.external.position| == |m.step.feedback.external.velocity| == e
  }

  /** A message of a session that keeps its joints: one velocity per joint, as many joints as before
      unless a session starts. */
  predicate Steady(m: Motion, i: Input) {
    && Acceptable(m, i)
    && |i.feedback.joints.velocity| == |i.feedback.joints.position|
    && |i.feedback.external.velocity| == |i.feedback.external.position|
    && (!i.first ==>
          && |i.feedback.joints.position| == |m.step.references.joints.position|
          && |i.feedback.external.position| == |m.step.references.external.position|)
  }

  /** What is sent is what the references say. */
  predicate Sent(m: Motion) {
    var o, r := m.outputs, m.step.references;
    m.hasActive ==>
      && o.external == JointSpace(r.external.position, r.external.velocity)
      && (m.controller.mode.JointMode? ==> o.joints == JointSpace(r.joints.position, r.joints.velocity))
      && (m.controller.mode.PoseMode? ==> o.position == r.position && o.linear == r.linear && o.angular == r.angular)
  }

  lemma FollowedAll(out: seq<real>, ref: seq<real>, fdb: seq<real>, start: seq<real>)
    requires |out| == |ref| == |fdb| == |start|
    ensures FollowedJoints(out, ref, fdb, start) == ref
  {
  }

  lemma FollowedSent(k: Maths, c: Controller, out: Output, f: Feedback, r: Reference)
    requires |out.joints.position| == |r.joints.position| == |f.joints.position| == |c.initial.joints.position|
    requires |out.joints.velocity| == |r.joints.velocity| == |f.joints.velocity| == |c.initial.joints.velocity|
    requires |out.external.position| == |r.external.position| == |f.external.position| == |c.initial.external.position|
    requires |out.external.velocity| == |r.external.velocity| == |f.external.velocity| == |c.initial.external.velocity|
    ensures var o := FollowedOutputs(k, c, out, f, r);
            && o.external == JointSpace(r.external.position, r.external.velocity)
            && (c.mode.JointMode? ==> o.joints == JointSpace(r.joints.position, r.joints.velocity))
            && (c.mode.PoseMode? ==>
                  o.joints == out.joints && o.position == r.position && o.linear == r.linear && o.angular == r.angular)
  {
    FollowedAll(out.joints.position, r.joints.position, f.joints.position, c.initial.joints.position);
    FollowedAll(out.joints.velocity, r.joints.velocity, f.joints.velocity, c.initial.joints.velocity);
    FollowedAll(out.external.position, r.external.position, f.external.position, c.initial.external.position);
    FollowedAll(out.external.velocity, r.external.velocity, f.external.velocity, c.initial.external.velocity);
    hide FollowedJoints, Normalize;
  }

  lemma EmitSends(k: Maths, m: Motion)
    requires Level(m) && FitInv(m)
    ensures Level(Emit(k, m)) && Sent(Emit(k, m))
  {
    if m.hasActive {
      EmitLengths(k, m);
      var s := EvaluateInterpolator(k, m.step);
      var r := FadedReferences(k, m.controller, m.outputs, s);
      FollowedSent(k, m.controller, m.outputs, s.feedback, r);
      hide Evaluated, FadedReferences, FollowedOutputs, Updated;
    }
  }

  lemma PrepareIsLevel(m: Motion, i: Input)
    requires Level(m) && Steady(m, i)
    ensures Level(Prepare(m, i))
  {
    PreparedForms(m, i);
    PreparedOutputs(m, i);
    hide Prepare;
  }

  lemma PreparedOutputs(m: Motion, i: Input)
    ensures Prepare(m, i).outputs == if i.first then OpeningOutputs(i.feedback) else m.outputs
    ensures i.first ==> Prepare(m, i).step.references == FromFeedback(i.feedback)
  {
    hide Remainder, FromFeedback, OpeningOutputs;
  }

  lemma ProcessIsLevel(k: Maths, e: Motion)
    requires Level(e)
    ensures Level(Process(k, e))
  {
    hide Process;
    ProcessMovesNothing(k, e);
  }

  lemma RefitIsLevel(p: Motion)
    requires Level(p)
    ensures Level(Refit(p))
  {
    hide Updated;
  }

  lemma TickSends(k: Maths, m: Motion, i: Input)
    requires Inv(m) && FitInv(m) && Level(m) && Steady(m, i)
    ensures Level(Tick(k, m, i)) && Sent(Tick(k, m, i))
  {
    hide Prepare, Process, Refit, Emit, Inv, FitInv, Level, Steady;
    var p := Prepare(m, i);
    PrepareInv(m, i);
    PrepareFits(m, i);
    PrepareIsLevel(m, i);
    if i.ok {
      EnterInv(p);
      AdvanceFits(p);
      AdvanceIsLevel(p);
      ProcessFits(k, Advance1(p));
      ProcessIsLevel(k, Advance1(p));
      RefitFits(Process(k, Advance1(p)));
      RefitIsLevel(Process(k, Advance1(p)));
      EmitSends(k, Refit(Process(k, Advance1(p))));
    }
  }

  lemma AdvanceIsLevel(m: Motion)
    requires Level(m)
    ensures Level(Advance1(m))
  {
  }

  // ---------------------------------------------------------------- Whole runs

  /** The interpolator holds the active goal and the references are on its course. */
  predicate CourseInv(m: Motion) { Inv(m) && FitInv(m) && OnCourse(m) }

  lemma CommandKeepsCourse(k: Maths, m: Motion, a: Action)
    requires !a.Message?
    ensures var m' := Do(k, m, a);
            (FitInv(m) ==> FitInv(m')) && (OnCourse(m) ==> OnCourse(m')) && (Level(m) ==> Level(m'))
                && (Sent(m) ==> Sent(m'))
  {
    hide Do, Updated, SplineJoints, SplineCartesian, Shaped, SameLengths;
    CommandMovesNothing(k, m, a);
  }

  /** Commands leave everything alone but the events, the queues and the spline method. */
  lemma CommandMovesNothing(k: Maths, m: Motion, a: Action)
    requires !a.Message?
    ensures var m' := Do(k, m, a);
            && m'.sm == m.sm && m'.hasNew == m.hasNew && m'.hasActive == m.hasActive && m'.current == m.current
            && m'.step == m.step.(kind := m'.step.kind) && m'.controller == m.controller && m'.outputs == m.outputs
  {
    hide Tick;
  }

  lemma DoKeepsCourse(k: Maths, m: Motion, a: Action)
    requires CourseInv(m)
    ensures CourseInv(Do(k, m, a))
  {
    hide Tick, Inv, FitInv, OnCourse, Command;
    DoInv(k, m, a);
    if a.Message? {
      TickFits(k, m, a.input);
      TickIsOnCourse(k, m, a.input);
    } else {
      hide Do, Level, Sent;
      CommandKeepsCourse(k, m, a);
    }
  }

  /** In every run, whatever the messages. */
  lemma {:induction false} RunKeepsCourse(k: Maths, m: Motion, acts: seq<Action>)
    requires CourseInv(m)
    ensures CourseInv(Run(k, m, acts))
    decreases |acts|
  {
    hide Do, CourseInv;
    if acts != [] {
      DoKeepsCourse(k, m, acts[0]);
      RunKeepsCourse(k, Do(k, m, acts[0]), acts[1..]);
    }
  }

  predicate AllSteady(k: Maths, m: Motion, acts: seq<Action>)
    decreases |acts|
  {
    acts == [] || ((acts[0].Message? ==> Steady(m, acts[0].input)) && AllSteady(k, Do(k, m, acts[0]), acts[1..]))
  }

  /** In every run whose sessions keep their joints. */
  lemma {:induction false} RunSends(k: Maths, m: Motion, acts: seq<Action>)
    requires CourseInv(m) && Level(m) && Sent(m) && AllSteady(k, m, acts)
    ensures CourseInv(Run(k, m, acts)) && Level(Run(k, m, acts)) && Sent(Run(k, m, acts))
    decreases |acts|
  {
    hide Do, CourseInv, Level, Sent, Steady;
    if acts != [] {
      DoKeepsCourse(k, m, acts[0]);
      DoSends(k, m, acts[0]);
      RunSends(k, Do(k, m, acts[0]), acts[1..]);
    }
  }

  lemma DoSends(k: Maths, m: Motion, a: Action)
    requires CourseInv(m) && Level(m) && Sent(m) && (a.Message? ==> Steady(m, a.input))
    ensures Level(Do(k, m, a)) && Sent(Do(k, m, a))
  {
    hide Tick, Inv, FitInv, OnCourse, Level, Sent, Command;
    if a.Message? {
      TickSends(k, m, a.input);
    } else {
      hide Do;
      CommandKeepsCourse(k, m, a);
    }
  }

  lemma {:induction false} SteadyIsAcceptable(k: Maths, m: Motion, acts: seq<Action>)
    requires AllSteady(k, m, acts)
    ensures AllAcceptable(k, m, acts)
    decreases |acts|
  {
    hide Do, Acceptable;
    if acts != [] { SteadyIsAcceptable(k, Do(k, m, acts[0]), acts[1..]); }
  }

  lemma InitialCourse(kind: SplineMethod, offset: int)
    ensures var m := Initial(kind, offset); CourseInv(m) && Level(m) && Sent(m)
  {
    InitialInv(kind, offset);
  }

  // ---------------------------------------------------------------- What it means for a joint

  /** A joint follows the polynomial fitted from its own start to its own goal, and from the end of its
      duration on it is at the goal. */
  lemma JointsFollowGoal(m: Motion)
    requires CourseInv(m) && Sized(m.step) && m.hasActive
    requires UsesSplines(m.step.conditions.operation) && m.step.conditions.mode.JointMode?
    ensures var c, r, g, start := m.step.conditions, m.step.references, m.step.goal, m.controller.initial;
            var t := Saturate(m.step.timePassed, 0.0, Clamped(c).duration);
            && (forall j :: 0 <= j < |r.joints.position| ==>
                  r.joints.position[j] == AxisFit(c, JointBoundary(start.joints, g.joints, j)).Position(t))
            && (forall j :: 0 <= j < |r.external.position| ==>
                  r.external.position[j] == AxisFit(c, JointBoundary(start.external, g.external, j)).Position(t))
            && (c.operation.NormalOp? && m.step.timePassed >= Clamped(c).duration ==>
                  r.joints.position == g.joints.position && r.external.position == g.external.position)
  {
    hide AxisFit, Polynomial.Position, Polynomial.Velocity, Polynomial.Acceleration, ManagerInv, GoalInv, FactorInv;
    var c, r, g, start := m.step.conditions, m.step.references, m.step.goal, m.controller.initial;
    var ip := m.step.interpolator;
    var t := Saturate(m.step.timePassed, 0.0, Clamped(c).duration);
    FittedSlots(m);
    hide Updated, Sized;
    assert |g.joints.position| == |r.joints.position| && |g.external.position| == |r.external.position|
        && Shaped(r) by {
      GoalLengths(m.step);
    }
    JointSlots(ip.splines, 0, r.joints, c, start.joints, g.joints, t);
    JointSlots(ip.splines, ip.offset, r.external, c, start.external, g.external, t);
    if c.operation.NormalOp? && m.step.timePassed >= Clamped(c).duration {
      Ends(r.joints.position, c, start.joints, g.joints);
      Ends(r.external.position, c, start.external, g.external);
    }
  }

  lemma GoalLengths(s: MotionStep)
    requires Sized(s)
    ensures |s.goal.joints.position| == |s.references.joints.position|
            && |s.goal.external.position| == |s.references.external.position|
    ensures Shaped(s.references)
  {
  }

  lemma FittedSlots(m: Motion)
    requires Inv(m) && FitInv(m) && m.hasActive && Shaped(m.step.references)
    requires UsesSplines(m.step.conditions.operation) && m.step.conditions.mode.JointMode?
    ensures var c, r, g, start, ip := m.step.conditions, m.step.references, m.step.goal, m.controller.initial,
            m.step.interpolator;
            && |ip.splines| == SPLINES && ip.conditions == Clamped(c)
            && (forall s :: 0 <= s < |r.joints.position| ==>
                  PolynomialAt(ip.splines, s) == AxisFit(c, JointBoundary(start.joints, g.joints, s)))
            && (forall s :: ip.offset <= s < ip.offset + |r.external.position| ==>
                  PolynomialAt(ip.splines, s) == AxisFit(c, JointBoundary(start.external, g.external, s - ip.offset)))
  {
    hide AxisFit, ManagerInv, GoalInv, FactorInv;
  }

  lemma Ends(p: seq<real>, c: Conditions, start: JointGoal, goal: JointGoal)
    requires c.operation.NormalOp? && |p| == |goal.position|
    requires forall j :: 0 <= j < |p| ==>
             p[j] == AxisFit(c, JointBoundary(start, goal, j)).Position(Clamped(c).duration)
    ensures p == goal.position
  {
    hide AxisFit, Polynomial.Position, Polynomial.Velocity, Polynomial.Acceleration;
    forall j | 0 <= j < |p| ensures p[j] == goal.position[j] {
      AxisEnd(c, JointBoundary(start, goal, j));
    }
  }
}
