/** The first message of a session: whether it is answered with the feedback. */
module FirstMessages {
  import opened Numeric
  import opened Quaternions
  import opened Splines
  import opened Messages
  import opened Interpolation
  import opened Machine
  import opened Dispatching
  import opened Soundness
  import opened Stopping
  import opened Sizing
  import opened References
  import opened Conservation
  import opened Pitfalls
  import Wire

  /** The work a restart finds: the interrupted trajectory with its point, then the queue. */
  function Parked(m: Motion): seq<Trajectory> {
    if m.current.Some? then [[Remainder(m.step)] + m.current.value] + m.primary else m.primary
  }

  /** The machine as it considers the front of that work, its step reset to the feedback. */
  function Considered(m: Motion, i: Input): Motion
    requires Parked(m) != []
  {
    Advance1(Prepare(m, i)).(current := Some(Parked(m)[0]), primary := Parked(m)[1..])
  }

  /** A first message starts a point: the controller is ready, no ramp down is asked for, and the front
      of the parked work has a point left to execute. */
  ghost predicate Starts(k: Maths, m: Motion, i: Input) {
    i.ok && !m.events.run.rampDown && Parked(m) != [] && !Exhausted(k, Considered(m, i))
  }

  lemma Restarted(m: Motion, i: Input)
    requires i.first && i.ok
    ensures var e := Advance1(Prepare(m, i));
            && e.sm == StateManager(RUNNING, IDLE, false) && e.events == m.events && e.current.None?
               && e.primary == Parked(m)
            && !e.hasActive && !e.hasNew && e.outputs == OpeningOutputs(i.feedback)
            && e.step == ResetStep(e.step) && e.step.feedback == i.feedback && e.step.sampleTime == i.sampleTime
            && e.step.kind == m.step.kind && e.step.factor == m.step.factor
  {
    assert Remainder(Receive(m, i).step) == Remainder(m.step);
    hide Remainder;
  }

  /** Exactly then the outputs are written; otherwise they are the feedback. */
  lemma FirstMessageIff(k: Maths, m: Motion, i: Input)
    requires i.first
    ensures Tick(k, m, i).hasActive <==> Starts(k, m, i)
    ensures Tick(k, m, i).outputs == OpeningOutputs(i.feedback) <==> !Starts(k, m, i)
  {
    if i.ok {
      var e := Advance1(Prepare(m, i));
      Restarted(m, i);
      hide Prepare, UpdateNormalGoal, Exhausted, EvaluateInterpolator, FadedReferences, Parked;
      var p := Process(k, e);
      if Parked(m) != [] {
        var d := UpdateNormalGoalRefines(k, Considered(m, i));
      }
      assert p.hasActive <==> Starts(k, m, i);
      assert p.outputs == e.outputs && p.hasActive == p.hasNew;
      hide Process, FollowedJoints;
      EmitWrites(k, Refit(p));
      RefitKeepsOutputs(p);
    } else {
      Unready(m, i);
    }
  }

  lemma Unready(m: Motion, i: Input)
    requires i.first && !i.ok
    ensures !Prepare(m, i).hasActive && Prepare(m, i).outputs == OpeningOutputs(i.feedback)
  {
    hide ResetStep, Remainder;
  }

  lemma RefitKeepsOutputs(p: Motion)
    ensures Refit(p).outputs == p.outputs && Refit(p).hasActive == p.hasActive
  {
    hide Updated;
  }

  /** Written outputs have no Euler angles, prepared ones do. */
  lemma EmitWrites(k: Maths, m: Motion)
    ensures m.hasActive ==> Emit(k, m).outputs.euler.None?
    ensures !m.hasActive ==> Emit(k, m) == m
    ensures Emit(k, m).hasActive == m.hasActive
  {
    hide EvaluateInterpolator, FadedReferences, FollowedJoints;
  }

  // ---------------------------------------------------------------- What is sent instead

  /** A first message that starts a joint point sends, for each joint, the new polynomial one sample
      on its way from the feedback to the goal. */
  lemma FirstMessageMoves(k: Maths, m: Motion, i: Input)
    requires CourseInv(m) && Level(m) && Sized(m.step) && Steady(m, i) && i.first && Starts(k, m, i)
    requires Tick(k, m, i).step.conditions.mode.JointMode?
    ensures var s, o := Tick(k, m, i).step, Tick(k, m, i).outputs;
            var start := FromFeedback(i.feedback).joints;
            && |o.joints.position| == |i.feedback.joints.position| && s.conditions.operation.NormalOp?
            && forall j :: 0 <= j < |o.joints.position| ==>
                 o.joints.position[j] == AxisFit(s.conditions, JointBoundary(start, s.goal.joints, j))
                                           .Position(Saturate(i.sampleTime, 0.0, Clamped(s.conditions).duration))
  {
    var m' := Tick(k, m, i);
    FirstMessageIff(k, m, i);
    FirstFit(k, m, i);
    DoKeepsCourse(k, m, Message(i));
    TickSends(k, m, i);
    TickSized(k, m, i);
    hide Tick, Inv, Sized, Starts, Steady, OnCourse, AxisFit, Polynomial.Position, Prepare;
    Modes(m');
    JointsFollowGoal(m');
  }

  lemma Modes(m: Motion)
    requires FitInv(m) && m.hasActive
    ensures m.controller.mode == m.step.conditions.mode
            && |m.controller.initial.joints.position| == |m.step.references.joints.position|
  {
    hide Updated;
  }

  lemma FirstFit(k: Maths, m: Motion, i: Input)
    requires i.first && Starts(k, m, i)
    ensures var m' := Tick(k, m, i);
            && m'.controller.initial.joints == FromFeedback(i.feedback).joints && m'.step.timePassed == i.sampleTime
            && m'.step.conditions.operation.NormalOp?
  {
    var e := Advance1(Prepare(m, i));
    Restarted(m, i);
    var d := UpdateNormalGoalRefines(k, Considered(m, i));
    hide Prepare, UpdateNormalGoal, Exhausted, Executes, Parked, FromFeedback, Candidate;
    var p := Process(k, e);
    assert p == UpdateNormalGoal(k, Considered(m, i));
    hide Process, Updated, Evaluated, FadedReferences, FollowedOutputs;
    EmitFrame(k, Refit(p));
  }

  /** The joints, exactly: they are commanded as the controller reported them if nothing is started, or a
      pose is, or every polynomial is still at its start after one sample. */
  lemma FirstJointsIff(k: Maths, m: Motion, i: Input)
    requires CourseInv(m) && Level(m) && Sized(m.step) && Steady(m, i) && i.first
    ensures Tick(k, m, i).outputs.joints.position == i.feedback.joints.position
            <==> (!Starts(k, m, i) || Tick(k, m, i).step.conditions.mode.PoseMode? || StillThere(k, m, i))
  {
    hide Tick, CourseInv, Sized, Starts, Steady, Prepare;
    FirstMessageIff(k, m, i);
    if Starts(k, m, i) {
      if Tick(k, m, i).step.conditions.mode.JointMode? {
        FirstMessageMoves(k, m, i);
      } else {
        PoseKeepsJoints(k, m, i);
      }
    }
  }

  /** After one sample no joint has left the feedback. */
  ghost predicate StillThere(k: Maths, m: Motion, i: Input) {
    var s, f := Tick(k, m, i).step, i.feedback.joints.position;
    forall j :: 0 <= j < |f| ==>
      AxisFit(s.conditions, JointBoundary(FromFeedback(i.feedback).joints, s.goal.joints, j))
        .Position(Saturate(i.sampleTime, 0.0, Clamped(s.conditions).duration)) == f[j]
  }

  lemma PoseKeepsJoints(k: Maths, m: Motion, i: Input)
    requires CourseInv(m) && Steady(m, i) && i.first && Starts(k, m, i) && Tick(k, m, i).step.conditions.mode.PoseMode?
    ensures Tick(k, m, i).outputs.joints == OpeningOutputs(i.feedback).joints
  {
    var e := Advance1(Prepare(m, i));
    Restarted(m, i);
    FirstMessageIff(k, m, i);
    DoKeepsCourse(k, m, Message(i));
    Modes(Tick(k, m, i));
    var d := UpdateNormalGoalRefines(k, Considered(m, i));
    hide Prepare, UpdateNormalGoal, Exhausted, Executes, Parked, FromFeedback, Candidate, Inv, FitInv, OnCourse;
    var p := Process(k, e);
    assert p == UpdateNormalGoal(k, Considered(m, i));
    hide Process, Updated, EvaluateInterpolator, FadedReferences, FollowedJoints;
    EmitFrame(k, Refit(p));
    EmitPose(k, Refit(p));
  }

  lemma EmitPose(k: Maths, m: Motion)
    requires m.controller.mode.PoseMode?
    ensures Emit(k, m).outputs.joints == m.outputs.joints
  {
    hide EvaluateInterpolator, FadedReferences, FollowedJoints;
  }

  /** What that means: every joint is already at its goal. A cubic or quintic that ends at speed may also pass
      its start on the way, so of these only goals at rest, such as every last point, are covered. */
  lemma StillThereIff(k: Maths, m: Motion, i: Input)
    requires CourseInv(m) && Level(m) && Sized(m.step) && Steady(m, i) && i.first && Starts(k, m, i)
    requires var s := Tick(k, m, i).step;
             s.conditions.mode.JointMode?
                 && (s.conditions.kind.Linear? || s.conditions.kind.Square? || EndsAtRest(s.goal.joints))
    ensures StillThere(k, m, i) <==> Tick(k, m, i).step.goal.joints.position == i.feedback.joints.position
  {
    FirstFit(k, m, i);
    FirstMessageIff(k, m, i);
    TickSized(k, m, i);
    TickSends(k, m, i);
    DoKeepsCourse(k, m, Message(i));
    hide Tick, Inv, FitInv, OnCourse, Starts, Prepare, AxisFit, Polynomial.Position;
    var s, f := Tick(k, m, i).step, i.feedback.joints.position;
    var t := Saturate(i.sampleTime, 0.0, Clamped(s.conditions).duration);
    assert |s.goal.joints.position| == |f|;
    forall j | 0 <= j < |f|
      ensures AxisFit(s.conditions, JointBoundary(FromFeedback(i.feedback).joints, s.goal.joints, j)).Position(t)
              == f[j]
              <==> s.goal.joints.position[j] == f[j]
    {
      RestFit(s.conditions, JointBoundary(FromFeedback(i.feedback).joints, s.goal.joints, j), t);
    }
  }

  predicate EndsAtRest(j: JointGoal) {
    && (forall q :: 0 <= q < |j.velocity| ==> j.velocity[q] == 0.0)
    && (forall q :: 0 <= q < |j.acceleration| ==> j.acceleration[q] == 0.0)
  }

  lemma RestFit(c: Conditions, b: Boundary, t: real)
    requires c.operation.NormalOp? && b.dAlfa == 0.0 && b.ddAlfa == 0.0 && 0.0 < t <= Clamped(c).duration
    requires c.kind.Linear? || c.kind.Square? || (b.dBeta == 0.0 && b.ddBeta == 0.0)
    ensures AxisFit(c, b).Position(t) == b.alfa <==> b.beta == b.alfa
  {
    var T := Max(LOWEST_SAMPLE_TIME, c.duration);
    if c.kind.Linear? || c.kind.Square? {
      EvenFit(c, b, T, t);
    } else if c.kind.Cubic? {
      CubicStep(b, T, t);
    } else {
      QuinticStep(b, T, t);
    }
  }

  /** From rest to rest, a fraction s of the time covers 3 s^2 - 2 s^3 of a cubic's way. */
  lemma CubicStep(b: Boundary, T: real, t: real)
    requires b.dAlfa == b.dBeta == 0.0 && 0.0 < t <= T
    ensures Fit(Cubic, b, T).Position(t) == b.alfa <==> b.beta == b.alfa
  {
    hide Pow, CubicC, CubicD;
    Powers(T);
    Powers(t);
    var g := b.beta - b.alfa;
    var x := g / Pow(T, 3);
    Quotient(g, Pow(T, 3));
    assert Gap(b, T) == g && VelocityGap(b) == 0.0;
    CubicSolved(g, 0.0, T, Pow(T, 2), Pow(T, 3), x, 0.0);
    var p := Fit(Cubic, b, T);
    assert p == Polynomial(b.alfa, 0.0, 3.0*x*T, -2.0*x, 0.0, 0.0);
    CubicWay(x, T, t, Pow(t, 2), Pow(t, 3));
    NoQuotient(g, Pow(T, 3));
  }

  lemma CubicWay(x: real, T: real, t: real, t2: real, t3: real)
    requires 0.0 < t <= T && t2 == t*t && t3 == t*t2 && t2 > 0.0
    ensures (3.0*x*T)*t2 + (-2.0*x)*t3 == 0.0 <==> x == 0.0
  {
    var w := 3.0*T - 2.0*t;
    assert (3.0*x*T)*t2 + (-2.0*x)*t3 == x * (t2 * w) by {
      assert (-2.0*x)*t3 == x*(t2*(-2.0*t));
      assert (3.0*x*T)*t2 == x*(t2*(3.0*T));
    }
    assert t2 * w > 0.0;
    NoProduct(x, t2 * w);
  }

  /** From rest to rest, a fraction s of the time covers 10 s^3 - 15 s^4 + 6 s^5 of a quintic's way. */
  lemma QuinticStep(b: Boundary, T: real, t: real)
    requires b.dAlfa == b.dBeta == b.ddAlfa == b.ddBeta == 0.0 && 0.0 < t <= T
    ensures Fit(Quintic, b, T).Position(t) == b.alfa <==> b.beta == b.alfa
  {
    hide Pow, QuinticD, QuinticE, QuinticF;
    Powers(T);
    Powers(t);
    var g := b.beta - b.alfa;
    var x := g / Pow(T, 5);
    Quotient(g, Pow(T, 5));
    assert CurvedGap(b, T) == g && CurvedVelocityGap(b, T) == 0.0 && AccelerationGap(b) == 0.0;
    var p := Fit(Quintic, b, T);
    QuinticSolved(g, 0.0, 0.0, T, x, 0.0, 0.0, 10.0*x, -15.0*x, p.d, p.e, p.f);
    assert p == Polynomial(b.alfa, 0.0, 0.0, p.d, p.e, p.f);
    QuinticMoves(b.alfa, p.d, p.e, p.f, x, T, t);
    NoQuotient(g, Pow(T, 5));
  }

  lemma TopTerms(a: real, d: real, e: real, f: real, t: real)
    ensures Polynomial(a, 0.0, 0.0, d, e, f).Position(t) == a + (d*Pow(t, 3) + e*Pow(t, 4) + f*Pow(t, 5))
  {
    hide Pow;
  }

  lemma QuinticMoves(a: real, d: real, e: real, f: real, x: real, T: real, t: real)
    requires 0.0 < t <= T && d == (10.0*x)*Pow(T, 2) && e == (-15.0*x)*T && f == 6.0*x
    ensures Polynomial(a, 0.0, 0.0, d, e, f).Position(t) == a <==> x == 0.0
  {
    hide Pow;
    TopTerms(a, d, e, f, t);
    Powers(T);
    Powers(t);
    QuinticWay(x, T, Pow(T, 2), t, Pow(t, 2), Pow(t, 3), Pow(t, 4), Pow(t, 5), d, e, f);
  }

  lemma QuinticWay(x: real, T: real, T2: real, t: real, t2: real, t3: real, t4: real, t5: real,
                   d: real, e: real, f: real)
    requires T > 0.0 && T2 == T*T && t2 == t*t && t4 == t*t3 && t5 == t*t4 && t3 > 0.0
    requires d == (10.0*x)*T2 && e == (-15.0*x)*T && f == 6.0*x
    ensures d*t3 + e*t4 + f*t5 == 0.0 <==> x == 0.0
  {
    var w := 10.0*T2 - 15.0*(T*t) + 6.0*t2;
    var u := t - 1.25*T;
    assert w == 6.0*(u*u) + 0.625*T2;
    Square(u);
    Square(T);
    NoProduct(T, T);
    assert ((10.0*x)*T2)*t3 == x*(t3*(10.0*T2));
    assert ((-15.0*x)*T)*t4 == x*(t3*(-15.0*(T*t)));
    assert (6.0*x)*t5 == x*(t3*(6.0*t2)) by { assert t5 == t3*t2; }
    assert x*(t3*(10.0*T2)) + x*(t3*(-15.0*(T*t))) + x*(t3*(6.0*t2)) == x*(t3*w);
    assert t3*w > 0.0;
    NoProduct(x, t3*w);
  }

  lemma Square(u: real)
    ensures u*u >= 0.0
  {
  }

  lemma EvenFit(c: Conditions, b: Boundary, T: real, t: real)
    requires c.operation.NormalOp? && (c.kind.Linear? || c.kind.Square?) && b.dAlfa == 0.0 && t > 0.0
    requires T == Max(LOWEST_SAMPLE_TIME, c.duration)
    ensures AxisFit(c, b).Position(t) == b.alfa <==> b.beta == b.alfa
  {
    var p := AxisFit(c, b);
    Positive(T, 2);
    Positive(t, 2);
    if c.kind.Linear? {
      assert p == Polynomial(b.alfa, (b.beta - b.alfa) / T, 0.0, 0.0, 0.0, 0.0);
      hide Pow;
      assert p.Position(t) == b.alfa + ((b.beta - b.alfa) / T) * t;
      NoProduct((b.beta - b.alfa) / T, t);
      NoQuotient(b.beta - b.alfa, T);
    } else {
      assert Gap(b, T) == b.beta - b.alfa;
      assert p == Polynomial(b.alfa, 0.0, (b.beta - b.alfa) / Pow(T, 2), 0.0, 0.0, 0.0);
      hide Pow;
      assert p.Position(t) == b.alfa + ((b.beta - b.alfa) / Pow(T, 2)) * Pow(t, 2);
      NoProduct((b.beta - b.alfa) / Pow(T, 2), Pow(t, 2));
      NoQuotient(b.beta - b.alfa, Pow(T, 2));
    }
  }

  lemma NoProduct(a: real, t: real)
    requires t > 0.0
    ensures a * t == 0.0 <==> a == 0.0
  {
  }

  lemma NoQuotient(a: real, T: real)
    requires T > 0.0
    ensures a / T == 0.0 <==> a == 0.0
  {
  }

  // ---------------------------------------------------------------- A run

  const AT_ZERO: Feedback := NO_FEEDBACK.(joints := JointSpace([0.0], [0.0]))

  const START: Input := Input(true, true, LOWEST_SAMPLE_TIME, AT_ZERO)

  const TARGET: PointGoal := PointGoal(Some(1.0), JointGoal([1.0], [], []), None, NO_JOINTS, false)

  const RESTART: seq<Action> := [Message(START), AddTrajectory([TARGET], false), Message(START)]

  /** One joint at 0, one point at 1 to be reached in 1 s, accepted just before a session restarts: the
      first reply of the new session asks for 0.004, not for the feedback. */
  lemma FirstReplyRuns(k: Maths, offset: int)
    ensures Run(k, Initial(Linear, offset), RESTART).outputs.joints.position == [LOWEST_SAMPLE_TIME]
  {
    var m0 := Initial(Linear, offset);
    InitialCourse(Linear, offset);
    InitialSized(Linear, offset);
    InitialForm(Linear, offset);
    OpensAtZero(k, m0);
    var m1 := Tick(k, m0, START);
    DoKeepsCourse(k, m0, Message(START));
    TickSends(k, m0, START);
    TickSized(k, m0, START);
    hide Tick, Inv, FitInv, OnCourse, Initial, Run;
    var a := AddTrajectory([TARGET], false);
    var m2 := Do(k, m1, a);
    assert m2 == m1.(primary := [[TARGET]]);
    DoKeepsCourse(k, m1, a);
    CommandKeepsCourse(k, m1, a);
    TargetStarts(k, m2);
    FirstMessageMoves(k, m2, START);
    LinearStep(Tick(k, m2, START).step);
    Three(k, m0);
  }

  lemma Three(k: Maths, m: Motion)
    ensures Run(k, m, RESTART) == Tick(k, Do(k, Tick(k, m, START), AddTrajectory([TARGET], false)), START)
  {
    hide Do, AddedIn, Added;
    Step(k, m, RESTART);
    Step(k, Do(k, m, RESTART[0]), RESTART[1..]);
    Step(k, Do(k, Do(k, m, RESTART[0]), RESTART[1]), RESTART[2..]);
    var m3 := Do(k, Do(k, Do(k, m, RESTART[0]), RESTART[1]), RESTART[2]);
    assert RESTART[2..][1..] == [] && Run(k, m3, []) == m3;
    MessageIsTick(k, m, RESTART[0]);
    MessageIsTick(k, Do(k, Do(k, m, RESTART[0]), RESTART[1]), RESTART[2]);
  }

  lemma OpensAtZero(k: Maths, m: Motion)
    requires m.sm == RESET_STATE && m.events == NO_EVENTS && m.current.None? && m.primary == []
    ensures var m' := Tick(k, m, START);
            && m'.sm == StateManager(RUNNING, IDLE, false) && m'.events == NO_EVENTS && m'.current.None?
               && m'.primary == []
            && m'.step.kind == m.step.kind && m'.step.factor == m.step.factor
  {
    Restarted(m, START);
    hide Prepare;
  }

  lemma TargetStarts(k: Maths, m: Motion)
    requires m.current.None? && m.primary == [[TARGET]] && m.events == NO_EVENTS && m.step.kind.Linear?
             && m.step.factor == 1.0
    ensures Starts(k, m, START)
    ensures var s := Tick(k, m, START).step;
            && s.conditions.mode.JointMode? && s.conditions.operation.NormalOp? && s.conditions.kind.Linear?
            && s.conditions.duration == 1.0 && s.goal.joints.position == [1.0]
  {
    Restarted(m, START);
    var e := Advance1(Prepare(m, START));
    var src := Considered(m, START);
    assert src.current == Some([TARGET]);
    var p := UpdateNormalGoal(k, src);
    hide Prepare;
    TargetPrepared(k, src.step.(point := TARGET));
    assert [TARGET][1..] == [];
    assert p.step == PrepareNormal(k, src.step.(point := TARGET), true);
    assert Process(k, e) == p;
    hide Process, UpdateNormalGoal, Updated, Evaluated, FadedReferences, FollowedOutputs;
    EmitFrame(k, Refit(p));
  }

  lemma TargetPrepared(k: Maths, s: MotionStep)
    requires s.point == TARGET && s.goal == FromFeedback(AT_ZERO) && s.factor == 1.0
    ensures var s' := PrepareNormal(k, s, true);
            && s'.conditions.mode.JointMode? && s'.conditions.operation.NormalOp? && s'.conditions.kind == s.kind
            && s'.conditions.duration == 1.0 && s'.goal.joints.position == [1.0]
  {
    assert Overlay([0.0], [1.0]) == [1.0];
    hide EstimateDuration;
  }

  lemma LinearStep(s: MotionStep)
    requires s.conditions.operation.NormalOp? && s.conditions.kind.Linear? && s.conditions.duration == 1.0
    requires s.goal.joints.position == [1.0]
    ensures AxisFit(s.conditions, JointBoundary(FromFeedback(AT_ZERO).joints, s.goal.joints, 0))
              .Position(Saturate(LOWEST_SAMPLE_TIME, 0.0, Clamped(s.conditions).duration)) == LOWEST_SAMPLE_TIME
  {
    var p := AxisFit(s.conditions, JointBoundary(FromFeedback(AT_ZERO).joints, s.goal.joints, 0));
    assert p == Polynomial(0.0, 1.0, 0.0, 0.0, 0.0, 0.0);
    hide Pow;
  }

  // ---------------------------------------------------------------- The reply

  /** Finite values as the wire carries them. */
  function Lifted(s: seq<real>): Wire.Joints { seq(|s|, q requires 0 <= q < |s| => Wire.Finite(s[q])) }

  /** A first message that starts nothing commands exactly the joints the controller sent. */
  lemma FirstReplyIsFeedback(k: Maths, m: Motion, i: Input, axes: Wire.Axes, robot: Wire.Joints, external: Wire.Joints)
    requires i.first && !Starts(k, m, i) && |external| <= Wire.EXTERNAL_JOINTS
    requires Wire.FromWire(axes, robot, external)
             == Some((Lifted(i.feedback.joints.position), Lifted(i.feedback.external.position)))
    ensures var o := Tick(k, m, i).outputs;
            Wire.ToWire(axes, Lifted(o.joints.position), Lifted(o.external.position)) == Some((robot, external))
  {
    FirstMessageIff(k, m, i);
    Wire.ParseThenReply(axes, robot, external);
    hide Tick, Starts;
  }
}
