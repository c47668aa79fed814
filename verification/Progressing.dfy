/** Work gets done: a bound in messages for a point, and for a whole queue. */
module Progressing {
  import opened Numeric
  import opened Quaternions
  import opened Splines
  import opened Messages
  import opened Interpolation
  import opened Machine
  import opened Dispatching
  import opened Soundness
  import opened Conservation
  import opened Stopping
  import opened Sizing
  import opened References
  import opened Races
  import opened Pursuits
  import opened StaticGoals

  // ---------------------------------------------------------------- Budgets, in seconds

  /** Joint points with a duration. */
  predicate Timed(points: seq<PointGoal>) {
    forall i :: 0 <= i < |points| ==> points[i].duration.Some? && points[i].cartesian.None?
  }

  predicate AllTimed(q: seq<Trajectory>) { forall i :: 0 <= i < |q| ==> Timed(q[i]) }

  /** What a point may take: its scaled duration, a sample to overrun it and a sample to be found finished. */
  function Weight(f: real, p: PointGoal): real {
    Max(LOWEST_SAMPLE_TIME, f * (if p.duration.Some? then p.duration.value else 0.0)) + 2.0 * LOWEST_SAMPLE_TIME
  }

  function PointsBudget(f: real, points: seq<PointGoal>): (b: real)
    ensures b >= 0.0
  {
    if points == [] then 0.0 else Weight(f, points[0]) + PointsBudget(f, points[1..])
  }

  /** One message more for every trajectory taken from the queue. */
  function QueueBudget(f: real, q: seq<Trajectory>): (b: real)
    ensures b >= 0.0 && (q != [] ==> b >= LOWEST_SAMPLE_TIME)
  {
    if q == [] then 0.0 else LOWEST_SAMPLE_TIME + PointsBudget(f, q[0]) + QueueBudget(f, q[1..])
  }

  /** What is left for the point in hand. */
  function HeadBudget(m: Motion): (b: real)
    ensures b >= 0.0 && (m.current.Some? ==> b >= LOWEST_SAMPLE_TIME)
  {
    if m.current.None? then 0.0
    else Max(0.0, Clamped(m.step.conditions).duration - m.step.timePassed + LOWEST_SAMPLE_TIME) + LOWEST_SAMPLE_TIME
  }

  function Budget(m: Motion): real {
    HeadBudget(m) + PointsBudget(m.step.factor, Waiting(m)) + QueueBudget(m.step.factor, m.primary)
  }

  lemma {:induction false} SuffixBudget(f: real, points: seq<PointGoal>, d: nat)
    requires d < |points|
    ensures Weight(f, points[d]) + PointsBudget(f, points[d + 1..]) <= PointsBudget(f, points)
  {
    if d > 0 {
      SuffixBudget(f, points[1..], d - 1);
      assert points[1..][d..] == points[d + 1..];
    }
  }

  // ---------------------------------------------------------------- Machines at work

  /** The machine executes joint points with durations, and nothing else is asked of it. */
  predicate Working(m: Motion) {
    && CourseInv(m) && Sized(m.step) && m.sm.current == RUNNING && !m.sm.hasPending && !m.events.run.rampDown
    && Timed(Waiting(m)) && AllTimed(m.primary) && (m.hasActive ==> Normally(m.step))
  }

  /** A normal joint goal. */
  predicate Normally(s: MotionStep) {
    s.conditions.operation.NormalOp? && s.conditions.mode.JointMode? && s.mode.JointMode?
        && s.conditions.duration == s.goal.duration
  }

  predicate Done(m: Motion) { m.current.None? && m.primary == [] }

  /** A point that must be reached is: once its time is over the robot is within the tolerance of its goal. */
  predicate Arrives(m: Motion, i: Input) {
    m.hasActive && m.step.goal.reach && m.step.timePassed >= Clamped(m.step.conditions).duration ==>
      && AllClose(m.step.goal.joints.position, i.feedback.joints.position)
      && AllClose(m.step.goal.external.position, i.feedback.external.position)
  }

  /** A robot within the tolerance of its references arrives. */
  lemma FollowingArrives(m: Motion, i: Input)
    requires Working(m) && AllClose(m.step.references.joints.position, i.feedback.joints.position)
    requires AllClose(m.step.references.external.position, i.feedback.external.position)
    ensures Arrives(m, i)
  {
    hide Timed, AllTimed, AxisFit, Polynomial.Position, OnCourse, Updated, Sized, AllClose, Inv;
    if m.hasActive { JointsFollowGoal(m); }
  }

  lemma EntryForm(m: Motion, i: Input)
    requires Working(m) && Regular(i)
    ensures Advance1(Prepare(m, i)) == Receive(m, i).(hasNew := false)
  {
    PlainPrepare(m, i);
    hide CourseInv, Sized, Timed, AllTimed, Prepare;
  }

  /** A point whose time is over is complete. */
  lemma Overdue(m: Motion, i: Input)
    requires Working(m) && m.hasActive && Arrives(m, i) && m.step.timePassed >= Clamped(m.step.conditions).duration
    ensures Complete(Receive(m, i).step)
  {
    hide Timed, AllTimed, OnCourse, Updated, Sized, AllClose;
    var s := Receive(m, i).step;
    assert s.interpolator.conditions.duration == Clamped(s.conditions).duration;
  }

  /** The next point is taken up within the budget of the points it is taken from. */
  lemma TakeUpBudget(k: Maths, src: Motion)
    requires src.current.Some? && Timed(src.current.value) && src.step.sampleTime >= LOWEST_SAMPLE_TIME
    ensures var m' := Emit(k, Refit(UpdateNormalGoal(k, src)));
            && HeadBudget(m') + PointsBudget(src.step.factor, Waiting(m')) <= PointsBudget(src.step.factor,
               src.current.value)
            && m'.primary == src.primary && m'.step.factor == src.step.factor
            && Timed(Waiting(m')) && (m'.hasActive ==> Normally(m'.step)) && m'.hasActive == m'.current.Some?
  {
    hide UpdateNormalGoal, Exhausted, Candidate, Emit, Refit, Weight, Clamped, ConditionMet;
    var p := UpdateNormalGoal(k, src);
    var d := UpdateNormalGoalRefines(k, src);
    TakenUpFrame(k, p);
    var m', f := Emit(k, Refit(p)), src.step.factor;
    if p.hasActive {
      var point := src.current.value[d];
      SuffixBudget(f, src.current.value, d);
      assert p.step.mode.JointMode? by { JointPoint(k, src, d); }
      assert m'.current == Some(src.current.value[d + 1..]);
      assert m'.step.conditions.duration == f * point.duration.value;
      FirstSample(m', f, point, src.step.sampleTime);
    } else {
      assert m'.current.None?;
      assert PointsBudget(f, []) == 0.0;
    }
  }

  lemma FirstSample(m: Motion, f: real, p: PointGoal, dt: real)
    requires dt >= LOWEST_SAMPLE_TIME && m.step.timePassed == dt && p.duration.Some?
    requires m.step.conditions.duration == f * p.duration.value
    ensures HeadBudget(m) <= Weight(f, p)
  {
  }

  lemma JointPoint(k: Maths, src: Motion, d: nat)
    requires src.current.Some? && d < |src.current.value| && src.current.value[d].cartesian.None?
    ensures Candidate(k, src, d).mode.JointMode?
  {
    PreparedFacts(k, src.step, src.current.value, |src.current.value| == 1, d);
    hide PreparedUpTo;
  }

  lemma TakenUpFrame(k: Maths, p: Motion)
    ensures var m' := Emit(k, Refit(p));
            && m'.sm == p.sm && m'.events == p.events && m'.hasActive == p.hasActive && m'.current == p.current
            && m'.primary == p.primary && m'.step.factor == p.step.factor && m'.step.point == p.step.point
            && m'.step.goal == p.step.goal && m'.step.conditions == p.step.conditions && m'.step.mode == p.step.mode
            && m'.step.timePassed ==
                 (if p.hasNew then 0.0 else p.step.timePassed) + (if p.hasActive then p.step.sampleTime else 0.0)
  {
    EmitFrame(k, Refit(p));
    EmitElapses(k, Refit(p));
    hide Emit, Updated;
  }

  /** One message of work: either the point in hand gets a sample closer to its end, or points leave. */
  lemma WorkTick(k: Maths, m: Motion, i: Input)
    requires Working(m) && Regular(i) && Acceptable(m, i) && Arrives(m, i)
    ensures var m' := Tick(k, m, i);
            && Working(m')
            && (Done(m) ==> Done(m'))
            && (!Done(m) ==> Budget(m') <= Budget(m) - LOWEST_SAMPLE_TIME)
            && (m.current.Some? ==>
                  || |Pipeline(m')| < |Pipeline(m)|
                  || (m'.current.Some? && HeadBudget(m') <= HeadBudget(m) - LOWEST_SAMPLE_TIME
                      && Pipeline(m') == Pipeline(m)))
  {
    hide CourseInv, Sized, Tick, Budget, HeadBudget, Acceptable, Pipeline, Regular, Timed, AllTimed, Normally, Arrives;
    DoKeepsCourse(k, m, Message(i));
    MessageIsTick(k, m, Message(i));
    TickSized(k, m, i);
    WorkingActive(m);
    WorkStage(k, m, i);
    if m.current.None? {
      if m.primary == [] { Idles(k, m, i); } else { Dequeues(k, m, i); }
    } else if Complete(Receive(m, i).step) {
      Completes(k, m, i);
    } else {
      Continues(k, m, i);
    }
  }

  lemma WorkingActive(m: Motion)
    requires Working(m)
    ensures m.hasActive <==> m.current.Some?
  {
    hide FitInv, OnCourse, Sized, Timed, AllTimed, FittedInv, FactorInv, Normally;
  }

  lemma WorkStage(k: Maths, m: Motion, i: Input)
    requires Working(m) && Regular(i)
    ensures var m' := Tick(k, m, i); m'.sm.current == RUNNING && !m'.sm.hasPending && !m'.events.run.rampDown
  {
    var e := Advance1(Prepare(m, i));
    EntryForm(m, i);
    GuardNeverRejects(k, e);
    ProcessEvents(k, e);
    StageKept(k, Process(k, e));
    FinishConserves(k, Process(k, e));
    hide Prepare, Process, Refit, Emit, CourseInv, Sized, Timed, AllTimed, Pipeline, StoredInv, Normally;
    assert Tick(k, m, i) == Emit(k, Refit(Process(k, e)));
  }

  lemma Idles(k: Maths, m: Motion, i: Input)
    requires Working(m) && Regular(i) && Done(m)
    ensures var m' := Tick(k, m, i); Done(m') && Timed(Waiting(m')) && AllTimed(m'.primary) && !m'.hasActive
  {
    var e := Advance1(Prepare(m, i));
    EntryForm(m, i);
    WorkingActive(m);
    assert Process(k, e) == e;
    TakenUpFrame(k, e);
    hide Prepare, Process, Refit, Emit, CourseInv, Sized;
    assert Tick(k, m, i) == Emit(k, Refit(e));
  }

  lemma Continues(k: Maths, m: Motion, i: Input)
    requires Working(m) && Regular(i) && Arrives(m, i) && m.current.Some? && !Complete(Receive(m, i).step)
    ensures var m' := Tick(k, m, i);
            && m'.current == m.current && m'.primary == m.primary && m'.step.factor == m.step.factor
            && m'.hasActive && Normally(m'.step) && HeadBudget(m') <= HeadBudget(m) - LOWEST_SAMPLE_TIME
            && Budget(m') <= Budget(m) - LOWEST_SAMPLE_TIME && Pipeline(m') == Pipeline(m)
  {
    var e := Advance1(Prepare(m, i));
    EntryForm(m, i);
    WorkingActive(m);
    assert Process(k, e) == e;
    TakenUpFrame(k, e);
    FinishConserves(k, e);
    hide Prepare, Process, Refit, Emit, CourseInv, Sized, Timed, AllTimed, Complete, PointsBudget, QueueBudget,
         Flatten;
    assert Tick(k, m, i) == Emit(k, Refit(e));
    if m.step.timePassed >= Clamped(m.step.conditions).duration { Overdue(m, i); }
  }

  lemma Completes(k: Maths, m: Motion, i: Input)
    requires Working(m) && Regular(i) && m.current.Some? && Complete(Receive(m, i).step)
    ensures var m' := Tick(k, m, i);
            && Timed(Waiting(m')) && AllTimed(m'.primary) && (m'.hasActive ==> Normally(m'.step))
            && Budget(m') <= Budget(m) - LOWEST_SAMPLE_TIME && |Pipeline(m')| < |Pipeline(m)|
  {
    var e := Advance1(Prepare(m, i));
    EntryForm(m, i);
    WorkingActive(m);
    assert Process(k, e) == UpdateNormalGoal(k, e);
    assert Tick(k, m, i) == Emit(k, Refit(UpdateNormalGoal(k, e)));
    TakeUpBudget(k, e);
    CompletesShorter(k, m, i);
    hide Prepare, Process, Refit, Emit, UpdateNormalGoal, CourseInv, Sized, Complete, PointsBudget, QueueBudget,
         Pipeline, Normally, Timed;
  }

  lemma CompletesShorter(k: Maths, m: Motion, i: Input)
    requires Working(m) && Regular(i) && m.current.Some? && Complete(Receive(m, i).step)
    requires var e := Receive(m, i).(hasNew := false); Tick(k, m, i) == Emit(k, Refit(UpdateNormalGoal(k, e)))
    ensures |Pipeline(Tick(k, m, i))| < |Pipeline(m)|
  {
    var e := Receive(m, i).(hasNew := false);
    WorkEntered(m, i);
    hide Tick, UpdateNormalGoal, Working, Complete, Flatten;
    var r := CompletionConserves(k, e);
    UpdateNormalGoalFrame(k, e);
    FinishConserves(k, UpdateNormalGoal(k, e));
    Shorter(k, e, r);
    assert EntryPipeline(e) == Pipeline(m) by { WorkPipeline(m, i); }
  }

  lemma WorkPipeline(m: Motion, i: Input)
    requires Working(m)
    ensures EntryPipeline(Receive(m, i).(hasNew := false)) == Pipeline(m)
  {
    hide CourseInv, Sized, Timed, AllTimed, Normally, Flatten;
  }

  lemma WorkEntered(m: Motion, i: Input)
    requires Working(m) && Regular(i)
    ensures Entered(Receive(m, i).(hasNew := false))
  {
    PlainPrepare(m, i);
    PrepareInv(m, i);
    EntryForm(m, i);
    EnterInv(Prepare(m, i));
    hide Prepare, FitInv, OnCourse, Sized, Timed, AllTimed, Normally, Entered;
  }

  /** Completing a point removes at least that point. */
  lemma Shorter(k: Maths, e: Motion, r: nat)
    requires Entered(e) && e.sm.current == RUNNING && e.current.Some?
    requires r <= |EntryPipeline(e)| && Pipeline(UpdateNormalGoal(k, e)) == EntryPipeline(e)[r..]
    ensures |Pipeline(UpdateNormalGoal(k, e))| < |EntryPipeline(e)|
  {
    var p := UpdateNormalGoal(k, e);
    var d := UpdateNormalGoalConserves(k, e);
    UpdateNormalGoalFrame(k, e);
    hide UpdateNormalGoal, Entered, Flatten;
  }

  lemma Dequeues(k: Maths, m: Motion, i: Input)
    requires Working(m) && Regular(i) && m.current.None? && m.primary != []
    ensures var m' := Tick(k, m, i);
            && Timed(Waiting(m')) && AllTimed(m'.primary) && (m'.hasActive ==> Normally(m'.step))
            && Budget(m') <= Budget(m) - LOWEST_SAMPLE_TIME
  {
    var e := Advance1(Prepare(m, i));
    EntryForm(m, i);
    var src := e.(current := Some(e.primary[0]), primary := e.primary[1..]);
    assert Process(k, e) == UpdateNormalGoal(k, src);
    assert Tick(k, m, i) == Emit(k, Refit(UpdateNormalGoal(k, src)));
    TakeUpBudget(k, src);
    hide Prepare, Process, Refit, Emit, UpdateNormalGoal, CourseInv, Sized, PointsBudget, Normally;
  }

  // ---------------------------------------------------------------- Whole runs

  /** Regular messages of a robot that arrives in time; no command is accepted. */
  predicate Attended(k: Maths, m: Motion, acts: seq<Action>)
    decreases |acts|
  {
    acts == [] ||
    ((if acts[0].Message? then Regular(acts[0].input) && Acceptable(m, acts[0].input) && Arrives(m, acts[0].input)
      else !Accepted(m, acts[0])) &&
     Attended(k, Do(k, m, acts[0]), acts[1..]))
  }

  lemma WorkRejects(k: Maths, m: Motion, a: Action)
    requires Working(m) && !a.Message? && !Accepted(m, a)
    ensures var m' := Do(k, m, a);
            Working(m') && Budget(m') == Budget(m) && HeadBudget(m') == HeadBudget(m) && Pipeline(m') == Pipeline(m)
            && m'.current == m.current && m'.primary == m.primary
  {
    RejectedFrame(k, m, a);
    DoKeepsCourse(k, m, a);
    hide Do, CourseInv, Accepted, Timed, AllTimed, Flatten, PointsBudget, QueueBudget;
  }

  /** A queue of joint points with durations is worked off, whatever of it is to be reached: a message for every
      4 ms of its budget is enough, if every point that must be reached is reached in time. */
  lemma {:induction false} WorkIsDone(k: Maths, m: Motion, acts: seq<Action>) returns (j: nat)
    requires Working(m) && Attended(k, m, acts) && LOWEST_SAMPLE_TIME * MessageCount(acts) as real >= Budget(m)
    ensures j <= |acts| && Done(Run(k, m, acts[..j])) && Pipeline(Run(k, m, acts[..j])) == []
    decreases |acts|
  {
    hide Do, Working, Accepted, Acceptable, Arrives, Regular, Pipeline, Budget;
    if Done(m) {
      j := 0;
      assert acts[..0] == [];
      NothingLeft(m);
    } else {
      BudgetIsPositive(m);
      var a, rest := acts[0], acts[1..];
      assert acts == [a] + rest;
      if a.Message? {
        MessageIsTick(k, m, a);
        WorkTick(k, m, a.input);
      } else {
        WorkRejects(k, m, a);
      }
      var j' := WorkIsDone(k, Do(k, m, a), rest);
      j := j' + 1;
      assert acts[..j][1..] == rest[..j'] && acts[..j][0] == a;
    }
  }

  lemma NothingLeft(m: Motion)
    requires Done(m)
    ensures Pipeline(m) == []
  {
  }

  lemma BudgetIsPositive(m: Motion)
    requires !Done(m)
    ensures Budget(m) >= LOWEST_SAMPLE_TIME
  {
    hide PointsBudget;
  }

  /** The point in hand leaves after at most its remaining time, one sample more to overrun it and one to be found
      finished. If it need not be reached, this holds whatever the feedback says. */
  lemma {:induction false} PointIsCompleted(k: Maths, m: Motion, acts: seq<Action>) returns (j: nat)
    requires Working(m) && m.current.Some? && Attended(k, m, acts)
    requires LOWEST_SAMPLE_TIME * MessageCount(acts) as real >= HeadBudget(m)
    ensures 0 < j <= |acts| && |Pipeline(Run(k, m, acts[..j]))| < |Pipeline(m)|
    decreases |acts|
  {
    hide Do, Working, Accepted, Acceptable, Arrives, Regular, Pipeline, HeadBudget, Budget;
    var a, rest := acts[0], acts[1..];
    assert acts == [a] + rest;
    var m1 := Do(k, m, a);
    if a.Message? {
      MessageIsTick(k, m, a);
      WorkTick(k, m, a.input);
    } else {
      WorkRejects(k, m, a);
    }
    if a.Message? && |Pipeline(m1)| < |Pipeline(m)| {
      j := 1;
      assert acts[..1] == [a];
      RunOne(k, m, a);
    } else {
      var j' := PointIsCompleted(k, m1, rest);
      j := j' + 1;
      assert acts[..j][1..] == rest[..j'] && acts[..j][0] == a;
    }
  }
  // ---------------------------------------------------------------- From construction

  /** The goal in hand is a normal one, timed by its own duration. */
  predicate NormalInv(m: Motion) {
    m.hasActive && (m.sm.current.state.Normal? || Resuming(m)) ==> NormalGoalIn(m.step)
  }

  predicate NormalGoalIn(s: MotionStep) {
    s.conditions.operation.NormalOp? && s.conditions.duration == s.goal.duration
  }

  lemma UpdateIsNormal(k: Maths, m: Motion)
    ensures var m' := UpdateNormalGoal(k, m);
            m'.hasNew == m'.hasActive && m'.sm == m.sm && (m'.hasActive ==> NormalGoalIn(m'.step))
  {
    var d := UpdateNormalGoalRefines(k, m);
    hide UpdateNormalGoal, Executes, Exhausted;
  }

  lemma ProcessIsNormal(k: Maths, e: Motion)
    requires Entered(e) && (e.sm.current == RUNNING && e.hasActive ==> NormalGoalIn(e.step))
    ensures NormalInv(Process(k, e))
  {
    GuardNeverRejects(k, e);
    hide FittedInv, FactorInv, ConditionMet, UpdateNormalGoal, NormalGoalIn;
    match e.sm.current.state
    case Normal =>
      UpdateIsNormal(k, e);
      if e.primary != [] { UpdateIsNormal(k, e.(current := Some(e.primary[0]), primary := e.primary[1..])); }
    case RampDown =>
      if e.sm.current.sub.Finished? { EndIsNormal(k, ApplyDiscard(ApplyFactor(e))); }
    case StaticGoal =>
  }

  lemma EndIsNormal(k: Maths, m: Motion)
    requires m.sm.current == STOPPED && !m.sm.hasPending
    ensures var p := EndRampDown(k, m); p.hasActive && Resuming(p) ==> NormalGoalIn(p.step)
  {
    hide UpdateNormalGoal, NormalGoalIn;
    UpdateIsNormal(k, m.(events := m.events.(run := Released(m.events.run))));
  }

  lemma TickIsNormal(k: Maths, m: Motion, i: Input)
    requires Inv(m) && NormalInv(m)
    ensures NormalInv(Tick(k, m, i))
  {
    var p := Prepare(m, i);
    PrepareInv(m, i);
    PrepareIsNormal(m, i);
    if i.ok {
      var e := Advance1(p);
      EnterInv(p);
      AdvanceIsNormal(p);
      hide Prepare, Process, Refit, Emit, Inv, Entered, NormalGoalIn;
      ProcessIsNormal(k, e);
      TakenUpFrame(k, Process(k, e));
      GoalInIs(Process(k, e).step, Emit(k, Refit(Process(k, e))).step);
    }
  }

  lemma GoalInIs(s: MotionStep, s': MotionStep)
    requires s'.conditions == s.conditions && s'.goal == s.goal
    ensures NormalGoalIn(s') == NormalGoalIn(s)
  {
  }

  lemma PrepareIsNormal(m: Motion, i: Input)
    requires NormalInv(m)
    ensures NormalInv(Prepare(m, i))
  {
    hide ResetStep, Remainder;
  }

  lemma AdvanceIsNormal(m: Motion)
    requires Inv(m) && NormalInv(m) && m.sm.current != IDLE
    ensures var e := Advance1(m); e.sm.current == RUNNING && e.hasActive ==> NormalGoalIn(e.step)
  {
    hide FittedInv, FactorInv, NormalGoalIn;
  }

  lemma {:induction false} RunIsNormal(k: Maths, m: Motion, acts: seq<Action>)
    requires Inv(m) && NormalInv(m)
    ensures NormalInv(Run(k, m, acts))
    decreases |acts|
  {
    hide Do, Tick, Inv, NormalInv;
    if acts != [] {
      var a := acts[0];
      DoInv(k, m, a);
      if a.Message? {
        MessageIsTick(k, m, a);
        TickIsNormal(k, m, a.input);
      } else {
        CommandMovesNothing(k, m, a);
        StaysNormal(m, Do(k, m, a));
      }
      RunIsNormal(k, Do(k, m, a), acts[1..]);
    }
  }

  lemma StaysNormal(m: Motion, m': Motion)
    requires NormalInv(m) && m'.sm == m.sm && m'.hasActive == m.hasActive && m'.step == m.step.(kind := m'.step.kind)
    ensures NormalInv(m')
  {
  }

  /** Every point waiting has a duration. */
  predicate Scheduled(m: Motion) {
    && (forall i :: 0 <= i < |Waiting(m)| ==> Waiting(m)[i].duration.Some?)
    && (forall q :: 0 <= q < |m.primary| ==> HasDurations(m.primary[q]))
  }

  predicate HasDurations(points: seq<PointGoal>) { forall i :: 0 <= i < |points| ==> points[i].duration.Some? }

  /** In every run of a joint session whose messages fit: a running machine is at work on whatever it holds. */
  lemma EveryRunIsAtWork(k: Maths, kind: SplineMethod, offset: int, past: seq<Action>)
    requires JointSession(past) && AllAcceptable(k, Initial(kind, offset), past)
    ensures var m := Run(k, Initial(kind, offset), past);
            m.sm.current == RUNNING && !m.sm.hasPending && !m.events.run.rampDown && Scheduled(m) ==> Working(m)
  {
    hide Run, StillInv, JointInv, JointSession, AllAcceptable, Sized, CourseInv, Initial, Working, Inv;
    var m0 := Initial(kind, offset);
    var m := Run(k, m0, past);
    InitialCourse(kind, offset);
    InitialSized(kind, offset);
    InitialStill(kind, offset);
    InitialInv(kind, offset);
    InitiallyNormal(kind, offset);
    RunKeepsCourse(k, m0, past);
    RunSized(k, m0, past);
    StillRun(k, m0, past, [], false);
    RunIsNormal(k, m0, past);
    if m.sm.current == RUNNING && !m.sm.hasPending && !m.events.run.rampDown && Scheduled(m) {
      AtWork(m, [] + AddedIn(k, m0, past));
    }
  }

  lemma InitiallyNormal(kind: SplineMethod, offset: int)
    ensures NormalInv(Initial(kind, offset))
  {
  }

  lemma AtWork(m: Motion, origin: seq<PointGoal>)
    requires CourseInv(m) && Sized(m.step) && m.sm.current == RUNNING && !m.sm.hasPending && !m.events.run.rampDown
    requires Scheduled(m) && NormalInv(m) && JointInv(m, origin)
    ensures Working(m)
  {
    hide CourseInv, Sized, JointPoints;
    if m.current.Some? { JointOrigin(m.current.value, origin); }
    forall q | 0 <= q < |m.primary| ensures Timed(m.primary[q]) {
      JointOrigin(m.primary[q], origin);
      NowTimed(m.primary[q]);
    }
    NowTimed(Waiting(m));
  }

  lemma NowTimed(points: seq<PointGoal>)
    ensures HasDurations(points) && (JointPoints(points) || points == []) ==> Timed(points)
  {
  }

  /** In every run of a joint session: what a running machine holds is worked off within its budget. */
  lemma EveryQueueIsWorkedOff(k: Maths, kind: SplineMethod, offset: int, past: seq<Action>, acts: seq<Action>)
    returns (j: nat)
    requires JointSession(past) && AllAcceptable(k, Initial(kind, offset), past)
    requires var m := Run(k, Initial(kind, offset), past);
             && m.sm.current == RUNNING && !m.sm.hasPending && !m.events.run.rampDown && Scheduled(m)
             && Attended(k, m, acts) && LOWEST_SAMPLE_TIME * MessageCount(acts) as real >= Budget(m)
    ensures var m := Run(k, Initial(kind, offset), past);
            j <= |acts| && Done(Run(k, m, acts[..j])) && Pipeline(Run(k, m, acts[..j])) == []
  {
    hide Run, JointSession, AllAcceptable, Attended, Budget, Working, Scheduled, Pipeline, Initial;
    EveryRunIsAtWork(k, kind, offset, past);
    j := WorkIsDone(k, Run(k, Initial(kind, offset), past), acts);
  }
}
