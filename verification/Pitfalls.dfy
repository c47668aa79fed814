/** Where the code does not do what its documentation suggests: each case with the exact condition
    under which it does. */
module Pitfalls {
  import opened Numeric
  import opened Quaternions
  import opened Splines
  import opened Messages
  import opened Machine
  import opened Dispatching
  import opened Soundness
  import opened Conservation
  import opened Stopping

  // ---------------------------------------------------------------- Session restarts

  /** A first message stores the current point again even if a ramp down has stored it already. The
      work is preserved exactly if there is no current trajectory or its point is still in hand. */
  lemma RestartConservesIff(m: Motion, i: Input)
    requires FlowInv(m) && i.first
    ensures SameButHead(Pipeline(Prepare(m, i)), Pipeline(m)) <==> m.current.None? || InHand(m)
  {
    if m.current.None? || InHand(m) {
      PrepareConserves(m, i);
    } else {
      RestartDuplicates(m, i);
    }
  }

  /** Otherwise the stored point is there twice. */
  lemma RestartDuplicates(m: Motion, i: Input)
    requires FlowInv(m) && i.first && m.current.Some? && !InHand(m)
    ensures var p := Pipeline(Prepare(m, i));
            |p| == |Pipeline(m)| + 1 && p[1..] == Pipeline(m) && p[0] == p[1].(duration := p[0].duration)
  {
    hide Prepare, Inv, StoredInv, Flatten;
    RestartForm(m, i);
    StoredAgain(m);
    var stored := [Remainder(m.step)] + m.current.value;
    FlattenCons(stored, m.primary);
    assert Pipeline(Prepare(m, i)) == [Remainder(m.step)] + Pipeline(m);
  }

  lemma FlattenCons(t: Trajectory, q: seq<Trajectory>)
    ensures Flatten([t] + q) == t + Flatten(q)
  {
    assert ([t] + q)[1..] == q;
  }

  lemma RestartForm(m: Motion, i: Input)
    requires i.first && m.current.Some?
    ensures var p := Prepare(m, i);
            && p.current.None? && p.primary == [[Remainder(m.step)] + m.current.value] + m.primary
  {
    hide FromFeedback;
    assert Remainder(Receive(m, i).step) == Remainder(m.step);
  }

  lemma StoredAgain(m: Motion)
    requires FlowInv(m) && m.current.Some? && !InHand(m)
    ensures m.current.value != [] && m.current.value[0] == m.step.point
  {
    hide FittedInv, FactorInv;
    match m.sm.current
    case Stage(Normal, _) =>
    case Stage(RampDown, _) =>
    case Stage(StaticGoal, _) =>
  }

  // ---------------------------------------------------------------- A run that gets there

  const PAUSE: PointGoal := EMPTY_POINT.(duration := Some(1.0))

  const OPENING: Input := Input(true, true, LOWEST_SAMPLE_TIME, NO_FEEDBACK)

  const BEAT: Input := Input(false, true, LOWEST_SAMPLE_TIME, NO_FEEDBACK)

  const INTERRUPTION: seq<Action> :=
    [Message(OPENING), AddTrajectory([PAUSE], false), Message(BEAT), StopTrajectory(false), Message(BEAT),
        Message(BEAT)]

  /** One point is accepted and a stop interrupts it; a restart then leaves the point twice. */
  lemma DuplicatingRun(k: Maths, kind: SplineMethod, offset: int)
    ensures var m := Run(k, Initial(kind, offset), INTERRUPTION);
            && AddedIn(k, Initial(kind, offset), INTERRUPTION) == [PAUSE]
            && |Pipeline(m)| == 1 && |Pipeline(Prepare(m, OPENING))| == 2
  {
    hide Tick, Prepare, Flatten, Initial, Inv, Run, AddedIn;
    var m0 := Initial(kind, offset);
    InitialFlow(kind, offset);
    InitialForm(kind, offset);
    var m1 := Tick(k, m0, OPENING);
    Opened(k, m0);
    TickInv(k, m0, OPENING);
    var m2 := Do(k, m1, INTERRUPTION[1]);
    DoInv(k, m1, INTERRUPTION[1]);
    assert m2 == m1.(primary := [[PAUSE]]);
    var m3 := Tick(k, m2, BEAT);
    StartedPoint(k, m2);
    TickInv(k, m2, BEAT);
    var m6 := InterruptedPoint(k, m3);
    FlattenNone();
    RestartDuplicates(m6, OPENING);
    Unroll(k, m0);
  }

  lemma InitialForm(kind: SplineMethod, offset: int)
    ensures var m := Initial(kind, offset);
            m.sm == RESET_STATE && m.events == NO_EVENTS && m.current.None? && m.primary == []
  {
  }

  lemma InterruptedPoint(k: Maths, m3: Motion) returns (m6: Motion)
    requires Inv(m3) && m3.sm == StateManager(RUNNING, IDLE, false) && m3.events == NO_EVENTS
    requires m3.current == Some([]) && m3.primary == []
    ensures m6 == Tick(k, Tick(k, Do(k, m3, StopTrajectory(false)), BEAT), BEAT)
    ensures FlowInv(m6) && m6.sm.current == RAMP_START && m6.current.Some? && |m6.current.value| == 1
            && m6.primary == []
  {
    hide Tick, Inv;
    var m4 := Do(k, m3, StopTrajectory(false));
    DoInv(k, m3, StopTrajectory(false));
    var m5 := Tick(k, m4, BEAT);
    Slowing(k, m4);
    TickInv(k, m4, BEAT);
    m6 := Tick(k, m5, BEAT);
    Interrupting(k, m5);
    TickInv(k, m5, BEAT);
  }

  lemma FlattenNone()
    ensures Flatten([]) == []
  {
  }

  lemma Unroll(k: Maths, m0: Motion)
    ensures var m1 := Do(k, m0, Message(OPENING));
            var m2 := Do(k, m1, AddTrajectory([PAUSE], false));
            var m3 := Do(k, m2, Message(BEAT));
            var m4 := Do(k, m3, StopTrajectory(false));
            && Run(k, m0, INTERRUPTION) == Do(k, Do(k, m4, Message(BEAT)), Message(BEAT))
            && (m1.sm.current == RUNNING ==> AddedIn(k, m0, INTERRUPTION) == [PAUSE])
  {
    hide Do;
    var m1 := Do(k, m0, Message(OPENING));
    var m2 := Do(k, m1, AddTrajectory([PAUSE], false));
    var m3 := Do(k, m2, Message(BEAT));
    var m4 := Do(k, m3, StopTrajectory(false));
    var m5 := Do(k, m4, Message(BEAT));
    var m6 := Do(k, m5, Message(BEAT));
    Step(k, m0, INTERRUPTION);
    Step(k, m1, INTERRUPTION[1..]);
    Step(k, m2, INTERRUPTION[2..]);
    Step(k, m3, INTERRUPTION[3..]);
    Step(k, m4, INTERRUPTION[4..]);
    Step(k, m5, INTERRUPTION[5..]);
    assert Run(k, m6, []) == m6 && AddedIn(k, m6, []) == [];
  }

  lemma Step(k: Maths, m: Motion, acts: seq<Action>)
    requires acts != []
    ensures Run(k, m, acts) == Run(k, Do(k, m, acts[0]), acts[1..])
    ensures AddedIn(k, m, acts) == Added(m, acts[0]) + AddedIn(k, Do(k, m, acts[0]), acts[1..])
  {
    hide Do, Added;
  }

  lemma Opened(k: Maths, m: Motion)
    requires m.sm == RESET_STATE && m.events == NO_EVENTS && m.current.None? && m.primary == []
    ensures var m' := Tick(k, m, OPENING);
            m'.sm == StateManager(RUNNING, IDLE, false) && m'.events == NO_EVENTS && m'.current.None?
                && m'.primary == []
  {
    hide FromFeedback;
  }

  lemma StartedPoint(k: Maths, m: Motion)
    requires Inv(m) && m.sm == StateManager(RUNNING, IDLE, false) && m.events == NO_EVENTS
    requires m.current.None? && m.primary == [[PAUSE]]
    ensures var m' := Tick(k, m, BEAT);
            && m'.sm == m.sm && m'.events == NO_EVENTS && m'.current == Some([]) && m'.primary == []
            && m'.step.point == PAUSE
  {
    PlainPrepare(m, BEAT);
    var e := Advance1(Prepare(m, BEAT));
    var src := e.(current := Some([PAUSE]), primary := []);
    hide Prepare, Emit, Refit, Advanced, FittedInv, FactorInv;
    assert e.primary[0] == [PAUSE] && e.primary[1..] == [];
    assert Process(k, e) == UpdateNormalGoal(k, src);
    var d := UpdateNormalGoalRefines(k, src);
    assert UpdateNormalGoal(k, src).hasActive;
    hide Process, UpdateNormalGoal;
    RefitFrame(Process(k, e));
    EmitFrame(k, Refit(Process(k, e)));
  }

  lemma Slowing(k: Maths, m: Motion)
    requires Inv(m) && m.sm == StateManager(RUNNING, IDLE, false) && m.events.run.rampDown
    ensures var m' := Tick(k, m, BEAT);
            && m'.sm == StateManager(RUNNING, RAMP_START, true) && m'.events == m.events
            && m'.current == m.current && m'.primary == m.primary && m'.step.point == m.step.point
  {
    PlainPrepare(m, BEAT);
    hide Prepare, Emit, Refit, FittedInv, FactorInv;
    var e := Advance1(Prepare(m, BEAT));
    RefitFrame(Process(k, e));
    EmitFrame(k, Refit(Process(k, e)));
  }

  lemma Interrupting(k: Maths, m: Motion)
    requires Inv(m) && m.sm == StateManager(RUNNING, RAMP_START, true) && m.current == Some([]) && m.primary == []
    ensures var m' := Tick(k, m, BEAT);
            && m'.sm.current == RAMP_START && m'.current.Some? && |m'.current.value| == 1 && m'.primary == []
            && m'.current.value[0] == m'.step.point
  {
    PlainPrepare(m, BEAT);
    hide Prepare, Emit, Refit, FittedInv, FactorInv, Remainder;
    var e := Advance1(Prepare(m, BEAT));
    RefitFrame(Process(k, e));
    EmitFrame(k, Refit(Process(k, e)));
  }

  // ---------------------------------------------------------------- The last point

  /** The flag for the last point is computed before points are skipped, so the executed point is
      forced to be reached only if it was alone in its trajectory. */
  lemma LastFlagIff(k: Maths, m: Motion)
    requires UpdateNormalGoal(k, m).hasActive
    ensures var s := UpdateNormalGoal(k, m).step;
            s.goal.reach <==> s.point.reach || |m.current.value| == 1
  {
    var d := UpdateNormalGoalRefines(k, m);
    hide UpdateNormalGoal, PrepareNormal, Exhausted;
    ReachOf(k, m.step, m.current.value, |m.current.value| == 1, d);
  }

  lemma {:induction false} ReachOf(k: Maths, s: MotionStep, points: Trajectory, last: bool, j: nat)
    requires j < |points|
    ensures PreparedUpTo(k, s, points, last, j).goal.reach <==> points[j].reach || last
  {
    hide PrepareNormal;
    var before := if j == 0 then s else PreparedUpTo(k, s, points, last, j - 1);
    PreparedReach(k, before.(point := points[j]), last);
  }

  lemma PreparedReach(k: Maths, s: MotionStep, last: bool)
    ensures PrepareNormal(k, s, last).goal.reach <==> s.point.reach || last
  {
    hide EstimateDuration, Overlay, OverlayPose, OverlayVec;
  }

  // ---------------------------------------------------------------- Fading after a resume

  /** The point taken up by a resume is followed with the controller still set for a ramp down, so its
      velocity references are not faded out even if it has to be reached. */
  lemma ResumedPointIsNotFaded(k: Maths, m: Motion, i: Input)
    requires Inv(m) && m.sm.current == STOPPED && !m.sm.hasPending && Regular(i)
    requires InHand(Tick(k, m, i))
    ensures !Tick(k, m, i).controller.normal
  {
    PlainPrepare(m, i);
    PrepareInv(m, i);
    EnterInv(Prepare(m, i));
    var e := Advance1(Prepare(m, i));
    hide Emit, Prepare, Process, Inv, Entered, Processed;
    GuardNeverRejects(k, e);
    ProcessInv(k, e);
    EmitFrame(k, Refit(Process(k, e)));
    ResumedIsNew(k, e);
  }

  lemma ResumedIsNew(k: Maths, e: Motion)
    requires Entered(e) && e.sm.current == STOPPED && InHand(Process(k, e))
    ensures Process(k, e).hasNew
  {
    hide UpdateNormalGoal, SetPending, Released, FittedInv;
    GuardNeverRejects(k, e);
    var f := ApplyDiscard(ApplyFactor(e));
    UpdateNormalGoalFrame(k, f.(events := f.events.(run := Released(f.events.run))));
  }
}
