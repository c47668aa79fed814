/** What a fault does not forget. It wipes the work, but the pending events survive it, as they survive the
    restart of a session. Which of them still matter, exactly, and what they do. */
module Aftermaths {
  import opened Numeric
  import opened Quaternions
  import opened Interpolation
  import opened Machine
  import opened Dispatching
  import opened Soundness
  import opened Conservation
  import opened Stopping
  import opened Faults
  import opened StaticGoals
  import opened Pursuits

  // ---------------------------------------------------------------- The flags survive

  /** Neither a fault nor a restart touches an event. */
  lemma EventsSurvive(k: Maths, m: Motion, i: Input)
    ensures Prepare(m, i).events == m.events && (Fault(m, i) ==> Tick(k, m, i).events == m.events)
  {
    PrepareEvents(m, i);
    hide Prepare;
  }

  /** A machine between sessions. */
  predicate Idle(m: Motion) { Inv(m) && m.sm == RESET_STATE && Shaped(m.step.references) }

  lemma AfterFault(k: Maths, m: Motion, i: Input)
    requires Inv(m) && Fault(m, i)
    ensures var m' := Tick(k, m, i);
            && m'.events == m.events && m'.step.factor == m.step.factor && (Fitting(i) ==> Idle(m'))
            && m'.step.references == FromFeedback(i.feedback)
  {
    TickInv(k, m, i);
    FaultWipes(k, m, i);
    EventsSurvive(k, m, i);
    FaultResets(k, m, i);
    hide Tick, Inv;
  }

  lemma FaultResets(k: Maths, m: Motion, i: Input)
    requires Fault(m, i)
    ensures var s := Tick(k, m, i).step; s.references == FromFeedback(i.feedback) && s.factor == m.step.factor
  {
    hide Remainder, FromFeedback;
  }

  // ---------------------------------------------------------------- Machines that differ in their events

  predicate Alike(m: Motion, n: Motion) { n == m.(events := n.events) }

  /** The duration factor after the next stop. */
  function Due(m: Motion): real { if m.events.factorUpdate then m.events.factor else m.step.factor }

  /** The static goals that will be taken up are the same. */
  predicate SameGoals(e: Events, f: Events) {
    && f.still.position == e.still.position && f.still.velocity == e.still.velocity && f.still.finish == e.still.finish
    && (e.still.position ==> f.positionGoal == e.positionGoal && f.still.fast == e.still.fast)
    && (e.still.velocity ==> f.velocityGoal == e.velocityGoal && f.still.fast == e.still.fast)
  }

  /** Two machines that differ at most in events nobody will look at; if not strict, at most in those and in
      what only the static stage looks at. */
  predicate Twins(m: Motion, n: Motion, strict: bool) {
    && Alike(m, n)
    && n.events.run == m.events.run && n.events.still.start == m.events.still.start && Due(n) == Due(m)
    && (strict ==> SameGoals(m.events, n.events))
  }

  /** Functions of the motion alone. */
  lemma PrepareTwins(m: Motion, n: Motion, i: Input, strict: bool)
    requires Twins(m, n, strict)
    ensures Twins(Prepare(m, i), Prepare(n, i), strict)
    ensures Prepare(m, i).events == m.events && Prepare(n, i).events == n.events
  {
    PrepareAlike(m, i, n.events);
    PrepareEvents(m, i);
    PrepareFactor(m, i);
    hide Prepare, SameGoals;
  }

  lemma PrepareAlike(m: Motion, i: Input, e: Events)
    ensures Prepare(m.(events := e), i) == Prepare(m, i).(events := e)
  {
    hide ResetStep, Remainder, OpeningOutputs;
  }

  lemma PrepareFactor(m: Motion, i: Input)
    ensures Prepare(m, i).step.factor == m.step.factor
  {
    hide FromFeedback, Remainder, OpeningOutputs;
  }

  lemma AdvanceTwins(m: Motion, n: Motion, strict: bool)
    requires Twins(m, n, strict)
    ensures Twins(Advance1(m), Advance1(n), strict)
  {
    hide SameGoals;
  }

  lemma UpdateAlike(k: Maths, m: Motion, e: Events)
    ensures UpdateNormalGoal(k, m.(events := e)) == UpdateNormalGoal(k, m).(events := e)
  {
    hide Advanced;
  }

  lemma FinishTwins(k: Maths, m: Motion, n: Motion, strict: bool)
    requires Twins(m, n, strict)
    ensures Twins(Emit(k, Refit(m)), Emit(k, Refit(n)), strict)
  {
    FinishAlike(k, m, n.events);
    RefitFrame(m);
    EmitFrame(k, Refit(m));
    FinishFactor(k, m);
    hide Emit, Refit, SameGoals;
  }

  lemma FinishAlike(k: Maths, m: Motion, e: Events)
    ensures Emit(k, Refit(m.(events := e))) == Emit(k, Refit(m)).(events := e)
  {
    hide UpdateInterpolator, EvaluateInterpolator, FadedReferences, FollowedOutputs;
  }

  lemma FinishFactor(k: Maths, m: Motion)
    ensures Emit(k, Refit(m)).step.factor == m.step.factor
  {
    EmitFrame(k, Refit(m));
    hide Emit, Updated;
  }

  // ---------------------------------------------------------------- Stages

  lemma NormalTwins(k: Maths, m: Motion, n: Motion, strict: bool)
    requires Twins(m, n, strict)
    ensures Twins(ProcessNormal(k, m), ProcessNormal(k, n), strict)
  {
    NormalAlike(k, m, n.events);
    NormalFrame(k, m);
    hide ProcessNormal, SameGoals;
  }

  lemma NormalAlike(k: Maths, m: Motion, e: Events)
    requires e.run == m.events.run
    ensures ProcessNormal(k, m.(events := e)) == ProcessNormal(k, m).(events := e)
  {
    hide UpdateNormalGoal, ConditionMet, SetPending;
    UpdateAlike(k, m, e);
    if m.primary != [] { UpdateAlike(k, m.(current := Some(m.primary[0]), primary := m.primary[1..]), e); }
  }

  lemma NormalFrame(k: Maths, m: Motion)
    ensures ProcessNormal(k, m).events == m.events && ProcessNormal(k, m).step.factor == m.step.factor
  {
    hide UpdateNormalGoal, ConditionMet, SetPending;
    UpdateNormalGoalFrame(k, m);
    if m.primary != [] { UpdateNormalGoalFrame(k, m.(current := Some(m.primary[0]), primary := m.primary[1..])); }
  }

  lemma RampDownTwins(k: Maths, m: Motion, n: Motion, strict: bool)
    requires Twins(m, n, strict)
    ensures Twins(ProcessRampDown(k, m), ProcessRampDown(k, n), strict)
  {
    match m.sm.current.sub
    case NoSub =>
      hide PrepareRampDown, Remainder, SetPending, SameGoals;
      BeginTwins(m, n, strict);
    case Running =>
      hide SetPending, SameGoals;
    case Finished =>
      hide ApplyFactor, ApplyDiscard, EndRampDown, Twins;
      FactorTwins(m, n, strict);
      DiscardTwins(ApplyFactor(m), ApplyFactor(n), strict);
      EndTwins(k, ApplyDiscard(ApplyFactor(m)), ApplyDiscard(ApplyFactor(n)), strict);
  }

  lemma BeginTwins(m: Motion, n: Motion, strict: bool)
    requires Twins(m, n, strict)
    ensures Twins(BeginRampDown(m), BeginRampDown(n), strict)
  {
    hide Remainder, SetPending, SameGoals;
  }

  lemma FactorTwins(m: Motion, n: Motion, strict: bool)
    requires Twins(m, n, strict)
    ensures Twins(ApplyFactor(m), ApplyFactor(n), strict)
  {
    FactorForm(m);
    FactorForm(n);
    hide ApplyFactor;
  }

  lemma FactorForm(m: Motion)
    ensures ApplyFactor(m) == m.(step := m.step.(factor := Due(m)), events := m.events.(factorUpdate := false))
  {
  }

  lemma DiscardTwins(m: Motion, n: Motion, strict: bool)
    requires Twins(m, n, strict)
    ensures Twins(ApplyDiscard(m), ApplyDiscard(n), strict)
  {
  }

  lemma EndTwins(k: Maths, m: Motion, n: Motion, strict: bool)
    requires Twins(m, n, strict)
    ensures Twins(EndRampDown(k, m), EndRampDown(k, n), strict)
  {
    hide UpdateNormalGoal, SetPending, SameGoals;
    var m1 := m.(events := m.events.(run := Released(m.events.run)));
    var n1 := n.(events := n.events.(run := Released(n.events.run)));
    UpdateAlike(k, m1, n1.events);
    UpdateNormalGoalFrame(k, m1);
    SameGoalsRun(m.events, n.events, Released(m.events.run));
  }

  lemma SameGoalsRun(e: Events, f: Events, r: RunEvents)
    ensures SameGoals(e, f) ==> SameGoals(e.(run := r), f.(run := r))
  {
  }

  lemma StaticTwins(k: Maths, m: Motion, n: Motion, strict: bool)
    requires Twins(m, n, strict) && (!strict ==> m.sm.current == STATIC_START)
    ensures Twins(ProcessStatic(k, m), ProcessStatic(k, n), strict)
  {
    hide BeginStatic, RunStatic, EndStatic, Twins;
    var s := m.sm.current;
    assert n.sm.current == s by { TwinStages(m, n, strict); }
    match s.sub
    case NoSub => BeginStaticTwins(m, n, strict);
    case Running => RunStaticTwins(k, m, n);
    case Finished => EndStaticTwins(m, n);
  }

  lemma TwinStages(m: Motion, n: Motion, strict: bool)
    requires Twins(m, n, strict)
    ensures n.sm == m.sm && n.hasActive == m.hasActive && n.step == m.step
  {
  }

  lemma BeginStaticTwins(m: Motion, n: Motion, strict: bool)
    requires Twins(m, n, strict)
    ensures Twins(BeginStatic(m), BeginStatic(n), strict)
  {
    hide SetPending, SameGoals;
  }

  lemma RunStaticTwins(k: Maths, m: Motion, n: Motion)
    requires Twins(m, n, true)
    ensures Twins(RunStatic(k, m), RunStatic(k, n), true)
  {
    ApplyStaticTwins(k, m, n);
    hide ApplyStatic, SetPending;
  }

  lemma ApplyStaticTwins(k: Maths, m: Motion, n: Motion)
    requires Twins(m, n, true)
    ensures Twins(ApplyStatic(k, m), ApplyStatic(k, n), true)
  {
    StaticFrame(k, m);
    hide PreparePosition, PrepareVelocity;
  }

  lemma EndStaticTwins(m: Motion, n: Motion)
    requires Twins(m, n, true)
    ensures Twins(EndStatic(m), EndStatic(n), true)
  {
    hide SetPending;
  }

  lemma ProcessTwins(k: Maths, m: Motion, n: Motion, strict: bool)
    requires Twins(m, n, strict) && (!strict && m.sm.current.state.StaticGoal? ==> m.sm.current == STATIC_START)
    ensures Twins(Process(k, m), Process(k, n), strict)
  {
    hide ProcessNormal, ProcessRampDown, ProcessStatic, SameGoals;
    match m.sm.current.state
    case Normal => NormalTwins(k, m, n, strict);
    case RampDown => RampDownTwins(k, m, n, strict);
    case StaticGoal => StaticTwins(k, m, n, strict);
  }

  lemma TickTwins(k: Maths, m: Motion, n: Motion, i: Input, strict: bool)
    requires Twins(m, n, strict)
    requires !strict ==> var s := Advance1(Prepare(m, i)).sm.current; s.state.StaticGoal? ==> s == STATIC_START
    ensures Twins(Tick(k, m, i), Tick(k, n, i), strict)
  {
    hide Prepare, Process, Refit, Emit, Twins;
    PrepareTwins(m, n, i, strict);
    AdvanceTwins(Prepare(m, i), Prepare(n, i), strict);
    if i.ok {
      ProcessTwins(k, Advance1(Prepare(m, i)), Advance1(Prepare(n, i)), strict);
      FinishTwins(k, Process(k, Advance1(Prepare(m, i))), Process(k, Advance1(Prepare(n, i))), strict);
    }
  }

  lemma CommandTwins(k: Maths, m: Motion, n: Motion, a: Action, strict: bool)
    requires Twins(m, n, strict) && !a.Message?
    ensures Twins(Do(k, m, a), Do(k, n, a), strict)
  {
    if Accepted(m, a) {
      AcceptedTwins(m, n, a, strict);
      hide Tick, Command, Twins;
      TwinStages(m, n, strict);
    } else {
      RejectedFrame(k, m, a);
      RejectedFrame(k, n, a);
      SameKind(k, m, n, a, strict);
      hide Do, SameGoals;
    }
  }

  lemma SameKind(k: Maths, m: Motion, n: Motion, a: Action, strict: bool)
    requires Twins(m, n, strict) && !a.Message? && !Accepted(m, a)
    ensures !Accepted(n, a) && Do(k, m, a).step.kind == Do(k, n, a).step.kind
  {
    hide Tick, Command, SameGoals;
  }

  lemma AcceptedTwins(m: Motion, n: Motion, a: Action, strict: bool)
    requires Twins(m, n, strict) && Accepted(m, a)
    ensures Twins(Command(m, a), Command(n, a), strict) && Accepted(n, a)
  {
    match a
    case AddTrajectory(points, override) => AddTwins(m, n, points, override, strict);
    case SetStaticPosition(g, fast) =>
    case SetStaticVelocity(g, fast) =>
    case _ =>
  }

  lemma AddTwins(m: Motion, n: Motion, points: Trajectory, override: bool, strict: bool)
    requires Twins(m, n, strict)
    ensures Twins(AddAccepted(m, points, override), AddAccepted(n, points, override), strict)
  {
  }

  lemma {:induction false} RunTwins(k: Maths, m: Motion, n: Motion, acts: seq<Action>)
    requires Twins(m, n, true)
    ensures Twins(Run(k, m, acts), Run(k, n, acts), true)
    decreases |acts|
  {
    hide Do, Tick, Twins;
    if acts != [] {
      var a := acts[0];
      if a.Message? {
        MessageIsTick(k, m, a);
        MessageIsTick(k, n, a);
        TickTwins(k, m, n, a.input, true);
      } else {
        CommandTwins(k, m, n, a, true);
      }
      RunTwins(k, Do(k, m, a), Do(k, n, a), acts[1..]);
    }
  }
}
