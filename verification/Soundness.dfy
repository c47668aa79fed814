/** State-machine soundness and goal bookkeeping, over every interleaving of commands and messages. */
module Soundness {
  import opened Numeric
  import opened Quaternions
  import opened Splines
  import opened Messages
  import opened Interpolation
  import opened Machine
  import opened Dispatching

  /** The state manager: (Normal, Finished) does not occur, an idle machine awaits nothing, a pending
      stage is a legal successor, and the three pass-through stages always have theirs pending. */
  predicate ManagerInv(sm: StateManager) {
    && sm.current != Stage(Normal, Finished)
    && (sm.hasPending ==> Legal(sm.current, sm.pending))
    && (sm.current in {RAMP_START, STATIC_START, STATIC_END} ==> sm.hasPending)
  }

  /** A resume has been granted and the first point of the resumed motion dispatched. */
  predicate Resuming(m: Motion) { m.sm.current == STOPPED && m.sm.hasPending && m.sm.pending == RUNNING }

  /** The active point has been popped from the current trajectory and not been put back. */
  predicate InHand(m: Motion) { m.current.Some? && (m.sm.current.state.Normal? || Resuming(m)) }

  predicate GoalInv(m: Motion) {
    && (m.sm.current.state.Normal? || Resuming(m) ==> (m.hasActive <==> m.current.Some?))
    && (m.sm.current.state.StaticGoal? ==> m.current.None?)
    && (m.sm.current.state.RampDown? && !Resuming(m) ==> m.hasActive)
    && (m.sm.current == IDLE ==> m.current.None?)
    && (m.hasNew ==> m.hasActive)
  }

  /** An active goal is the one the interpolator was last fitted to. */
  predicate FittedInv(m: Motion) {
    && |m.step.interpolator.splines| == SPLINES
    && (m.hasActive ==> m.step.interpolator.conditions == Clamped(m.step.conditions))
    && (m.hasActive && UsesSplines(m.step.conditions.operation) ==>
          m.step.interpolator.offset == |m.step.references.joints.position|)
  }

  predicate FactorInv(m: Motion) {
    && DURATION_FACTOR_MIN <= m.step.factor <= DURATION_FACTOR_MAX
    && DURATION_FACTOR_MIN <= m.events.factor <= DURATION_FACTOR_MAX
  }

  predicate Inv(m: Motion) { ManagerInv(m.sm) && GoalInv(m) && FittedInv(m) && FactorInv(m) }

  lemma InitialInv(kind: SplineMethod, offset: int)
    ensures Inv(Initial(kind, offset))
  {
  }

  // ---------------------------------------------------------------- Requested transitions

  /** The transition the processing of a stage asks for, read off the events. */
  function Requested(m: Motion): Option<Stage> {
    var e := m.events;
    match m.sm.current
    case Stage(Normal, Running) => if e.run.rampDown then Some(RAMP_START) else None
    case Stage(Normal, _) => None
    case Stage(RampDown, NoSub) => Some(RAMPING)
    case Stage(RampDown, Running) => if DurationReached(m.step) then Some(STOPPED) else None
    case Stage(RampDown, Finished) =>
      if !e.run.stop then Some(RUNNING)
      else if !e.run.resume then None
      else if e.still.start then Some(STATIC_START)
      else Some(RUNNING)
    case Stage(StaticGoal, NoSub) => Some(STATIC)
    case Stage(StaticGoal, Running) =>
      if e.still.finish then Some(STATIC_END) else if e.run.rampDown then Some(RAMP_START) else None
    case Stage(StaticGoal, Finished) => Some(RAMP_START)
  }

  /** The guard never rejects: whatever processing asks for is granted, and nothing else is. */
  lemma GuardNeverRejects(k: Maths, m: Motion)
    ensures var r := Requested(m);
            && (r.Some? ==> Legal(m.sm.current, r.value))
            && Process(k, m).sm == if r.Some? then StateManager(m.sm.current, r.value, true) else m.sm
  {
    match m.sm.current.state
    case Normal => NormalRequests(k, m);
    case RampDown => RampDownRequests(k, m);
    case StaticGoal => StaticRequests(k, m);
  }

  lemma NormalRequests(k: Maths, m: Motion)
    requires m.sm.current.state.Normal?
    ensures ProcessNormal(k, m).sm == if Requested(m).Some? then StateManager(m.sm.current, Requested(m).value, true)
            else m.sm
  {
    if m.current.Some? {
      UpdateNormalGoalFrame(k, m);
    } else if m.primary != [] {
      UpdateNormalGoalFrame(k, m.(current := Some(m.primary[0]), primary := m.primary[1..]));
    }
    hide UpdateNormalGoal, ConditionMet;
  }

  lemma RampDownRequests(k: Maths, m: Motion)
    requires m.sm.current.state.RampDown?
    ensures ProcessRampDown(k, m).sm == if Requested(m).Some? then StateManager(m.sm.current, Requested(m).value, true)
            else m.sm
  {
    hide PrepareRampDown, EndRampDown, Remainder;
    if m.sm.current.sub.Finished? { EndRampDownRequests(k, ApplyDiscard(ApplyFactor(m))); }
  }

  lemma EndRampDownRequests(k: Maths, m: Motion)
    requires m.sm.current == STOPPED
    ensures EndRampDown(k, m).sm == if Requested(m).Some? then StateManager(m.sm.current, Requested(m).value, true)
            else m.sm
  {
    hide UpdateNormalGoal;
    UpdateNormalGoalFrame(k, m.(events := m.events.(run := Released(m.events.run))));
  }

  lemma StaticRequests(k: Maths, m: Motion)
    requires m.sm.current.state.StaticGoal?
    ensures ProcessStatic(k, m).sm == if Requested(m).Some? then StateManager(m.sm.current, Requested(m).value, true)
            else m.sm
  {
    hide PreparePosition, PrepareVelocity;
  }

  /** What processing a stage does to the pending events. */
  function EventsAfter(m: Motion): Events {
    var e := m.events;
    match m.sm.current
    case Stage(RampDown, Finished) =>
      var run := e.run.(discard := false);
      e.(factorUpdate := false, run := if run.stop && !run.resume then run else Released(run))
    case Stage(StaticGoal, Running) =>
      if e.run.rampDown then e
      else if e.still.position then e.(positionGoal := NO_POSITION_GOAL, still := e.still.(position := false))
      else if e.still.velocity then e.(velocityGoal := NO_VELOCITY_GOAL, still := e.still.(velocity := false))
      else e
    case Stage(StaticGoal, Finished) =>
      e.(still := StaticEvents(false, e.still.fast, false, false, false), run := e.run.(rampDown := true, stop := true))
    case _ => e
  }

  lemma ProcessEvents(k: Maths, m: Motion)
    ensures Process(k, m).events == EventsAfter(m)
  {
    match m.sm.current.state
    case Normal => NormalEventsAfter(k, m);
    case RampDown => RampDownEventsAfter(k, m);
    case StaticGoal => StaticEventsAfter(k, m);
  }

  lemma NormalEventsAfter(k: Maths, m: Motion)
    ensures ProcessNormal(k, m).events == m.events
  {
    hide Advanced, ConditionMet, SetPending;
  }

  lemma RampDownEventsAfter(k: Maths, m: Motion)
    requires m.sm.current.state.RampDown?
    ensures ProcessRampDown(k, m).events == EventsAfter(m)
  {
    hide EndRampDown, PrepareRampDown, SetPending, Remainder;
    if m.sm.current.sub.Finished? { EndRampDownEvents(k, ApplyDiscard(ApplyFactor(m))); }
  }

  lemma EndRampDownEvents(k: Maths, m: Motion)
    ensures var e := m.events;
            EndRampDown(k, m).events == e.(run := if e.run.stop && !e.run.resume then e.run else Released(e.run))
  {
    hide UpdateNormalGoal, SetPending;
    UpdateNormalGoalFrame(k, m.(events := m.events.(run := Released(m.events.run))));
  }

  lemma PrepareEvents(m: Motion, i: Input)
    ensures Prepare(m, i).events == m.events
  {
    hide ResetStep, Remainder;
  }

  lemma StaticEventsAfter(k: Maths, m: Motion)
    requires m.sm.current.state.StaticGoal?
    ensures ProcessStatic(k, m).events == EventsAfter(m)
  {
    hide PreparePosition, PrepareVelocity, SetPending;
  }

  /** Processing prepares goals; it moves nothing. */
  predicate Unmoved(m: Motion, p: Motion) {
    && p.controller == m.controller && p.outputs == m.outputs
    && p.step.references == m.step.references && p.step.interpolator == m.step.interpolator
    && p.step.timePassed == m.step.timePassed && p.step.sampleTime == m.step.sampleTime
    && p.step.feedback == m.step.feedback && p.step.kind == m.step.kind
  }

  lemma ProcessMovesNothing(k: Maths, m: Motion)
    ensures Unmoved(m, Process(k, m))
  {
    hide ProcessNormal, ProcessRampDown, ProcessStatic, Unmoved;
    match m.sm.current.state
    case Normal => NormalMovesNothing(k, m);
    case RampDown => RampDownMovesNothing(k, m);
    case StaticGoal => StaticMovesNothing(k, m);
  }

  lemma NormalMovesNothing(k: Maths, m: Motion)
    ensures Unmoved(m, ProcessNormal(k, m))
  {
    hide UpdateNormalGoal, ConditionMet, SetPending;
    UpdateNormalGoalFrame(k, m);
    if m.primary != [] { UpdateNormalGoalFrame(k, m.(current := Some(m.primary[0]), primary := m.primary[1..])); }
  }

  lemma RampDownMovesNothing(k: Maths, m: Motion)
    ensures Unmoved(m, ProcessRampDown(k, m))
  {
    hide EndRampDown, SetPending, Remainder;
    if m.sm.current.sub.Finished? { EndMovesNothing(k, ApplyDiscard(ApplyFactor(m))); }
  }

  lemma EndMovesNothing(k: Maths, m: Motion)
    ensures Unmoved(m, EndRampDown(k, m))
  {
    hide UpdateNormalGoal, SetPending, Released;
    UpdateNormalGoalFrame(k, m.(events := m.events.(run := Released(m.events.run))));
  }

  lemma StaticMovesNothing(k: Maths, m: Motion)
    ensures Unmoved(m, ProcessStatic(k, m))
  {
    hide PreparePosition, PrepareVelocity, SetPending;
    StaticFrame(k, m);
  }

  // ---------------------------------------------------------------- One message

  /** A stage has just been entered and not been processed yet. */
  predicate Entered(m: Motion) {
    && m.sm.current != IDLE && m.sm.current != Stage(Normal, Finished) && !m.sm.hasPending && !m.hasNew
    && (m.sm.current == RUNNING ==> (m.hasActive <==> m.current.Some?))
    && (m.sm.current == RAMP_START && m.current.Some? ==> m.hasActive)
    && (m.sm.current in {RAMPING, STOPPED} ==> m.hasActive)
    && (m.sm.current in {STATIC, STATIC_END} ==> m.current.None?)
    && FittedInv(m) && FactorInv(m)
  }

  /** The stage has been processed; a new goal still has to be fitted. */
  predicate Processed(m: Motion) {
    && ManagerInv(m.sm) && GoalInv(m) && FactorInv(m) && |m.step.interpolator.splines| == SPLINES
    && (!m.hasNew ==> FittedInv(m))
  }

  lemma PrepareInv(m: Motion, i: Input)
    requires Inv(m)
    ensures Inv(Prepare(m, i)) && !Prepare(m, i).hasNew
    ensures i.ok ==> Prepare(m, i).sm.current != IDLE
    ensures !i.ok ==> Prepare(m, i).sm.current == IDLE && !Prepare(m, i).hasActive
  {
    hide FromFeedback;
  }

  lemma EnterInv(m: Motion)
    requires Inv(m) && !m.hasNew && m.sm.current != IDLE
    ensures Entered(Advance1(m))
  {
    hide Clamped;
  }

  lemma ProcessInv(k: Maths, m: Motion)
    requires Entered(m)
    ensures Processed(Process(k, m))
  {
    GuardNeverRejects(k, m);
    match m.sm.current.state
    case Normal => ProcessNormalInv(k, m);
    case RampDown => ProcessRampDownInv(k, m);
    case StaticGoal => ProcessStaticInv(k, m);
  }

  lemma ProcessNormalInv(k: Maths, m: Motion)
    requires Entered(m) && m.sm.current.state.Normal?
    ensures Processed(ProcessNormal(k, m))
  {
    NormalRequests(k, m);
    if m.current.Some? {
      UpdateNormalGoalFrame(k, m);
    } else if m.primary != [] {
      UpdateNormalGoalFrame(k, m.(current := Some(m.primary[0]), primary := m.primary[1..]));
    }
    hide UpdateNormalGoal, ConditionMet, Clamped;
  }

  lemma ProcessRampDownInv(k: Maths, m: Motion)
    requires Entered(m) && m.sm.current.state.RampDown?
    ensures Processed(ProcessRampDown(k, m))
  {
    RampDownRequests(k, m);
    if m.sm.current.sub.Finished? { EndRampDownInv(k, ApplyDiscard(ApplyFactor(m))); }
    hide Clamped, EndRampDown;
  }

  lemma EndRampDownInv(k: Maths, m: Motion)
    requires Entered(m) && m.sm.current == STOPPED
    ensures Processed(EndRampDown(k, m))
  {
    hide UpdateNormalGoal, Clamped;
    EndRampDownRequests(k, m);
    UpdateNormalGoalFrame(k, m.(events := m.events.(run := Released(m.events.run))));
  }

  lemma ProcessStaticInv(k: Maths, m: Motion)
    requires Entered(m) && m.sm.current.state.StaticGoal?
    ensures Processed(ProcessStatic(k, m))
  {
    StaticRequests(k, m);
    StaticFrame(k, m);
    hide PreparePosition, PrepareVelocity, Clamped;
  }

  lemma StaticFrame(k: Maths, m: Motion)
    ensures SameMotion(m.step, PreparePosition(k, m.step, m.events.positionGoal, m.events.still.fast))
    ensures SameMotion(m.step, PrepareVelocity(m.step, m.events.velocityGoal, m.events.still.fast))
  {
  }

  lemma RefitInv(m: Motion)
    requires Processed(m)
    ensures Inv(Refit(m))
  {
  }

  lemma EmitFrame(k: Maths, m: Motion)
    ensures var m' := Emit(k, m);
            && m' == m.(step := m'.step, outputs := m'.outputs)
            && m'.step == m.step.(timePassed := m'.step.timePassed, references := m'.step.references)
            && |m'.step.references.joints.position| == |m.step.references.joints.position|
  {
    EvaluatedLengths(k, m.step.interpolator, m.step.references, m.step.sampleTime,
        m.step.timePassed + m.step.sampleTime);
    hide Evaluated, FollowedOutputs;
  }

  lemma EvaluatedLengths(k: Maths, ip: Interpolator, out: Reference, dt: real, t: real)
    ensures var r := Evaluated(k, ip, out, dt, t);
            && |r.joints.position| == |out.joints.position| && |r.joints.velocity| == |out.joints.velocity|
            && |r.joints.acceleration| == |out.joints.acceleration|
            && |r.external.position| == |out.external.position| && |r.external.velocity| == |out.external.velocity|
            && |r.external.acceleration| == |out.external.acceleration|
            && r.reach == out.reach && r.duration == out.duration
  {
  }

  lemma TickInv(k: Maths, m: Motion, i: Input)
    requires Inv(m)
    ensures Inv(Tick(k, m, i))
  {
    var p := Prepare(m, i);
    PrepareInv(m, i);
    if i.ok {
      EnterInv(p);
      ProcessInv(k, Advance1(p));
      RefitInv(Process(k, Advance1(p)));
      EmitFrame(k, Refit(Process(k, Advance1(p))));
      hide Emit, Refit, Process, Prepare;
    }
  }

  lemma CommandInv(m: Motion, a: Action)
    requires Inv(m) && Accepted(m, a)
    ensures Inv(Command(m, a))
  {
    hide Clamped;
  }

  lemma DoInv(k: Maths, m: Motion, a: Action)
    requires Inv(m)
    ensures Inv(Do(k, m, a))
  {
    if a.Message? {
      TickInv(k, m, a.input);
      hide Tick;
    } else if Accepted(m, a) {
      CommandInv(m, a);
      hide Command;
    }
  }

  /** Every run keeps the invariant, whatever the commands, messages and library functions. */
  lemma {:induction false} RunInv(k: Maths, m: Motion, acts: seq<Action>)
    requires Inv(m)
    ensures Inv(Run(k, m, acts))
    decreases |acts|
  {
    if acts != [] {
      DoInv(k, m, acts[0]);
      RunInv(k, Do(k, m, acts[0]), acts[1..]);
    }
  }
}
