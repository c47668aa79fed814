/** How much of a point's duration is left, through interruptions. */
module Timing {
  import opened Numeric
  import opened Quaternions
  import opened Interpolation
  import opened Machine
  import opened Dispatching
  import opened Soundness
  import opened Conservation
  import opened Stopping

  /** The time left for the point at the head of the work: what its clock says while it is in hand,
      the stored duration otherwise. */
  function HeadRemaining(m: Motion): Option<real> {
    if InHand(m) then Some(m.step.goal.duration - m.step.timePassed)
    else if Pipeline(m) != [] then Pipeline(m)[0].duration
    else None
  }

  function EntryRemaining(e: Motion): Option<real> {
    if InHandOnEntry(e) then Some(e.step.goal.duration - e.step.timePassed)
    else if EntryPipeline(e) != [] then EntryPipeline(e)[0].duration
    else None
  }

  /** What a stored remainder is. */
  function Kept(d: real): real { Max(LOWEST_SAMPLE_TIME, d) }

  /** Processing a stage, if the head stays: a point put back keeps its remaining time (at least one
      sample); a point taken up gets the duration factor times the time it had; all else is
      unchanged. */
  predicate Carried(e: Motion, p: Motion)
    requires EntryRemaining(e).Some?
  {
    var d := EntryRemaining(e).value;
    if InHand(p) && p.hasNew then p.step.goal.duration == p.step.factor * d
    else if InHand(p) then p.step.goal.duration - p.step.timePassed == d
    else HeadRemaining(p) == Some(if InHandOnEntry(e) then Kept(d) else d)
  }

  lemma TakenUp(k: Maths, m: Motion)
    requires m.current.Some? && m.current.value != [] && m.current.value[0].duration.Some?
    requires UpdateNormalGoal(k, m).hasActive && |UpdateNormalGoal(k, m).current.value| + 1 == |m.current.value|
    ensures UpdateNormalGoal(k, m).step.goal.duration == m.step.factor * m.current.value[0].duration.value
    ensures UpdateNormalGoal(k, m).step.factor == m.step.factor
  {
    var d := UpdateNormalGoalRefines(k, m);
    hide UpdateNormalGoal, Candidate;
    assert d == 0;
  }

  /** If no point leaves, the next one was there to take. */
  lemma NothingDropped(k: Maths, m: Motion)
    requires m.current.Some?
    requires |(if UpdateNormalGoal(k, m).current.Some? then [UpdateNormalGoal(k, m).step.point] else [])
              + Waiting(UpdateNormalGoal(k, m))| == |Waiting(m)|
    ensures m.current.value != [] ==>
              UpdateNormalGoal(k, m).hasActive && |UpdateNormalGoal(k, m).current.value| + 1 == |m.current.value|
  {
    UpdateNormalGoalFrame(k, m);
    hide UpdateNormalGoal;
  }

  lemma CompletionShrinks(k: Maths, e: Motion)
    requires Entered(e) && e.sm.current == RUNNING && e.current.Some? && Complete(e.step)
    ensures |Pipeline(UpdateNormalGoal(k, e))| < |EntryPipeline(e)|
  {
    hide UpdateNormalGoal, ConditionMet, Candidate;
    UpdateNormalGoalFrame(k, e);
    var r := UpdateNormalGoalConserves(k, e);
  }

  lemma NormalCarries(k: Maths, e: Motion)
    requires Entered(e) && e.sm.current == RUNNING
    requires EntryPipeline(e) != [] && EntryRemaining(e).Some?
    requires |Pipeline(ProcessNormal(k, e))| == |EntryPipeline(e)|
    ensures Carried(e, ProcessNormal(k, e))
  {
    if !e.events.run.rampDown && e.current.Some? && Complete(e.step) {
      CompletionShrinks(k, e);
      assert false;
    } else if !e.events.run.rampDown && e.current.None? && e.primary != [] {
      DequeueCarries(k, e);
    } else {
      NormalRequests(k, e);
      hide UpdateNormalGoal, ConditionMet, FittedInv;
    }
  }

  lemma DequeueCarries(k: Maths, e: Motion)
    requires Entered(e) && e.sm.current == RUNNING && e.current.None? && e.primary != []
    requires EntryPipeline(e) != [] && EntryRemaining(e).Some?
    requires var p := UpdateNormalGoal(k, e.(current := Some(e.primary[0]), primary := e.primary[1..]));
             |Pipeline(p)| == |EntryPipeline(e)|
    ensures Carried(e, UpdateNormalGoal(k, e.(current := Some(e.primary[0]), primary := e.primary[1..])))
  {
    var src := e.(current := Some(e.primary[0]), primary := e.primary[1..]);
    assert EntryPipeline(e) == Waiting(src) + Flatten(src.primary);
    UpdateNormalGoalFrame(k, src);
    if src.current.value == [] {
      EmptyTrajectory(k, src);
      hide UpdateNormalGoal;
    } else {
      NothingDropped(k, src);
      TakenUp(k, src);
      hide UpdateNormalGoal;
    }
  }

  lemma EmptyTrajectory(k: Maths, m: Motion)
    requires m.current == Some([])
    ensures UpdateNormalGoal(k, m) == m.(current := None, hasNew := false, hasActive := false)
  {
  }

  lemma RampDownCarries(k: Maths, e: Motion)
    requires Entered(e) && e.sm.current.state.RampDown? && StoredOnEntry(e)
    requires !(e.sm.current == STOPPED && e.events.run.discard)
    requires EntryPipeline(e) != [] && EntryRemaining(e).Some?
    requires |Pipeline(ProcessRampDown(k, e))| == |EntryPipeline(e)|
    ensures Carried(e, ProcessRampDown(k, e))
  {
    match e.sm.current.sub
    case NoSub =>
      RampDownRequests(k, e);
      hide FittedInv, FactorInv, Flatten;
    case Running =>
      hide FittedInv, FactorInv, Flatten;
    case Finished =>
      FactorFrame(e);
      StoppedCarries(k, e, ApplyFactor(e));
      hide EndRampDown, ApplyFactor, ApplyDiscard;
      assert ProcessRampDown(k, e) == EndRampDown(k, ApplyFactor(e));
  }

  lemma StoppedCarries(k: Maths, e: Motion, f: Motion)
    requires Entered(e) && e.sm.current == STOPPED && StoredOnEntry(e)
    requires Entered(f) && f.sm == e.sm && f.current == e.current && f.primary == e.primary && StoredOnEntry(f)
    requires EntryPipeline(e) != [] && EntryRemaining(e).Some?
    requires |Pipeline(EndRampDown(k, f))| == |EntryPipeline(e)|
    ensures Carried(e, EndRampDown(k, f))
  {
    hide UpdateNormalGoal, FittedInv, FactorInv, Released;
    EndRampDownRequests(k, f);
    var src := f.(events := f.events.(run := Released(f.events.run)));
    UpdateNormalGoalFrame(k, src);
    if Requested(f) == Some(RUNNING) && f.current.Some? {
      NothingDropped(k, src);
      TakenUp(k, src);
    }
  }

  lemma StaticCarries(k: Maths, e: Motion)
    requires Entered(e) && e.sm.current.state.StaticGoal?
    requires EntryPipeline(e) != [] && EntryRemaining(e).Some?
    ensures Carried(e, ProcessStatic(k, e))
  {
    hide PreparePosition, PrepareVelocity, FittedInv, FactorInv;
    StaticRequests(k, e);
    StaticConserves(k, e);
  }

  lemma ProcessCarries(k: Maths, e: Motion)
    requires Entered(e) && StoredOnEntry(e) && !(e.sm.current == STOPPED && e.events.run.discard)
    requires EntryPipeline(e) != [] && EntryRemaining(e).Some?
    requires |Pipeline(Process(k, e))| == |EntryPipeline(e)|
    ensures Carried(e, Process(k, e))
  {
    hide ProcessNormal, ProcessRampDown, ProcessStatic, Carried, Pipeline, EntryPipeline, EntryRemaining;
    match e.sm.current
    case Stage(Normal, Running) => NormalCarries(k, e);
    case Stage(Normal, _) => assert false;
    case Stage(RampDown, _) => RampDownCarries(k, e);
    case Stage(StaticGoal, _) => StaticCarries(k, e);
  }

  // ---------------------------------------------------------------- One message

  /** The duration factor is 1 and no change of it is pending. */
  predicate Unscaled(m: Motion) { m.step.factor == 1.0 && !m.events.factorUpdate }

  /** The point in hand has at least one sample left, so storing it would not round its time up. */
  predicate SampleLeft(m: Motion) { InHand(m) ==> m.step.goal.duration - m.step.timePassed >= LOWEST_SAMPLE_TIME }

  lemma PrepareCarries(m: Motion, i: Input)
    requires FlowInv(m) && Harmless(m, Message(i)) && SampleLeft(m) && Pipeline(m) != []
    ensures HeadRemaining(Prepare(m, i)) == HeadRemaining(m) && SampleLeft(Prepare(m, i))
    ensures Unscaled(Prepare(m, i)) == Unscaled(m)
    ensures Prepare(m, i).step.sampleTime == i.sampleTime
  {
    PrepareConserves(m, i);
    hide FromFeedback, FittedInv, FactorInv;
    if i.first && m.current.Some? {
      var stored := [Remainder(Receive(m, i).step)] + m.current.value;
      assert ([stored] + m.primary)[1..] == m.primary;
    }
  }

  lemma EntryCarries(m: Motion)
    requires FlowInv(m) && m.sm.current != IDLE
    ensures EntryRemaining(Advance1(m)) == HeadRemaining(m)
    ensures SampleLeft(m) && InHandOnEntry(Advance1(m)) ==> EntryRemaining(Advance1(m)).value >= LOWEST_SAMPLE_TIME
  {
    EntryConserves(m);
    hide FittedInv, FactorInv, Pipeline, EntryPipeline;
    match m.sm.current
    case Stage(Normal, Running) =>
    case Stage(Normal, _) =>
    case Stage(RampDown, _) =>
    case Stage(StaticGoal, _) =>
  }

  lemma FinishCarries(k: Maths, p: Motion)
    requires Processed(p)
    ensures var m' := Emit(k, Refit(p));
            && m'.step.goal == p.step.goal && m'.step.factor == p.step.factor && InHand(m') == InHand(p)
            && (InHand(p) ==> m'.step.timePassed == (if p.hasNew then 0.0 else p.step.timePassed) + p.step.sampleTime)
  {
    EmitFrame(k, Refit(p));
    hide Updated, Evaluated, FadedReferences, FollowedOutputs, FittedInv, FactorInv;
  }

  lemma FactorKept(k: Maths, e: Motion)
    requires Unscaled(e)
    ensures Unscaled(Process(k, e)) && Process(k, e).step.sampleTime == e.step.sampleTime
  {
    hide Process, EventsAfter;
    ProcessEvents(k, e);
    StepFrame(k, e);
    UnscaledEvents(e);
  }

  lemma UnscaledEvents(e: Motion)
    requires !e.events.factorUpdate
    ensures !EventsAfter(e).factorUpdate
  {
  }

  /** Processing changes neither the sample time nor, unless one is pending, the factor. */
  lemma StepFrame(k: Maths, e: Motion)
    ensures Process(k, e).step.sampleTime == e.step.sampleTime
    ensures !e.events.factorUpdate ==> Process(k, e).step.factor == e.step.factor
  {
    match e.sm.current.state
    case Normal =>
      NormalStepFrame(k, e);
    case RampDown =>
      RampDownStepFrame(k, e);
    case StaticGoal =>
      hide SetPending;
      StaticFrame(k, e);
  }

  lemma NormalStepFrame(k: Maths, e: Motion)
    ensures var s := ProcessNormal(k, e).step; s.sampleTime == e.step.sampleTime && s.factor == e.step.factor
  {
    hide UpdateNormalGoal, ConditionMet, SetPending;
    UpdateNormalGoalFrame(k, e);
    if e.primary != [] { UpdateNormalGoalFrame(k, e.(current := Some(e.primary[0]), primary := e.primary[1..])); }
  }

  lemma RampDownStepFrame(k: Maths, e: Motion)
    ensures var s := ProcessRampDown(k, e).step;
            s.sampleTime == e.step.sampleTime && (!e.events.factorUpdate ==> s.factor == e.step.factor)
  {
    hide EndRampDown, SetPending, Remainder;
    if e.sm.current.sub.Finished? { EndStepFrame(k, ApplyDiscard(ApplyFactor(e))); }
  }

  lemma EndStepFrame(k: Maths, e: Motion)
    ensures var s := EndRampDown(k, e).step; s.sampleTime == e.step.sampleTime && s.factor == e.step.factor
  {
    hide UpdateNormalGoal, SetPending, Released;
    UpdateNormalGoalFrame(k, e.(events := e.events.(run := Released(e.events.run))));
  }

  /** One message takes one sample off the head's time if the head is in hand afterwards, and
      nothing otherwise. */
  lemma TickCarries(k: Maths, m: Motion, i: Input)
    requires FlowInv(m) && !m.events.run.discard && Harmless(m, Message(i)) && Unscaled(m) && SampleLeft(m)
    requires Pipeline(m) != [] && HeadRemaining(m).Some?
    requires |Pipeline(Tick(k, m, i))| == |Pipeline(m)|
    ensures Unscaled(Tick(k, m, i))
    ensures HeadRemaining(Tick(k, m, i))
         == Some(HeadRemaining(m).value - (if InHand(Tick(k, m, i)) then i.sampleTime else 0.0))
  {
    hide Process, Emit, Refit, Prepare, Inv, Entered, Processed, Pipeline, EntryPipeline, HeadRemaining,
         EntryRemaining, Carried, Unscaled, StoredInv, StoredOnEntry;
    var p := Prepare(m, i);
    PrepareInv(m, i);
    PrepareConserves(m, i);
    PrepareCarries(m, i);
    if i.ok {
      var e := Advance1(p);
      EnterInv(p);
      EntryConserves(p);
      EntryCarries(p);
      EntryUnscaled(p);
      ProcessInv(k, e);
      FinishConserves(k, Process(k, e));
      ProcessCarries(k, e);
      FactorKept(k, e);
      Sum(k, m, i, e);
    } else {
      IdleHand(p);
    }
  }

  lemma IdleHand(p: Motion)
    requires Inv(p) && p.sm.current == IDLE
    ensures !InHand(p)
  {
    hide FittedInv, FactorInv;
  }

  lemma EntryUnscaled(p: Motion)
    ensures Unscaled(Advance1(p)) == Unscaled(p)
    ensures Advance1(p).step == p.step && Advance1(p).events == p.events
  {
  }

  lemma Sum(k: Maths, m: Motion, i: Input, e: Motion)
    requires EntryRemaining(e).Some? && Unscaled(e) && e.step.sampleTime == i.sampleTime
    requires Carried(e, Process(k, e)) && Processed(Process(k, e)) && Unscaled(Process(k, e))
    requires Process(k, e).step.sampleTime == e.step.sampleTime
    requires InHandOnEntry(e) ==> EntryRemaining(e).value >= LOWEST_SAMPLE_TIME
    ensures var m' := Emit(k, Refit(Process(k, e)));
            && Unscaled(m')
            && HeadRemaining(m') == Some(EntryRemaining(e).value - (if InHand(m') then i.sampleTime else 0.0))
  {
    hide Process, Emit, Refit, Processed, Pipeline, EntryRemaining;
    var p := Process(k, e);
    FinishCarries(k, p);
    FinishConserves(k, p);
    assert p.step.factor * EntryRemaining(e).value == EntryRemaining(e).value;
  }

  /** The message that takes an interrupted head up again gives it the duration factor, including a
      factor that was pending, times the time it had left. */
  lemma ResumeScales(k: Maths, m: Motion, i: Input)
    requires FlowInv(m) && !m.events.run.discard && i.ok && !i.first
    requires m.sm.current == STOPPED && !m.sm.hasPending && m.current.Some? && HeadRemaining(m).Some?
    requires InHand(Tick(k, m, i)) && |Pipeline(Tick(k, m, i))| == |Pipeline(m)|
    ensures var s := Tick(k, m, i).step;
            && s.factor == (if m.events.factorUpdate then m.events.factor else m.step.factor)
            && s.goal.duration == s.factor * HeadRemaining(m).value
  {
    hide Process, Emit, Refit, Prepare, Inv, Entered, Processed, Pipeline, EntryPipeline, HeadRemaining,
         EntryRemaining, Carried, StoredInv, StoredOnEntry;
    var p := Prepare(m, i);
    var e := Advance1(p);
    PrepareInv(m, i);
    PrepareConserves(m, i);
    PlainPrepare(m, i);
    EnterInv(p);
    EntryConserves(p);
    EntryCarries(p);
    ProcessInv(k, e);
    FinishConserves(k, Process(k, e));
    FinishCarries(k, Process(k, e));
    StoredHead(m, e);
    ProcessCarries(k, e);
    TakenUpIsNew(k, e);
  }

  lemma StoredHead(m: Motion, e: Motion)
    requires FlowInv(m) && m.sm.current == STOPPED && !m.sm.hasPending && m.current.Some? && HeadRemaining(m).Some?
    requires e.current == m.current && e.primary == m.primary && e.sm == m.sm
    ensures EntryPipeline(e) != [] && EntryRemaining(e) == HeadRemaining(m)
  {
    hide Inv;
  }

  lemma TakenUpIsNew(k: Maths, e: Motion)
    requires Entered(e) && e.sm.current == STOPPED && !e.events.run.discard && EntryRemaining(e).Some?
    requires InHand(Process(k, e)) && Carried(e, Process(k, e))
    ensures var s := Process(k, e).step;
            && s.factor == (if e.events.factorUpdate then e.events.factor else e.step.factor)
            && s.goal.duration == s.factor * EntryRemaining(e).value
  {
    hide UpdateNormalGoal, SetPending, Released, EntryRemaining, FittedInv;
    GuardNeverRejects(k, e);
    var f := ApplyDiscard(ApplyFactor(e));
    UpdateNormalGoalFrame(k, f.(events := f.events.(run := Released(f.events.run))));
  }

  // ---------------------------------------------------------------- Whole runs

  /** The total sample time of the messages after which the head was in hand. */
  function ExecutionTime(k: Maths, m: Motion, acts: seq<Action>): real
    decreases |acts|
  {
    if acts == [] then 0.0
    else
      var m' := Do(k, m, acts[0]);
      (if acts[0].Message? && InHand(m') then acts[0].input.sampleTime else 0.0) + ExecutionTime(k, m', acts[1..])
  }

  /** A run in which the head is interrupted at will but not finished, at duration factor 1. */
  predicate Interrupted(k: Maths, m: Motion, acts: seq<Action>)
    decreases |acts|
  {
    acts == [] ||
    (var m' := Do(k, m, acts[0]);
     && Harmless(m, acts[0]) && !(acts[0].UpdateDurationFactor? && Accepted(m, acts[0])) && SampleLeft(m)
     && |Pipeline(m')| == |Pipeline(m)| + |Added(m, acts[0])|
     && Interrupted(k, m', acts[1..]))
  }

  /** Over any number of stops, resumes, static detours and session restarts, the time left plus
      the time executed is the time there was. */
  lemma {:induction false} TimeIsConserved(k: Maths, m: Motion, acts: seq<Action>)
    requires FlowInv(m) && !m.events.run.discard && Unscaled(m) && Pipeline(m) != [] && HeadRemaining(m).Some?
    requires Interrupted(k, m, acts)
    ensures HeadRemaining(Run(k, m, acts)).Some?
    ensures HeadRemaining(Run(k, m, acts)).value + ExecutionTime(k, m, acts) == HeadRemaining(m).value
    decreases |acts|
  {
    hide Do, Inv, StoredInv, Pipeline, HeadRemaining, Unscaled, Added, Harmless, Accepted;
    if acts != [] {
      var a := acts[0];
      var m' := Do(k, m, a);
      var r := DoConserves(k, m, a);
      if a.Message? {
        NothingAdded(m, a);
        MessageIsTick(k, m, a);
        TickCarries(k, m, a.input);
      } else {
        CommandCarries(k, m, a);
      }
      TimeIsConserved(k, m', acts[1..]);
    }
  }

  lemma CommandCarries(k: Maths, m: Motion, a: Action)
    requires FlowInv(m) && !m.events.run.discard && Harmless(m, a) && Unscaled(m) && Pipeline(m) != []
    requires !a.Message? && !(a.UpdateDurationFactor? && Accepted(m, a))
    ensures HeadRemaining(Do(k, m, a)) == HeadRemaining(m) && Unscaled(Do(k, m, a)) && Pipeline(Do(k, m, a)) != []
  {
    hide Tick, Inv;
    if Accepted(m, a) {
      CommandConserves(m, a);
    } else {
      RejectedConserves(k, m, a);
    }
  }
}
