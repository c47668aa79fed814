/** When what was asked before a fault is forgotten: exactly if no event is left that anyone will look at.
    For every other event there is a run that shows it. */
module Forgetting {
  import opened Quaternions
  import opened Messages
  import opened Interpolation
  import opened Machine
  import opened Dispatching
  import opened Soundness
  import opened Conservation
  import opened Stopping
  import opened Faults
  import opened References
  import opened StaticGoals
  import opened Races
  import opened Pursuits
  import opened SlowGoals
  import opened StaticEntries
  import opened Aftermaths

  /** No flag is up, and the duration factor will not change by itself. */
  predicate Clear(m: Motion) {
    && m.events.run == RunEvents(false, false, false, false) && Due(m) == m.step.factor
    && !m.events.still.start && !m.events.still.position && !m.events.still.velocity && !m.events.still.finish
  }

  /** The same machine, never asked anything. */
  function Unasked(m: Motion): Motion { m.(events := NO_EVENTS) }

  /** With no flag up, every run is the run of a machine that was never asked anything. */
  lemma ClearIsForgotten(k: Maths, m: Motion, acts: seq<Action>)
    requires Clear(m)
    ensures Alike(Run(k, m, acts), Run(k, Unasked(m), acts))
  {
    assert Twins(m, Unasked(m), true);
    hide Run;
    RunTwins(k, m, Unasked(m), acts);
  }

  // ---------------------------------------------------------------- Waking up

  /** Running, with nothing pending. */
  predicate Awake(m: Motion) {
    Inv(m) && Shaped(m.step.references) && m.sm.current == RUNNING && !m.sm.hasPending && !m.events.run.rampDown
  }

  lemma Wakes(k: Maths, m: Motion, f: Feedback)
    requires Idle(m)
    ensures var m' := Tick(k, m, Beat(f));
            && m'.sm.current == RUNNING && m'.sm.hasPending == m.events.run.rampDown
            && m'.events == m.events && m'.step.factor == m.step.factor && Due(m') == Due(m)
            && (!m.events.run.rampDown ==> Awake(m'))
  {
    var i := Beat(f);
    var e := Advance1(Prepare(m, i));
    assert e.sm == StateManager(RUNNING, IDLE, false) && e.step.factor == m.step.factor;
    TickInv(k, m, i);
    TickLengths(k, m, i);
    Recovers(k, m, i);
    WakingFactor(k, e);
    hide Prepare, Process, Refit, Emit, Inv;
    LengthsShape(Tick(k, m, i).step.references, m.step.references);
  }

  lemma LengthsShape(a: Reference, b: Reference)
    requires SameLengths(a, b) && Shaped(b)
    ensures Shaped(a)
  {
  }

  lemma WakingFactor(k: Maths, e: Motion)
    requires e.sm.current == RUNNING
    ensures Emit(k, Refit(Process(k, e))).step.factor == e.step.factor
  {
    NormalFrame(k, e);
    hide ProcessNormal, Refit, Emit;
    FinishFactor(k, Process(k, e));
  }

  lemma UnaskedIsIdle(m: Motion)
    requires Idle(m)
    ensures Idle(Unasked(m))
  {
  }

  // ---------------------------------------------------------------- Stops

  /** What a message does to the events of the static stage, and to the factor that is due. */
  lemma TickKeepsStill(k: Maths, m: Motion, i: Input)
    requires i.ok && !i.first && m.sm.current != IDLE
    requires UpdateState(m.sm).current != STATIC && UpdateState(m.sm).current != STATIC_END
    ensures var e, e' := m.events, Tick(k, m, i).events;
            && e'.still == e.still && e'.positionGoal == e.positionGoal && e'.velocityGoal == e.velocityGoal
            && Due(Tick(k, m, i)) == Due(m) && (UpdateState(m.sm).current == STOPPED ==> !e'.factorUpdate)
  {
    hide Prepare, Process, Refit, Emit, Pipeline, StoredInv, EventsAfter;
    PlainPrepare(m, i);
    var e := Advance1(Prepare(m, i));
    ProcessEvents(k, e);
    ProcessDue(k, e);
    FinishConserves(k, Process(k, e));
    FinishFactor(k, Process(k, e));
    assert Tick(k, m, i) == Emit(k, Refit(Process(k, e)));
    OutsideStatic(e);
  }

  lemma OutsideStatic(e: Motion)
    requires e.sm.current != STATIC && e.sm.current != STATIC_END
    ensures var f := EventsAfter(e);
            && f.still == e.events.still && f.positionGoal == e.events.positionGoal
            && f.velocityGoal == e.events.velocityGoal
            && (e.sm.current == STOPPED ==> !f.factorUpdate)
  {
    assert e.sm.current == Stage(e.sm.current.state, e.sm.current.sub);
  }

  lemma ProcessDue(k: Maths, e: Motion)
    ensures Due(Process(k, e)) == Due(e)
  {
    match e.sm.current.state
    case Normal =>
      NormalFrame(k, e);
      hide ProcessNormal;
    case RampDown => RampDownDue(k, e);
    case StaticGoal =>
      StaticFrame(k, e);
      hide PreparePosition, PrepareVelocity, SetPending;
  }

  lemma RampDownDue(k: Maths, e: Motion)
    ensures Due(ProcessRampDown(k, e)) == Due(e)
  {
    hide EndRampDown, SetPending, Remainder;
    if e.sm.current.sub.Finished? {
      FactorForm(e);
      EndDue(k, ApplyDiscard(ApplyFactor(e)));
    }
  }

  lemma EndDue(k: Maths, m: Motion)
    ensures Due(EndRampDown(k, m)) == Due(m)
  {
    hide UpdateNormalGoal, SetPending, Released;
    UpdateNormalGoalFrame(k, m.(events := m.events.(run := Released(m.events.run))));
  }

  /** What a reached stop does next: wait, or go on by itself, to the static stage if that was asked for. */
  predicate ReachedWith(m: Motion, e: Events) {
    && m.sm.current == STOPPED && m.events.still == e.still && !m.events.factorUpdate
    && (Held(m) <==> !e.run.resume) && (m.sm.hasPending <==> e.run.resume)
    && (e.run.resume ==> m.sm.pending == if e.still.start then STATIC_START else RUNNING)
  }

  lemma StopArrives(k: Maths, m: Motion, i: Input, n: int)
    requires Braking(m, n) && Regular(i) && Tick(k, m, i).sm.current == STOPPED
    ensures ReachedWith(Tick(k, m, i), m.events) && Due(Tick(k, m, i)) == Due(m)
  {
    StopHoldsIff(k, m, i, n);
    PlainPrepare(m, i);
    BrakingStage(m, n);
    BrakeEntry(m, i, n);
    var e := Advance1(Prepare(m, i));
    GuardNeverRejects(k, e);
    StageKept(k, Process(k, e));
    hide Prepare, Process, Refit, Emit, Inv, Ramping, AtRestNow, Held, GivenUp;
    assert Tick(k, m, i) == Emit(k, Refit(Process(k, e)));
    TickKeepsStill(k, m, i);
  }

  /** Beats bring an ordered stop about; not before the j-th is it reached. */
  lemma {:induction false} BrakeBeats(k: Maths, m: Motion, f: Feedback, n: int) returns (j: nat)
    requires Braking(m, n)
    ensures 0 < j <= n && ReachedWith(Run(k, m, Beats(f, j)), m.events) && Due(Run(k, m, Beats(f, j))) == Due(m)
    ensures forall q: nat :: q < j ==> Run(k, m, Beats(f, q)).sm.current != STOPPED
    decreases n
  {
    hide Do, Tick, Braking, ReachedWith, Run;
    var a := Message(Beat(f));
    BrakingIsPositive(m, n);
    BrakingStage(m, n);
    BrakeTick(k, m, Beat(f), n);
    MessageIsTick(k, m, a);
    NoBeats(k, m, f);
    var m1 := Do(k, m, a);
    if m1.sm.current == STOPPED {
      j := 1;
      StopArrives(k, m, Beat(f), n);
      OneBeat(k, m, f, 1);
      NoBeats(k, m1, f);
    } else {
      var j' := BrakeBeats(k, m1, f, n - 1);
      j := j' + 1;
      BrakeKeepsDue(k, m, Beat(f), n);
      OneBeat(k, m, f, j);
      forall q: nat | q < j ensures Run(k, m, Beats(f, q)).sm.current != STOPPED {
        if q > 0 { OneBeat(k, m, f, q); }
      }
    }
  }

  lemma BrakeKeepsDue(k: Maths, m: Motion, i: Input, n: int)
    requires Braking(m, n) && Regular(i) && Tick(k, m, i).sm.current != STOPPED
    ensures Due(Tick(k, m, i)) == Due(m)
  {
    PlainPrepare(m, i);
    BrakeEntry(m, i, n);
    hide Tick, Prepare, Inv, Ramping, AtRestNow;
    TickKeepsStill(k, m, i);
  }

  lemma NoBeats(k: Maths, m: Motion, f: Feedback)
    ensures Run(k, m, Beats(f, 0)) == m
  {
  }

  lemma OneBeat(k: Maths, m: Motion, f: Feedback, n: nat)
    requires n > 0
    ensures Run(k, m, Beats(f, n)) == Run(k, Do(k, m, Message(Beat(f))), Beats(f, n - 1))
  {
    hide Do;
    assert Beats(f, n)[1..] == Beats(f, n - 1);
  }

  /** Wake, stop, wait. */
  function StopRun(f: Feedback, n: nat): seq<Action> { [Message(Beat(f)), StopTrajectory(false)] + Beats(f, n) }

  lemma TwoThen(k: Maths, m: Motion, f: Feedback, a: Action, acts: seq<Action>)
    ensures Run(k, m, [Message(Beat(f)), a] + acts) == Run(k, Do(k, Tick(k, m, Beat(f)), a), acts)
  {
    hide Do, Tick, Run;
    MessageIsTick(k, m, Message(Beat(f)));
    assert [Message(Beat(f)), a] + acts == [Message(Beat(f))] + ([a] + acts);
    RunConcat(k, m, [Message(Beat(f))], [a] + acts);
    RunOne(k, m, Message(Beat(f)));
    RunConcat(k, Tick(k, m, Beat(f)), [a], acts);
    RunOne(k, Tick(k, m, Beat(f)), a);
  }

  /** The first stop of a machine that wakes up with old flags: it waits iff there is no resume flag, and goes on
      to the static stage iff there is a start flag. */
  lemma FirstStop(k: Maths, m: Motion, f: Feedback) returns (j: nat)
    requires Idle(m) && !m.events.run.rampDown
    ensures 0 < j <= STOP_MESSAGES
    ensures ReachedWith(Run(k, m, StopRun(f, j)), m.events) && Due(Run(k, m, StopRun(f, j))) == Due(m)
    ensures forall q: nat :: q < j ==> Run(k, m, StopRun(f, q)).sm.current != STOPPED
  {
    hide Do, Tick, Braking, Run, ReachedWith, Inv, Shaped;
    Wakes(k, m, f);
    var m1 := Tick(k, m, Beat(f));
    var m2 := Do(k, m1, StopTrajectory(false));
    AwakeStops(k, m1);
    j := BrakeBeats(k, m2, f, STOP_MESSAGES);
    TwoThen(k, m, f, StopTrajectory(false), Beats(f, j));
    forall q: nat | q < j ensures Run(k, m, StopRun(f, q)).sm.current != STOPPED {
      TwoThen(k, m, f, StopTrajectory(false), Beats(f, q));
    }
    SameFlagsReached(Run(k, m2, Beats(f, j)), m2.events, m.events);
  }

  lemma AwakeStops(k: Maths, m: Motion)
    requires Awake(m)
    ensures var m' := Do(k, m, StopTrajectory(false));
            && Braking(m', STOP_MESSAGES) && m'.events.run.resume == m.events.run.resume
               && m'.events.still == m.events.still
            && Due(m') == Due(m)
  {
    StopBrakes(k, m, false);
    hide Inv, Shaped, Braking, Tick;
  }

  lemma SameFlagsReached(m: Motion, e: Events, f: Events)
    requires ReachedWith(m, e) && f.still == e.still && f.run.resume == e.run.resume
    ensures ReachedWith(m, f)
  {
    hide Held;
  }

  /** And once resumed, a waiting one leads to the static stage iff there is a start flag. */
  lemma FirstResume(k: Maths, m: Motion, f: Feedback)
    requires Held(m)
    ensures var m' := Run(k, m, [ResumeTrajectory, Message(Beat(f))]);
            m'.sm == StateManager(STOPPED, if m.events.still.start then STATIC_START else RUNNING, true)
  {
    var a := [ResumeTrajectory, Message(Beat(f))];
    var m1 := m.(events := m.events.(run := m.events.run.(resume := true)));
    assert Do(k, m, ResumeTrajectory) == m1;
    assert a[1..] == [Message(Beat(f))];
    hide Do, Tick, Inv, AtRestNow;
    assert Run(k, m, a) == Run(k, m1, [Message(Beat(f))]);
    RunOne(k, m1, Message(Beat(f)));
    MessageIsTick(k, m1, Message(Beat(f)));
    Resumes(k, m1, Beat(f));
  }

  lemma Resumes(k: Maths, m: Motion, i: Input)
    requires m.sm.current == STOPPED && !m.sm.hasPending && m.events.run.stop && m.events.run.resume && Regular(i)
    ensures Tick(k, m, i).sm == StateManager(STOPPED, if m.events.still.start then STATIC_START else RUNNING, true)
  {
    PlainPrepare(m, i);
    var e := Advance1(Prepare(m, i));
    GuardNeverRejects(k, e);
    StageKept(k, Process(k, e));
    hide Prepare, Process, Refit, Emit;
    assert Tick(k, m, i) == Emit(k, Refit(Process(k, e)));
  }

  // ---------------------------------------------------------------- A run for every flag

  /** acts tells m from a machine that was never asked anything. */
  predicate Tells(k: Maths, m: Motion, acts: seq<Action>) { !Alike(Run(k, m, acts), Run(k, Unasked(m), acts)) }

  /** A ramp down that was asked for begins with the first message. */
  lemma RampDownTells(k: Maths, m: Motion, f: Feedback)
    requires Idle(m) && m.events.run.rampDown
    ensures Tells(k, m, [Message(Beat(f))])
  {
    hide Tick, Inv, Shaped;
    UnaskedIsIdle(m);
    Wakes(k, m, f);
    Wakes(k, Unasked(m), f);
    RunOne(k, m, Message(Beat(f)));
    RunOne(k, Unasked(m), Message(Beat(f)));
    hide Run;
  }

  /** Under an old discard flag a new trajectory goes to the temporary queue. */
  lemma DiscardTells(k: Maths, m: Motion, f: Feedback) returns (acts: seq<Action>)
    requires Idle(m) && !m.events.run.rampDown && m.events.run.discard
    ensures Tells(k, m, acts)
  {
    hide Tick, Inv, Shaped, Run;
    var n := Unasked(m);
    UnaskedIsIdle(m);
    Wakes(k, m, f);
    Wakes(k, n, f);
    var m1, n1 := Tick(k, m, Beat(f)), Tick(k, n, Beat(f));
    var a := AddTrajectory([], false);
    if m1.temporary == n1.temporary {
      acts := [Message(Beat(f)), a] + [];
      TwoThen(k, m, f, a, []);
      TwoThen(k, n, f, a, []);
      RunNothing(k, Do(k, m1, a));
      RunNothing(k, Do(k, n1, a));
      assert |Do(k, m1, a).temporary| == |m1.temporary| + 1 && Do(k, n1, a).temporary == n1.temporary;
    } else {
      acts := [Message(Beat(f))];
      RunOne(k, m, Message(Beat(f)));
      RunOne(k, n, Message(Beat(f)));
    }
  }

  lemma RunNothing(k: Maths, m: Motion)
    ensures Run(k, m, []) == m
  {
  }

  /** Under an old stop flag a change of the duration factor stops the robot instead of slowing it down. */
  lemma StopTells(k: Maths, m: Motion, f: Feedback) returns (acts: seq<Action>)
    requires Idle(m) && !m.events.run.rampDown && m.events.run.stop
    ensures Tells(k, m, acts)
  {
    hide Run;
    UnaskedIsIdle(m);
    acts := [Message(Beat(f)), UpdateDurationFactor(1.0)] + Beats(f, 2);
    RampFactor(k, m, f);
    RampFactor(k, Unasked(m), f);
    hide Idle, Inv;
  }

  lemma RampFactor(k: Maths, m: Motion, f: Feedback)
    requires Idle(m) && !m.events.run.rampDown
    ensures Run(k, m, [Message(Beat(f)), UpdateDurationFactor(1.0)] + Beats(f, 2)).step.conditions.rampDownFactor
         == if m.events.run.stop then 0.0 else 0.5
  {
    hide Do, Tick, Run, Inv, Shaped;
    var a := UpdateDurationFactor(1.0);
    Wakes(k, m, f);
    var m1 := Tick(k, m, Beat(f));
    var m2 := Do(k, m1, a);
    SlowsDown(k, m1);
    TwoThen(k, m, f, a, Beats(f, 2));
    var m3 := Do(k, m2, Message(Beat(f)));
    OneBeat(k, m2, f, 2);
    OneBeat(k, m3, f, 1);
    MessageIsTick(k, m2, Message(Beat(f)));
    MessageIsTick(k, m3, Message(Beat(f)));
    NoBeats(k, Do(k, m3, Message(Beat(f))), f);
    PendsRamp(k, m2, Beat(f));
    StartsRamp(k, m3, Beat(f));
  }

  lemma SlowsDown(k: Maths, m: Motion)
    requires Awake(m)
    ensures var m' := Do(k, m, UpdateDurationFactor(1.0));
            m'.sm == m.sm && m'.events.run.rampDown && m'.events.run.stop == m.events.run.stop
  {
    hide Inv, Shaped, Tick;
  }

  lemma PendsRamp(k: Maths, m: Motion, i: Input)
    requires m.sm.current == RUNNING && !m.sm.hasPending && m.events.run.rampDown && Regular(i)
    ensures Tick(k, m, i).sm == StateManager(RUNNING, RAMP_START, true) && Tick(k, m, i).events == m.events
  {
    PlainPrepare(m, i);
    var e := Advance1(Prepare(m, i));
    GuardNeverRejects(k, e);
    ProcessEvents(k, e);
    StageKept(k, Process(k, e));
    FinishConserves(k, Process(k, e));
    hide Prepare, Process, Refit, Emit, Pipeline, StoredInv;
    assert Tick(k, m, i) == Emit(k, Refit(Process(k, e)));
  }

  lemma StartsRamp(k: Maths, m: Motion, i: Input)
    requires m.sm == StateManager(RUNNING, RAMP_START, true) && Regular(i)
    ensures Tick(k, m, i).step.conditions.rampDownFactor == if m.events.run.stop then 0.0 else 0.5
  {
    PlainPrepare(m, i);
    var e := Advance1(Prepare(m, i));
    BeginFactor(e);
    assert Process(k, e) == BeginRampDown(e);
    RefitConditions(BeginRampDown(e));
    EmitFrame(k, Refit(BeginRampDown(e)));
    hide Prepare, Process, Refit, Emit, BeginRampDown;
    assert Tick(k, m, i) == Emit(k, Refit(Process(k, e)));
  }

  lemma BeginFactor(e: Motion)
    ensures BeginRampDown(e).step.conditions.rampDownFactor == if e.events.run.stop then 0.0 else 0.5
  {
    hide SetPending, Remainder;
  }

  lemma RefitConditions(m: Motion)
    ensures Refit(m).step.conditions == m.step.conditions
  {
    hide Updated;
  }

  /** Old resume, factor and start flags show at the first stop, or at its resume. */
  lemma FirstStopTells(k: Maths, m: Motion, f: Feedback) returns (acts: seq<Action>)
    requires Idle(m) && !m.events.run.rampDown
    requires m.events.run.resume || Due(m) != m.step.factor || m.events.still.start
    ensures Tells(k, m, acts)
  {
    hide Run, Inv, Shaped, Held;
    var n := Unasked(m);
    UnaskedIsIdle(m);
    var j := FirstStop(k, m, f);
    var j' := FirstStop(k, n, f);
    var q := if j < j' then j else j';
    acts := StopRun(f, q);
    if j == j' && !m.events.run.resume && Due(m) == m.step.factor {
      var m1, n1 := Run(k, m, StopRun(f, j)), Run(k, n, StopRun(f, j));
      acts := StopRun(f, j) + [ResumeTrajectory, Message(Beat(f))];
      FirstResume(k, m1, f);
      FirstResume(k, n1, f);
      RunConcat(k, m, StopRun(f, j), [ResumeTrajectory, Message(Beat(f))]);
      RunConcat(k, n, StopRun(f, j), [ResumeTrajectory, Message(Beat(f))]);
    }
  }

  // ---------------------------------------------------------------- The next static stage

  /** The way to the static stage is the same whatever goals are pending; they wait behind the door. */
  lemma {:induction false} DoorBeats(k: Maths, m: Motion, n: Motion, f: Feedback, b: int) returns (j: nat)
    requires Entering(n, b) && n.sm.current != STATIC_START && Twins(m, n, false) && Inv(m)
    ensures j <= b && AtDoor(Run(k, m, Beats(f, j)), m) && AtDoor(Run(k, n, Beats(f, j)), n)
    decreases b
  {
    hide Do, Tick, Run, Entering, Twins, AtDoor, Inv;
    var i, a := Beat(f), Message(Beat(f));
    EnteringIsPositive(n, b);
    DoorTick(k, m, n, i, b);
    MessageIsTick(k, m, a);
    MessageIsTick(k, n, a);
    var m1, n1 := Do(k, m, a), Do(k, n, a);
    if n1.sm.current == STATIC_START {
      j := 1;
      OneBeat(k, m, f, 1);
      OneBeat(k, n, f, 1);
      NoBeats(k, m1, f);
      NoBeats(k, n1, f);
    } else {
      var j' := DoorBeats(k, m1, n1, f, b - 1);
      j := j' + 1;
      OneBeat(k, m, f, j);
      OneBeat(k, n, f, j);
      DoorKept(Run(k, m1, Beats(f, j')), m1, m);
      DoorKept(Run(k, n1, Beats(f, j')), n1, n);
    }
  }

  /** The static stage comes next, with the goals that were pending before. */
  predicate AtDoor(m: Motion, m0: Motion) {
    && Inv(m) && Shaped(m.step.references) && m.sm == StateManager(STATIC_START, STATIC, true)
    && !m.hasActive && !m.events.run.rampDown && SameStill(m.events, m0.events)
  }

  predicate SameStill(e: Events, f: Events) {
    e.still == f.still && e.positionGoal == f.positionGoal && e.velocityGoal == f.velocityGoal
  }

  lemma DoorKept(m: Motion, m1: Motion, m0: Motion)
    requires AtDoor(m, m1) && SameStill(m1.events, m0.events)
    ensures AtDoor(m, m0)
  {
    hide Inv;
  }

  lemma DoorTick(k: Maths, m: Motion, n: Motion, i: Input, b: int)
    requires Entering(n, b) && n.sm.current != STATIC_START && Twins(m, n, false) && Inv(m) && Regular(i)
    ensures var m', n' := Tick(k, m, i), Tick(k, n, i);
            && Twins(m', n', false) && SameStill(m'.events, m.events) && SameStill(n'.events, n.events) && Inv(m')
            && (n'.sm.current == STATIC_START ==> AtDoor(m', m) && AtDoor(n', n))
            && (n'.sm.current != STATIC_START ==> Entering(n', b - 1))
  {
    hide Tick, Inv, Shaped, Braking, SameGoals;
    EnteringActive(n, b);
    EnteringTick(k, n, i, b);
    TickInv(k, n, i);
    TickInv(k, m, i);
    EnteredStage(n, i, b);
    TwinStages(m, n, false);
    TickTwins(k, m, n, i, false);
    TickKeepsStill(k, m, i);
    TickKeepsStill(k, n, i);
    TickShaped(k, n, i);
    TickShaped(k, m, i);
    TickStage(k, n, i);
    if Tick(k, n, i).sm.current == STATIC_START {
      EnteringDoor(n, b);
      DoorShuts(k, m, i);
      DoorShuts(k, n, i);
    }
  }

  /** Before the door is reached. */
  lemma EnteredStage(n: Motion, i: Input, b: int)
    requires Entering(n, b) && n.sm.current != STATIC_START && Regular(i)
    ensures var s := UpdateState(n.sm).current;
            && Advance1(Prepare(n, i)).sm.current == s && n.sm.current != IDLE
            && (s.state.StaticGoal? ==> s == STATIC_START)
  {
    EnteringActive(n, b);
    PlainPrepare(n, i);
    if n.sm.current != STOPPED {
      EnteringForm(n, b);
      BrakeEntry(n, i, b - 2);
    }
    hide Prepare, Inv, Shaped, Ramping, AtRestNow;
  }

  lemma EnteringDoor(n: Motion, b: int)
    requires Entering(n, b) && UpdateState(n.sm).current == STATIC_START
    ensures n.sm == StateManager(STOPPED, STATIC_START, true) && !n.events.run.rampDown
  {
    if n.sm.current != STATIC_START && n.sm.current != STOPPED {
      EnteringForm(n, b);
      BrakingNotBound(n, b - 2);
    }
    hide Inv, Shaped, Braking;
  }

  lemma BrakingNotBound(n: Motion, b: int)
    requires Braking(n, b)
    ensures UpdateState(n.sm).current != STATIC_START
  {
    hide FittedInv, FactorInv, GoalInv, Ramping, AtRestNow, Shaped;
  }

  lemma TickStage(k: Maths, m: Motion, i: Input)
    requires Regular(i) && m.sm.current != IDLE
    ensures Tick(k, m, i).sm.current == UpdateState(m.sm).current
  {
    PlainPrepare(m, i);
    var e := Advance1(Prepare(m, i));
    GuardNeverRejects(k, e);
    StageKept(k, Process(k, e));
    hide Prepare, Process, Refit, Emit;
    assert Tick(k, m, i) == Emit(k, Refit(Process(k, e)));
  }

  lemma DoorShuts(k: Maths, m: Motion, i: Input)
    requires Regular(i) && m.sm == StateManager(STOPPED, STATIC_START, true)
    ensures !Tick(k, m, i).hasActive && Tick(k, m, i).sm == StateManager(STATIC_START, STATIC, true)
    ensures Tick(k, m, i).events == m.events
  {
    EnterStatic(k, m, i);
    PlainPrepare(m, i);
    var e := Advance1(Prepare(m, i));
    assert !Process(k, e).hasActive && !Process(k, e).hasNew;
    hide Prepare, Process;
    assert Tick(k, m, i) == Emit(k, Refit(Process(k, e)));
  }

  /** What happens behind the door: an old finish flag ends the stage at once, an old goal is taken up. */
  lemma BehindDoor(k: Maths, m: Motion, i: Input)
    requires m.sm == StateManager(STATIC_START, STATIC, true) && !m.hasActive && !m.events.run.rampDown && Regular(i)
    ensures Tick(k, m, i).sm.hasPending == m.events.still.finish
    ensures Tick(k, m, i).hasActive == (m.events.still.position || m.events.still.velocity)
  {
    PlainPrepare(m, i);
    var e := Advance1(Prepare(m, i));
    GuardNeverRejects(k, e);
    StageKept(k, Process(k, e));
    assert Process(k, e).hasActive == (m.events.still.position || m.events.still.velocity) by {
      hide PreparePosition, PrepareVelocity, SetPending;
    }
    EmitElapses(k, Refit(Process(k, e)));
    RefitFrame(Process(k, e));
    hide Prepare, Process, Refit, Emit;
    assert Tick(k, m, i) == Emit(k, Refit(Process(k, e)));
  }

  /** Wake, start a static goal, wait. */
  function StaticRun(f: Feedback, n: nat): seq<Action> { [Message(Beat(f)), StartStaticGoal(false)] + Beats(f, n) }

  /** The first static stage of a machine that wakes up with old goal or finish flags. */
  lemma FirstStatic(k: Maths, m: Motion, n: Motion, f: Feedback) returns (j: nat)
    requires Idle(m) && Idle(n) && Twins(m, n, false) && !m.events.run.rampDown && !n.events.still.finish
    ensures j <= STOP_MESSAGES + 2
    ensures var m', n' := Run(k, m, StaticRun(f, j)), Run(k, n, StaticRun(f, j));
            && Inv(m') && Inv(n') && Shaped(m'.step.references)
               && m'.sm == n'.sm == StateManager(STATIC_START, STATIC, true)
            && !m'.hasActive && !n'.hasActive && !m'.events.run.rampDown && !n'.events.run.rampDown
            && GoalFlags(m'.events, m.events) && GoalFlags(n'.events, n.events)
  {
    hide Do, Tick, Run, Inv, Shaped, Twins, Entering, Braking;
    var a := StartStaticGoal(false);
    TwinRuns(m, n);
    Wakes(k, m, f);
    Wakes(k, n, f);
    WakingTwins(k, m, n, f);
    var m1, n1 := Tick(k, m, Beat(f)), Tick(k, n, Beat(f));
    CommandTwins(k, m1, n1, a, false);
    StaticStarts(k, m1);
    StaticStarts(k, n1);
    StaticIsBound(k, n1);
    var m2, n2 := Do(k, m1, a), Do(k, n1, a);
    j := DoorBeats(k, m2, n2, f, STOP_MESSAGES + 2);
    TwoThen(k, m, f, a, Beats(f, j));
    TwoThen(k, n, f, a, Beats(f, j));
  }

  /** The flags and goals the static stage will look at. */
  predicate GoalFlags(e: Events, f: Events) {
    && e.still.position == f.still.position && e.still.velocity == f.still.velocity && e.still.finish == f.still.finish
    && e.still.fast == f.still.fast && e.positionGoal == f.positionGoal && e.velocityGoal == f.velocityGoal
  }

  lemma TwinRuns(m: Motion, n: Motion)
    requires Twins(m, n, false)
    ensures n.events.run == m.events.run && n.sm == m.sm
  {
  }

  lemma WakingTwins(k: Maths, m: Motion, n: Motion, f: Feedback)
    requires Idle(m) && Twins(m, n, false)
    ensures Twins(Tick(k, m, Beat(f)), Tick(k, n, Beat(f)), false)
  {
    var i := Beat(f);
    assert Advance1(Prepare(m, i)).sm.current == RUNNING;
    hide Prepare, Tick, Twins;
    TickTwins(k, m, n, i, false);
  }

  lemma StaticStarts(k: Maths, m: Motion)
    requires Awake(m)
    ensures var m' := Do(k, m, StartStaticGoal(false));
            Inv(m') && m'.sm.current == RUNNING && GoalFlags(m'.events, m.events)
  {
    DoInv(k, m, StartStaticGoal(false));
    hide Inv, Shaped, Tick;
  }

  lemma StaticIsBound(k: Maths, m: Motion)
    requires Awake(m) && !m.events.still.finish
    ensures Entering(Do(k, m, StartStaticGoal(false)), STOP_MESSAGES + 2)
  {
    DoInv(k, m, StartStaticGoal(false));
    hide Inv, Shaped, Tick;
  }

  lemma StaticTells(k: Maths, m: Motion, f: Feedback) returns (acts: seq<Action>)
    requires Idle(m) && m.events.run == RunEvents(false, false, false, false) && !m.events.still.start
    requires Due(m) == m.step.factor
    requires m.events.still.position || m.events.still.velocity || m.events.still.finish
    ensures Tells(k, m, acts)
  {
    hide Run, Inv, Shaped, Tick;
    var n := Unasked(m);
    UnaskedIsIdle(m);
    assert Twins(m, n, false);
    var j := FirstStatic(k, m, n, f);
    acts := StaticRun(f, j) + [Message(Beat(f))];
    RunConcat(k, m, StaticRun(f, j), [Message(Beat(f))]);
    RunConcat(k, n, StaticRun(f, j), [Message(Beat(f))]);
    var m', n' := Run(k, m, StaticRun(f, j)), Run(k, n, StaticRun(f, j));
    RunOne(k, m', Message(Beat(f)));
    RunOne(k, n', Message(Beat(f)));
    BehindDoor(k, m', Beat(f));
    BehindDoor(k, n', Beat(f));
  }

  // ---------------------------------------------------------------- Exactly

  /** Some run tells, unless no flag is up. */
  lemma TraceIsLeft(k: Maths, m: Motion) returns (acts: seq<Action>)
    requires Idle(m) && !Clear(m)
    ensures Tells(k, m, acts)
  {
    hide Tells, Inv, Shaped;
    var f, e := m.step.feedback, m.events;
    if e.run.rampDown {
      acts := [Message(Beat(f))];
      RampDownTells(k, m, f);
    } else if e.run.discard {
      acts := DiscardTells(k, m, f);
    } else if e.run.stop {
      acts := StopTells(k, m, f);
    } else if e.run.resume || Due(m) != m.step.factor || e.still.start {
      acts := FirstStopTells(k, m, f);
    } else {
      acts := StaticTells(k, m, f);
    }
  }

  /** A machine between sessions behaves, in every run, as if it had never been asked anything exactly if no flag
      is up. */
  lemma ForgottenIff(k: Maths, m: Motion)
    requires Idle(m)
    ensures (forall acts :: Alike(Run(k, m, acts), Run(k, Unasked(m), acts))) <==> Clear(m)
  {
    hide Run, Alike, Idle, Clear;
    if Clear(m) {
      forall acts ensures Alike(Run(k, m, acts), Run(k, Unasked(m), acts)) { ClearIsForgotten(k, m, acts); }
    } else {
      var acts := TraceIsLeft(k, m);
      assert !Alike(Run(k, m, acts), Run(k, Unasked(m), acts));
    }
  }

  /** So a fault is forgotten exactly if no flag was up when it came. */
  lemma FaultIsForgottenIff(k: Maths, m: Motion, i: Input)
    requires Inv(m) && Fault(m, i) && Fitting(i)
    ensures var m' := Tick(k, m, i);
            (forall acts :: Alike(Run(k, m', acts), Run(k, Unasked(m'), acts))) <==> Clear(m)
  {
    hide Run, Alike, Tick, Inv;
    AfterFault(k, m, i);
    ForgottenIff(k, Tick(k, m, i));
  }

  // ---------------------------------------------------------------- Old commands

  /** The first regular message of a machine between sessions. */
  lemma Recovers(k: Maths, m: Motion, i: Input)
    requires m.sm == RESET_STATE && Regular(i)
    ensures var m' := Tick(k, m, i);
            && m'.sm.current == RUNNING && m'.sm.hasPending == m.events.run.rampDown
            && (m'.sm.hasPending ==> m'.sm.pending == RAMP_START) && m'.events == m.events
  {
    var e := Advance1(Prepare(m, i));
    assert e.sm == StateManager(RUNNING, IDLE, false) && e.events == m.events;
    hide Prepare, Process, Refit, Emit, Pipeline, StoredInv;
    GuardNeverRejects(k, e);
    ProcessEvents(k, e);
    StageKept(k, Process(k, e));
    FinishConserves(k, Process(k, e));
  }

  /** With a stop pending, the machine that recovers from a fault is braking. */
  lemma RecoversBraking(k: Maths, m: Motion, i: Input, i': Input)
    requires Inv(m) && Fault(m, i) && Fitting(i) && Regular(i') && m.events.run.stop && m.events.run.rampDown
    ensures var m' := Tick(k, Tick(k, m, i), i');
            m'.sm.current == RUNNING && Braking(m', STOP_MESSAGES - 1) && m'.events == m.events
  {
    var m1 := Tick(k, m, i);
    var m2 := Tick(k, m1, i');
    AfterFault(k, m, i);
    TickInv(k, m1, i');
    Recovers(k, m1, i');
    TickLengths(k, m1, i');
    hide Tick, Inv, Ramping;
    LengthsShape(m2.step.references, m1.step.references);
  }

  /** A stop accepted before a fault acts after it: the new session comes to a stop by itself. */
  lemma OldStopActs(k: Maths, m: Motion, discard: bool, i: Input, i': Input, acts: seq<Action>) returns (j: nat)
    requires Inv(m) && Accepted(m, StopTrajectory(discard)) && !i.ok && !i.first && Fitting(i) && Regular(i')
    requires Uninterrupted(acts) && MessageCount(acts) >= STOP_MESSAGES - 1
    ensures var m1 := Tick(k, Tick(k, Do(k, m, StopTrajectory(discard)), i), i');
            && m1.sm.current == RUNNING && 0 < j <= |acts| && MessageCount(acts[..j]) <= STOP_MESSAGES - 1
            && Run(k, m1, acts[..j]).sm.current == STOPPED
  {
    var m0 := Do(k, m, StopTrajectory(discard));
    assert Fault(m0, i) && m0.events.run.stop && m0.events.run.rampDown;
    DoInv(k, m, StopTrajectory(discard));
    hide Tick, Inv, Do, Run, Braking;
    RecoversBraking(k, m0, i, i');
    j := StopIsReached(k, Tick(k, Tick(k, m0, i), i'), acts, STOP_MESSAGES - 1);
  }

  /** A static goal started before a fault is entered after it. */
  lemma OldStaticGoalActs(k: Maths, m: Motion, discard: bool, i: Input, i': Input, acts: seq<Action>) returns (j: nat)
    requires Inv(m) && Accepted(m, StartStaticGoal(discard)) && !m.events.still.finish
    requires !i.ok && !i.first && Fitting(i) && Regular(i')
    requires var m1 := Tick(k, Tick(k, Do(k, m, StartStaticGoal(discard)), i), i'); Undisturbed(k, m1, acts)
    requires MessageCount(acts) >= STOP_MESSAGES + 1
    ensures var m1 := Tick(k, Tick(k, Do(k, m, StartStaticGoal(discard)), i), i');
            m1.sm.current == RUNNING && 0 < j <= |acts| && Open(Run(k, m1, acts[..j]))
  {
    var m0 := Do(k, m, StartStaticGoal(discard));
    assert Fault(m0, i) && Bound(m0.events) && m0.events.run.rampDown && !m0.events.still.finish;
    DoInv(k, m, StartStaticGoal(discard));
    hide Tick, Inv, Do, Run, Undisturbed, Open, Bound, Ramping;
    RecoversBraking(k, m0, i, i');
    var m1 := Tick(k, Tick(k, m0, i), i');
    assert Entering(m1, STOP_MESSAGES + 1);
    j := EnteringRun(k, m1, acts, STOP_MESSAGES + 1);
  }

  // ---------------------------------------------------------------- An old goal

  /** A fast goal that a fault overtakes is pursued by the next static stage, whoever starts it. */
  lemma OldGoalIsPursued(k: Maths, m: Motion, g: StaticPositionGoal, i: Input, f: Feedback) returns (j: nat)
    requires Open(m) && g.cartesian.None? && !i.ok && !i.first && Fitting(i) && k.RampEndpoints()
    ensures j <= STOP_MESSAGES + 2
    ensures var m1 := Tick(k, Do(k, m, SetStaticPosition(g, true)), i);
            var r := Run(k, m1, StaticRun(f, j)).step.references;
            Pursuing(Run(k, m1, StaticRun(f, j) + [Message(Beat(f))]), r, Target(r, g))
  {
    hide Tick, Inv, Shaped, Do, Run, Pursuing, Maths.RampEndpoints, Target;
    GivenIsDone(k, m, g);
    var m0 := Given(m, g);
    assert Fault(m0, i);
    AfterFault(k, m0, i);
    var m1 := Tick(k, m0, i);
    TwinSelf(m1);
    j := FirstStatic(k, m1, m1, f);
    var m2 := Run(k, m1, StaticRun(f, j));
    RunConcat(k, m1, StaticRun(f, j), [Message(Beat(f))]);
    RunOne(k, m2, Message(Beat(f)));
    MessageIsTick(k, m2, Message(Beat(f)));
    PositionTakenUp(k, m2, Beat(f));
  }

  lemma TwinSelf(m: Motion)
    ensures Twins(m, m, false)
  {
  }
}
