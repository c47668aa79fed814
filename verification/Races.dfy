/** Commands that are accepted while a transition is already pending, and what they lead to. */
module Races {
  import opened Numeric
  import opened Quaternions
  import opened Messages
  import opened Interpolation
  import opened Machine
  import opened Soundness
  import opened Conservation
  import opened Stopping

  // ---------------------------------------------------------------- Stale resumes

  /** Resuming twice: a second resume is accepted while the first is being carried out, and its flag
      outlives the stop. */
  lemma SecondResumeIsStale(k: Maths, m: Motion, i: Input)
    requires Inv(m) && Resuming(m) && Regular(i)
    ensures Accepted(m, ResumeTrajectory)
    ensures var m' := Tick(k, Do(k, m, ResumeTrajectory), i);
            m'.sm == StateManager(RUNNING, m'.sm.pending, m.events.run.rampDown) && m'.events.run.resume
  {
    hide Tick, Inv;
    var m1 := Do(k, m, ResumeTrajectory);
    assert m1 == m.(events := m1.events) && m1.events.run.resume && m1.events.run.rampDown == m.events.run.rampDown;
    RunningEvents(k, m1, i);
  }

  lemma RunningEvents(k: Maths, m: Motion, i: Input)
    requires m.sm.current == STOPPED && m.sm.hasPending && m.sm.pending == RUNNING && Regular(i)
    ensures Tick(k, m, i).sm.current == RUNNING && Tick(k, m, i).events == m.events
    ensures Tick(k, m, i).sm.hasPending == m.events.run.rampDown
  {
    hide Process, Emit, Refit, Prepare;
    PlainPrepare(m, i);
    var e := Advance1(Prepare(m, i));
    GuardNeverRejects(k, e);
    ProcessEvents(k, e);
    StageKept(k, Process(k, e));
    FinishConserves(k, Process(k, e));
  }

  /** A stop waits for a resume exactly if no resume flag is set when it is reached; otherwise it is
      left with the next message. */
  lemma StopHoldsIff(k: Maths, m: Motion, i: Input, n: int)
    requires Braking(m, n) && Regular(i) && Tick(k, m, i).sm.current == STOPPED
    ensures Held(Tick(k, m, i)) <==> !m.events.run.resume
    ensures m.events.run.resume ==> GivenUp(Tick(k, m, i))
  {
    BrakeTick(k, m, i, n);
    if m.events.run.resume {
      hide Process, Emit, Refit, Prepare, Inv, Ramping, AtRestNow;
      PlainPrepare(m, i);
      var e := Advance1(Prepare(m, i));
      BrakeEntry(m, i, n);
      GuardNeverRejects(k, e);
      StageKept(k, Process(k, e));
    }
  }

  /** The stop has been reached and already been given up. */
  predicate GivenUp(m: Motion) {
    m.sm.current == STOPPED && m.sm.hasPending && (m.sm.pending == RUNNING || m.sm.pending == STATIC_START)
  }

  lemma ResumeStays(k: Maths, m: Motion, a: Action, n: int)
    requires Braking(m, n) && !a.Message? && m.events.run.resume
    ensures Do(k, m, a).events.run.resume
  {
    hide Tick, Inv, Ramping, AtRestNow, Shaped;
  }

  /** With a resume flag set, whatever commands arrive, a stop is reached and given up at once. */
  lemma {:induction false} StopIsGivenUp(k: Maths, m: Motion, acts: seq<Action>, n: int) returns (j: nat)
    requires Braking(m, n) && m.events.run.resume && Uninterrupted(acts) && MessageCount(acts) >= n
    ensures 0 < j <= |acts| && MessageCount(acts[..j]) <= n
    ensures GivenUp(Run(k, m, acts[..j]))
    decreases |acts|
  {
    hide Do, Braking, GivenUp;
    BrakingIsPositive(m, n);
    var a, rest := acts[0], acts[1..];
    var m' := Do(k, m, a);
    assert acts == [a] + rest;
    var n' := n;
    if a.Message? {
      BrakeTick(k, m, a.input, n);
      MessageIsTick(k, m, a);
      n' := n - 1;
    } else {
      BrakeCommand(k, m, a, n);
      BrakingStage(m', n);
      ResumeStays(k, m, a, n);
    }
    if m'.sm.current == STOPPED {
      StopHoldsIff(k, m, a.input, n);
      j := 1;
      assert acts[..1] == [a];
      RunOne(k, m, a);
    } else {
      var j' := StopIsGivenUp(k, m', rest, n');
      j := j' + 1;
      assert acts[..j][1..] == rest[..j'] && acts[..j][0] == a;
    }
  }

  lemma TickShaped(k: Maths, m: Motion, i: Input)
    requires Regular(i) && m.sm.current != IDLE && Shaped(m.step.references)
    ensures Shaped(Tick(k, m, i).step.references)
  {
    hide Process, Emit, Prepare, Shaped;
    PlainPrepare(m, i);
    var e := Advance1(Prepare(m, i));
    ProcessMovesNothing(k, e);
    RefitShaped(Process(k, e));
    EmitShaped(k, Refit(Process(k, e)));
  }

  lemma RefitShaped(m: Motion)
    requires Shaped(m.step.references)
    ensures Shaped(Refit(m).step.references)
  {
    hide Updated;
  }

  /** The whole run: resume twice, and the next stop, though accepted, does not hold. */
  lemma StopAfterSecondResume(k: Maths, m: Motion, i: Input, discard: bool, acts: seq<Action>) returns (j: nat)
    requires Inv(m) && Resuming(m) && Shaped(m.step.references) && Regular(i)
    requires Uninterrupted(acts) && MessageCount(acts) >= STOP_MESSAGES
    ensures var m1 := Tick(k, Do(k, m, ResumeTrajectory), i);
            && Accepted(m, ResumeTrajectory) && Accepted(m1, StopTrajectory(discard))
            && 0 < j <= |acts| && MessageCount(acts[..j]) <= STOP_MESSAGES
            && GivenUp(Run(k, Do(k, m1, StopTrajectory(discard)), acts[..j]))
  {
    var m0 := Do(k, m, ResumeTrajectory);
    assert m0 == m.(events := m0.events);
    var m1 := Tick(k, m0, i);
    SecondResumeIsStale(k, m, i);
    DoInv(k, m, ResumeTrajectory);
    TickInv(k, m0, i);
    hide Tick, Inv, Shaped, Braking, GivenUp;
    TickShaped(k, m0, i);
    StopBrakes(k, m1, discard);
    hide Run;
    j := StopIsGivenUp(k, Do(k, m1, StopTrajectory(discard)), acts, STOP_MESSAGES);
  }

  // ---------------------------------------------------------------- Fast static goals

  /** A position goal has been taken up by the static stage. */
  ghost predicate TakenUp(k: Maths, m: Motion, m': Motion, g: StaticPositionGoal, i: Input) {
    && m'.sm.current == STATIC && !m'.events.still.position && m'.hasActive
    && m'.step.goal == PreparePosition(k, Receive(m, i).step, g, true).goal
    && m'.step.interpolator.conditions.operation == RampInPosition && m'.step.timePassed == i.sampleTime
  }

  /** A fast goal is accepted throughout the static stage. The next message takes it up exactly if no
      transition was pending when it was given. */
  lemma FastGoalTakenUpIff(k: Maths, m: Motion, g: StaticPositionGoal, i: Input)
    requires Inv(m) && m.sm.current == STATIC && Regular(i)
    ensures Accepted(m, SetStaticPosition(g, true))
    ensures TakenUp(k, m, Tick(k, Do(k, m, SetStaticPosition(g, true)), i), g, i) <==> !m.sm.hasPending
  {
    hide Process, Emit, Refit, Prepare, Inv, PreparePosition, Do, StoredInv, Pipeline;
    var m1 := Given(m, g);
    GivenIsDone(k, m, g);
    PlainPrepare(m1, i);
    var e := Advance1(Prepare(m1, i));
    GuardNeverRejects(k, e);
    ProcessEvents(k, e);
    StageKept(k, Process(k, e));
    FinishConserves(k, Process(k, e));
    assert Tick(k, m1, i) == Emit(k, Refit(Process(k, e)));
    if !m.sm.hasPending {
      TakesUp(k, e, g);
      assert e.step == Receive(m, i).step;
    } else {
      PendingStages(m);
    }
  }

  function Given(m: Motion, g: StaticPositionGoal): Motion {
    m.(events := m.events.(run := RunEvents(false, true, m.events.run.discard, false),
                           still := m.events.still.(fast := true, position := true, velocity := false),
                               positionGoal := g))
  }

  lemma GivenIsDone(k: Maths, m: Motion, g: StaticPositionGoal)
    requires Inv(m) && m.sm.current == STATIC
    ensures Accepted(m, SetStaticPosition(g, true))
    ensures Do(k, m, SetStaticPosition(g, true)) == Given(m, g) && Inv(Given(m, g))
  {
    DoInv(k, m, SetStaticPosition(g, true));
    hide Inv;
  }

  lemma PendingStages(m: Motion)
    requires Inv(m) && m.sm.current == STATIC && m.sm.hasPending
    ensures m.sm.pending == RAMP_START || m.sm.pending == STATIC_END
  {
    hide FittedInv, FactorInv, GoalInv;
  }

  lemma TakesUp(k: Maths, e: Motion, g: StaticPositionGoal)
    requires e.sm.current == STATIC && e.events.still.position && e.events.still.fast && !e.events.run.rampDown
    requires e.events.positionGoal == g
    ensures var m' := Emit(k, Refit(Process(k, e)));
            && m'.hasActive && m'.step.goal == PreparePosition(k, e.step, g, true).goal
            && m'.step.interpolator.conditions.operation == RampInPosition && m'.step.timePassed == e.step.sampleTime
  {
    var p := Process(k, e);
    assert p.step == PreparePosition(k, e.step, g, true) && p.hasNew && p.hasActive;
    PositionOperation(k, e.step, g);
    hide Process, PreparePosition, Evaluated, FadedReferences, FollowedOutputs;
    EmitFrame(k, Refit(p));
  }

  lemma PositionOperation(k: Maths, s: MotionStep, g: StaticPositionGoal)
    ensures var s' := PreparePosition(k, s, g, true);
            s'.conditions.operation == RampInPosition && s'.interpolator == s.interpolator
                && s'.sampleTime == s.sampleTime
  {
    hide Overlay, OverlayVec, OverlayPose;
  }

  /** Messages from a fast goal given too late to the normal state: one to start the half ramp, 125
      samples of at least 4 ms for its 0.5 s, one to report it finished and one to leave it. */
  const HALF_MESSAGES: nat := 128

  /** A slow-down to half speed leads out of the static stage in at most n messages, with the position
      goal g still pending. */
  predicate Halving(m: Motion, g: StaticPositionGoal, n: int) {
    && Inv(m) && !m.events.run.stop && !m.events.run.rampDown
    && m.events.still.position && m.events.positionGoal == g
    && match m.sm.current
       case Stage(RampDown, Finished) => n >= 1 && Resuming(m)
       case Stage(RampDown, _) =>
         && m.hasActive && m.step.interpolator.conditions.duration == RAMP_DOWN_STOP_DURATION / 2.0
         && (if m.sm.hasPending && m.sm.pending == STOPPED then n >= 2
             else n >= 3 && m.step.timePassed >= LOWEST_SAMPLE_TIME * (HALF_MESSAGES - n) as real)
       case _ => false
  }

  /** Back in the normal state, with the goal that was accepted neither taken up nor dropped. */
  predicate Left(m: Motion, g: StaticPositionGoal) {
    m.sm.current == RUNNING && !m.sm.hasPending && m.events.still.position && m.events.positionGoal == g
  }

  lemma EmitElapses(k: Maths, m: Motion)
    ensures Emit(k, m).step.timePassed == m.step.timePassed + (if m.hasActive then m.step.sampleTime else 0.0)
    ensures Emit(k, m).step.interpolator == m.step.interpolator && Emit(k, m).hasActive == m.hasActive
    ensures Emit(k, m).sm == m.sm && Emit(k, m).events == m.events
  {
    hide Evaluated, FadedReferences, FollowedOutputs;
  }

  /** A message while the half ramp runs. */
  lemma HalfRampTick(k: Maths, e: Motion, n: int)
    requires Entered(e) && e.sm.current == RAMPING && n >= 3 && e.step.sampleTime >= LOWEST_SAMPLE_TIME
    requires e.step.interpolator.conditions.duration == RAMP_DOWN_STOP_DURATION / 2.0
    requires e.step.timePassed >= LOWEST_SAMPLE_TIME * (HALF_MESSAGES - n) as real
    ensures var m' := Emit(k, Refit(Process(k, e)));
            && m'.sm.current == RAMPING && m'.events == e.events && m'.hasActive
            && m'.step.interpolator == e.step.interpolator
            && (if m'.sm.hasPending then m'.sm.pending == STOPPED
                else n >= 4 && m'.step.timePassed >= LOWEST_SAMPLE_TIME * (HALF_MESSAGES - n + 1) as real)
  {
    var p := Process(k, e);
    assert p == if DurationReached(e.step) then Pend(e, STOPPED) else e;
    hide Process, Emit, FittedInv, FactorInv;
    assert Refit(p) == p;
    EmitElapses(k, p);
  }

  lemma HalvingTick(k: Maths, m: Motion, i: Input, g: StaticPositionGoal, n: int)
    requires Halving(m, g, n) && Regular(i)
    ensures var m' := Tick(k, m, i); n >= 1 && (Left(m', g) || Halving(m', g, n - 1))
  {
    var p := Prepare(m, i);
    var e := Advance1(p);
    TickInv(k, m, i);
    PlainPrepare(m, i);
    PrepareInv(m, i);
    EnterInv(p);
    hide Process, Emit, Refit, Prepare, Inv, Entered;
    HalvingEntry(m, i, g, n);
    assert Tick(k, m, i) == Emit(k, Refit(Process(k, e)));
    if e.sm.current == RAMPING {
      HalfRampTick(k, e, n);
    } else {
      GuardNeverRejects(k, e);
      ProcessEvents(k, e);
      StageKept(k, Process(k, e));
      FinishConserves(k, Process(k, e));
    }
  }

  lemma HalvingEntry(m: Motion, i: Input, g: StaticPositionGoal, n: int)
    requires Halving(m, g, n) && Regular(i) && Prepare(m, i) == Receive(m, i).(hasNew := false)
    ensures var e := Advance1(Prepare(m, i));
            && e.events == m.events && e.step.sampleTime >= LOWEST_SAMPLE_TIME && !e.sm.hasPending
            && (m.sm.current == STOPPED ==> n >= 1 && e.sm.current == RUNNING)
            && (m.sm.current != STOPPED && m.sm.hasPending && m.sm.pending == STOPPED ==>
                   n >= 2 && e.sm.current == STOPPED)
            && (m.sm.current != STOPPED && !(m.sm.hasPending && m.sm.pending == STOPPED) ==>
                  && n >= 3 && e.sm.current == RAMPING
                  && e.step.timePassed >= LOWEST_SAMPLE_TIME * (HALF_MESSAGES - n) as real
                  && e.step.interpolator.conditions.duration == RAMP_DOWN_STOP_DURATION / 2.0)
  {
    hide Prepare, FittedInv, FactorInv;
    match m.sm.current
    case Stage(RampDown, NoSub) =>
    case Stage(RampDown, Running) =>
    case Stage(RampDown, Finished) =>
    case _ =>
  }

  lemma HalvingCommand(k: Maths, m: Motion, a: Action, g: StaticPositionGoal, n: int)
    requires Halving(m, g, n) && !a.Message?
    ensures Halving(Do(k, m, a), g, n)
  {
    DoInv(k, m, a);
    hide Tick, Inv;
  }

  lemma {:induction false} HalvingRun(k: Maths, m: Motion, acts: seq<Action>, g: StaticPositionGoal,
                                      n: int) returns (j: nat)
    requires Halving(m, g, n) && Uninterrupted(acts) && MessageCount(acts) >= n
    ensures 0 < j <= |acts| && MessageCount(acts[..j]) <= n && Left(Run(k, m, acts[..j]), g)
    decreases |acts|
  {
    hide Do, Halving, Left;
    HalvingIsPositive(m, g, n);
    var a, rest := acts[0], acts[1..];
    var m' := Do(k, m, a);
    assert acts == [a] + rest;
    var n' := n;
    if a.Message? {
      HalvingTick(k, m, a.input, g, n);
      MessageIsTick(k, m, a);
      n' := n - 1;
    } else {
      HalvingCommand(k, m, a, g, n);
    }
    if a.Message? && Left(m', g) {
      j := 1;
      assert acts[..1] == [a];
      RunOne(k, m, a);
    } else {
      var j' := HalvingRun(k, m', rest, g, n');
      j := j' + 1;
      assert acts[..j][1..] == rest[..j'] && acts[..j][0] == a;
    }
  }

  lemma HalvingIsPositive(m: Motion, g: StaticPositionGoal, n: int)
    requires Halving(m, g, n)
    ensures n >= 1
  {
    hide Inv;
  }

  /** The message that starts the half ramp. */
  lemma HalfRampStarts(k: Maths, e: Motion)
    requires Entered(e) && e.sm.current == RAMP_START && !e.events.run.stop && e.step.sampleTime >= LOWEST_SAMPLE_TIME
    ensures var m' := Emit(k, Refit(Process(k, e)));
            && m'.sm == StateManager(RAMP_START, RAMPING, true) && m'.events == e.events && m'.hasActive
            && m'.step.interpolator.conditions.duration == RAMP_DOWN_STOP_DURATION / 2.0
            && m'.step.interpolator.conditions.rampDownFactor == 0.5
            && m'.step.timePassed >= LOWEST_SAMPLE_TIME
  {
    var p := BeginRampDown(e);
    assert Process(k, e) == p;
    HalfRampFit(e);
    hide Process, BeginRampDown, Refit, Emit, Entered;
    EmitElapses(k, Refit(p));
  }

  lemma HalfRampFit(e: Motion)
    requires e.sm.current == RAMP_START && !e.events.run.stop
    ensures var m' := Refit(BeginRampDown(e));
            && m'.sm == StateManager(RAMP_START, RAMPING, true) && m'.events == e.events && m'.hasActive
            && m'.step.interpolator.conditions.duration == RAMP_DOWN_STOP_DURATION / 2.0
            && m'.step.interpolator.conditions.rampDownFactor == 0.5
            && m'.step.timePassed == 0.0 && m'.step.sampleTime == e.step.sampleTime
  {
    hide Slot, Remainder;
  }

  /** The first pending case: a slow goal has already asked for its ramp down. The fast goal takes the
      stop out of that ramp, so that the speed is only halved; and then, within 128 messages and
      whatever other commands arrive, the machine is back in the normal state and the accepted goal
      is still waiting. */
  lemma FastGoalAbandonsStatic(k: Maths, m: Motion, g: StaticPositionGoal, i: Input, acts: seq<Action>) returns (j: nat)
    requires Inv(m) && m.sm == StateManager(STATIC, RAMP_START, true) && Regular(i)
    requires Uninterrupted(acts) && MessageCount(acts) >= HALF_MESSAGES - 1
    ensures var m1 := Tick(k, Do(k, m, SetStaticPosition(g, true)), i);
            && Accepted(m, SetStaticPosition(g, true)) && m1.step.interpolator.conditions.rampDownFactor == 0.5
            && 0 < j <= |acts| && MessageCount(acts[..j]) <= HALF_MESSAGES - 1
            && Left(Run(k, m1, acts[..j]), g)
  {
    hide Tick, Inv, Run, Left, Do, Halving, Given;
    var m0 := Given(m, g);
    GivenIsDone(k, m, g);
    HalvingStarts(k, m, g, i);
    j := HalvingRun(k, Tick(k, m0, i), acts, g, HALF_MESSAGES - 1);
  }

  lemma HalvingStarts(k: Maths, m: Motion, g: StaticPositionGoal, i: Input)
    requires Inv(Given(m, g)) && m.sm == StateManager(STATIC, RAMP_START, true) && Regular(i)
    ensures var m' := Tick(k, Given(m, g), i);
            Halving(m', g, HALF_MESSAGES - 1) && m'.step.interpolator.conditions.rampDownFactor == 0.5
  {
    var m0 := Given(m, g);
    TickInv(k, m0, i);
    PlainPrepare(m0, i);
    PrepareInv(m0, i);
    EnterInv(Prepare(m0, i));
    hide Process, Emit, Refit, Prepare, Inv, Entered;
    var e := Advance1(Prepare(m0, i));
    HalfRampStarts(k, e);
    assert Tick(k, m0, i) == Emit(k, Refit(Process(k, e)));
  }

  /** The second pending case: the static stage is about to end. The fast goal is dropped, and the resume
      flag it sets makes the closing stop go on by itself, even if finishing was asked to wait. */
  lemma FastGoalAfterFinish(k: Maths, m: Motion, g: StaticPositionGoal, i: Input, i': Input,
                            acts: seq<Action>) returns (j: nat)
    requires Inv(m) && m.sm == StateManager(STATIC, STATIC_END, true) && Shaped(m.step.references)
    requires Regular(i) && Regular(i') && Uninterrupted(acts) && MessageCount(acts) >= STOP_MESSAGES - 2
    ensures var m1 := Tick(k, Do(k, m, SetStaticPosition(g, true)), i);
            var m2 := Tick(k, m1, i');
            && Accepted(m, SetStaticPosition(g, true)) && !m1.events.still.position
            && 0 < j <= |acts| && MessageCount(acts[..j]) <= STOP_MESSAGES - 2
            && GivenUp(Run(k, m2, acts[..j]))
  {
    hide Tick, Inv, Shaped, Braking, GivenUp, Run, Do;
    var m0 := Given(m, g);
    GivenIsDone(k, m, g);
    EndTick(k, m0, i);
    StopAgain(k, Tick(k, m0, i), i');
    j := StopIsGivenUp(k, Tick(k, Tick(k, m0, i), i'), acts, STOP_MESSAGES - 2);
  }

  /** The last message of the static stage orders a stop. */
  lemma EndTick(k: Maths, m: Motion, i: Input)
    requires Inv(m) && m.sm == StateManager(STATIC, STATIC_END, true) && Regular(i) && Shaped(m.step.references)
    ensures var m' := Tick(k, m, i);
            && Inv(m') && Shaped(m'.step.references) && m'.sm == StateManager(STATIC_END, RAMP_START, true)
            && m'.events.run.stop && m'.events.run.resume == m.events.run.resume && !m'.events.still.position
  {
    TickInv(k, m, i);
    TickShaped(k, m, i);
    PlainPrepare(m, i);
    var e := Advance1(Prepare(m, i));
    GuardNeverRejects(k, e);
    ProcessEvents(k, e);
    StageKept(k, Process(k, e));
    FinishConserves(k, Process(k, e));
    hide Process, Emit, Refit, Prepare, Inv, Shaped;
  }

  /** The message that enters a stopping ramp, from whichever stage. */
  lemma StopAgain(k: Maths, m: Motion, i: Input)
    requires Inv(m) && m.sm.hasPending && m.sm.pending == RAMP_START && m.events.run.stop
    requires Regular(i) && Shaped(m.step.references)
    ensures var m' := Tick(k, m, i); Braking(m', STOP_MESSAGES - 2) && m'.events == m.events
  {
    TickInv(k, m, i);
    NotIdle(m);
    PlainPrepare(m, i);
    PrepareInv(m, i);
    EnterInv(Prepare(m, i));
    var e := Advance1(Prepare(m, i));
    hide Process, Emit, Refit, Inv, Entered, AtRestNow;
    BeginBrake(k, e);
    assert Tick(k, m, i) == Emit(k, Refit(Process(k, e)));
    RampIsShaped(Tick(k, m, i));
  }

  lemma NotIdle(m: Motion)
    requires Inv(m) && m.sm.hasPending
    ensures m.sm.current != IDLE
  {
    hide FittedInv, FactorInv, GoalInv;
  }

  lemma RampIsShaped(m: Motion)
    requires Ramping(m)
    ensures Shaped(m.step.references)
  {
  }
}
