/** From startStaticGoal to the static stage, and a run that misses a static goal. */
module StaticEntries {
  import opened Numeric
  import opened Quaternions
  import opened Splines
  import opened Messages
  import opened Machine
  import opened Soundness
  import opened Conservation
  import opened Stopping
  import opened References
  import opened Races
  import opened Pursuits
  import opened SlowGoals
  import opened Pitfalls
  import opened FirstMessages

  /** At most n messages before the static stage is open. */
  predicate Entering(m: Motion, n: int) {
    && Inv(m) && Shaped(m.step.references) && !m.events.still.finish
    && match m.sm.current
       case Stage(StaticGoal, NoSub) => m.sm.hasPending && m.sm.pending == STATIC && !m.events.run.rampDown && n >= 1
       case Stage(RampDown, Finished) => m.sm.hasPending && m.sm.pending == STATIC_START && !m.events.run.rampDown
           && n >= 2
       case _ => Bound(m.events) && Braking(m, n - 2)
  }

  lemma EnteringTick(k: Maths, m: Motion, i: Input, n: int)
    requires Entering(m, n) && Regular(i)
    ensures var m' := Tick(k, m, i); n >= 1 && (Entering(m', n - 1) || Open(m'))
  {
    hide Tick, Braking, Inv, Shaped;
    TickInv(k, m, i);
    EnteringActive(m, n);
    TickShaped(k, m, i);
    match m.sm.current
    case Stage(StaticGoal, NoSub) => OpenTick(k, m, i);
    case Stage(RampDown, Finished) => EnterStatic(k, m, i);
    case _ => BrakeOn(k, m, i, n - 2);
  }

  lemma EnteringActive(m: Motion, n: int)
    requires Entering(m, n)
    ensures m.sm.current != IDLE
  {
    hide Inv, Shaped, Ramping, AtRestNow;
  }

  /** The first message of the static stage proper. */
  lemma OpenTick(k: Maths, m: Motion, i: Input)
    requires m.sm == StateManager(STATIC_START, STATIC, true) && Regular(i)
    requires !m.events.run.rampDown && !m.events.still.finish
    ensures Tick(k, m, i).sm == StateManager(STATIC, STATIC, false) && !Tick(k, m, i).events.still.finish
  {
    hide Process, Emit, Refit, Prepare, Pipeline, StoredInv;
    PlainPrepare(m, i);
    var e := Advance1(Prepare(m, i));
    GuardNeverRejects(k, e);
    ProcessEvents(k, e);
    StageKept(k, Process(k, e));
    FinishConserves(k, Process(k, e));
    assert Tick(k, m, i) == Emit(k, Refit(Process(k, e)));
  }

  lemma BrakeOn(k: Maths, m: Motion, i: Input, n: int)
    requires Braking(m, n) && Regular(i) && Bound(m.events)
    ensures var m' := Tick(k, m, i);
            && n >= 1
            && (m'.sm.current == STOPPED ==>
                  && m'.sm == StateManager(STOPPED, STATIC_START, true) && !m'.events.run.rampDown
                  && m'.events.still == m.events.still)
            && (m'.sm.current != STOPPED ==>
                  m'.sm.current != STATIC_START && Braking(m', n - 1) && m'.events == m.events)
  {
    hide Tick, Bound;
    BrakeTick(k, m, i, n);
    if Tick(k, m, i).sm.current == STOPPED {
      ArriveAtStatic(k, m, i, n);
    } else {
      BrakingIsNotStatic(Tick(k, m, i), n - 1);
    }
  }

  lemma BrakingIsNotStatic(m: Motion, n: int)
    requires Braking(m, n)
    ensures m.sm.current != STATIC_START
  {
    hide Inv, Ramping, AtRestNow;
  }

  lemma EnteringRejects(k: Maths, m: Motion, a: Action, n: int)
    requires Entering(m, n) && !a.Message? && !Accepted(m, a)
    ensures Entering(Do(k, m, a), n)
  {
    RejectedFrame(k, m, a);
    DoInv(k, m, a);
    if m.sm.current != STATIC_START && m.sm.current != STOPPED { EnteringBrakes(k, m, a, n); }
    hide Do, Inv, Shaped, Braking, Accepted;
  }

  lemma EnteringBrakes(k: Maths, m: Motion, a: Action, n: int)
    requires Entering(m, n) && !a.Message? && m.sm.current != STATIC_START && m.sm.current != STOPPED
    ensures Braking(Do(k, m, a), n - 2)
  {
    hide Do, Inv, Shaped, Braking;
    assert Braking(m, n - 2) by { EnteringForm(m, n); }
    BrakeCommand(k, m, a, n - 2);
  }

  lemma EnteringForm(m: Motion, n: int)
    requires Entering(m, n) && m.sm.current != STATIC_START && m.sm.current != STOPPED
    ensures Braking(m, n - 2)
  {
    hide Inv, Shaped, Braking;
    match m.sm.current
    case Stage(StaticGoal, NoSub) =>
    case Stage(RampDown, Finished) =>
    case _ =>
  }

  lemma {:induction false} EnteringRun(k: Maths, m: Motion, acts: seq<Action>, n: int) returns (j: nat)
    requires Entering(m, n) && Undisturbed(k, m, acts) && MessageCount(acts) >= n
    ensures 0 < j <= |acts| && MessageCount(acts[..j]) <= n
    ensures Open(Run(k, m, acts[..j])) && SameLengths(Run(k, m, acts[..j]).step.references, m.step.references)
    decreases |acts|
  {
    hide Do, Entering, Open, SameLengths, Accepted, Regular;
    EnteringIsPositive(m, n);
    var a, rest := acts[0], acts[1..];
    var m1 := Do(k, m, a);
    assert acts == [a] + rest;
    if a.Message? {
      MessageIsTick(k, m, a);
      EnteringTick(k, m, a.input, n);
      TickLengths(k, m, a.input);
    } else {
      EnteringRejects(k, m, a, n);
      RejectedFrame(k, m, a);
      LengthsSelf(m.step.references);
    }
    if a.Message? && Open(m1) {
      j := 1;
      assert acts[..1] == [a];
      RunOne(k, m, a);
    } else {
      var j' := EnteringRun(k, m1, rest, if a.Message? then n - 1 else n);
      j := j' + 1;
      assert acts[..j][1..] == rest[..j'] && acts[..j][0] == a;
      LengthsChain(Run(k, m, acts[..j]).step.references, m1.step.references, m.step.references);
    }
  }

  lemma LengthsSelf(r: Reference)
    ensures SameLengths(r, r)
  {
  }

  lemma EnteringIsPositive(m: Motion, n: int)
    requires Entering(m, n)
    ensures n >= 1
  {
    if m.sm.current != STATIC_START && m.sm.current != STOPPED {
      EnteringForm(m, n);
      BrakingIsPositive(m, n - 2);
    }
    hide Inv, Shaped, Braking;
  }

  /** An accepted startStaticGoal leads to the static stage, open to goals, within 255 regular messages. */
  lemma StaticStageIsEntered(k: Maths, m: Motion, discard: bool, acts: seq<Action>) returns (j: nat)
    requires Inv(m) && Shaped(m.step.references) && Accepted(m, StartStaticGoal(discard)) && !m.events.still.finish
    requires Undisturbed(k, Do(k, m, StartStaticGoal(discard)), acts) && MessageCount(acts) >= STOP_MESSAGES + 2
    ensures 0 < j <= |acts| && MessageCount(acts[..j]) <= STOP_MESSAGES + 2
    ensures var s := Run(k, Do(k, m, StartStaticGoal(discard)), acts[..j]);
            Open(s) && SameLengths(s.step.references, m.step.references)
  {
    hide Run, Undisturbed, SameLengths, Inv, Shaped, Tick;
    DoInv(k, m, StartStaticGoal(discard));
    var m0 := Do(k, m, StartStaticGoal(discard));
    assert Entering(m0, STOP_MESSAGES + 2);
    j := EnteringRun(k, m0, acts, STOP_MESSAGES + 2);
  }

  // ---------------------------------------------------------------- A run that misses its goal

  /** A regular message with the given feedback, and n of them. */
  function Beat(f: Feedback): Input { Input(false, true, LOWEST_SAMPLE_TIME, f) }

  function Beats(f: Feedback, n: nat): seq<Action> { seq(n, _ => Message(Beat(f))) }

  lemma {:induction false} BeatsCount(f: Feedback, n: nat)
    ensures MessageCount(Beats(f, n)) == n
  {
    if n > 0 {
      assert Beats(f, n)[1..] == Beats(f, n - 1);
      BeatsCount(f, n - 1);
    }
  }

  lemma {:induction false} BeatsAreUndisturbed(k: Maths, m: Motion, f: Feedback, n: nat)
    ensures Undisturbed(k, m, Beats(f, n))
    decreases n
  {
    hide Do;
    if n > 0 {
      assert Beats(f, n)[1..] == Beats(f, n - 1);
      BeatsAreUndisturbed(k, Do(k, m, Message(Beat(f))), f, n - 1);
    }
  }

  const ONE_PER_SECOND: StaticVelocityGoal := StaticVelocityGoal([1.0], None, [])

  const AT_ONE: StaticPositionGoal := StaticPositionGoal([1.0], None, [])

  /** One joint at 0: start a static goal, wait, ask for velocity 1, wait, ask for position 1. After 0.1 s the
      joint is past its goal. */
  lemma MissedGoalRun(k: Maths, kind: SplineMethod, offset: int) returns (wait: nat)
    requires k.RampEndpoints()
    ensures var acts := [Message(START), StartStaticGoal(false)] + Beats(AT_ZERO, wait)
            + [SetStaticVelocity(ONE_PER_SECOND, true)] + Beats(AT_ZERO, 25)
                        + [SetStaticPosition(AT_ONE, true)] + Beats(AT_ZERO, 25);
            var r := Run(k, Initial(kind, offset), acts).step.references.joints;
            |r.position| == 1 && r.position[0] > 1.0
  {
    hide Run, Do, Open, Undisturbed, Inv, SameLengths, Maths.RampEndpoints, Initial;
    var m0 := Initial(kind, offset);
    var m1 := Tick(k, m0, START);
    OpenedAtZero(k, kind, offset);
    var beats := Beats(AT_ZERO, STOP_MESSAGES + 2);
    var m2 := Do(k, m1, StartStaticGoal(false));
    BeatsCount(AT_ZERO, STOP_MESSAGES + 2);
    BeatsAreUndisturbed(k, m2, AT_ZERO, STOP_MESSAGES + 2);
    wait := StaticStageIsEntered(k, m1, false, beats);
    assert beats[..wait] == Beats(AT_ZERO, wait);
    var m3 := Run(k, m2, Beats(AT_ZERO, wait));
    var m4 := Do(k, m3, SetStaticVelocity(ONE_PER_SECOND, true));
    BeatsCount(AT_ZERO, 25);
    BeatsAreUndisturbed(k, m4, AT_ZERO, 25);
    var m5 := Run(k, m4, Beats(AT_ZERO, 25));
    var m6 := Do(k, m5, SetStaticPosition(AT_ONE, true));
    BeatsAreUndisturbed(k, m6, AT_ZERO, 25);
    OneJoint(m3, m1);
    FastGoalMisses(k, m3, ONE_PER_SECOND, Beats(AT_ZERO, 25), AT_ONE, Beats(AT_ZERO, 25), 0);
    LengthsAreKept(k, m3, m6);
    RunThree(k, m0, wait, ONE_PER_SECOND, AT_ONE);
  }

  lemma OneJoint(m: Motion, m1: Motion)
    requires SameLengths(m.step.references, m1.step.references) && |m1.step.references.joints.position| == 1
    ensures |m.step.references.joints.position| == 1
  {
  }

  /** Regular messages and commands keep the number of joints. */
  lemma LengthsAreKept(k: Maths, m3: Motion, m6: Motion)
    requires |m3.step.references.joints.position| == 1
    requires m6 == Do(k, Run(k, Do(k, m3, SetStaticVelocity(ONE_PER_SECOND, true)), Beats(AT_ZERO, 25)),
             SetStaticPosition(AT_ONE, true))
    ensures |Run(k, m6, Beats(AT_ZERO, 25)).step.references.joints.position| == 1
  {
    hide Run, Do;
    var m4 := Do(k, m3, SetStaticVelocity(ONE_PER_SECOND, true));
    var m5 := Run(k, m4, Beats(AT_ZERO, 25));
    CommandMovesNothing(k, m3, SetStaticVelocity(ONE_PER_SECOND, true));
    BeatsKeepLengths(k, m4, AT_ZERO, 25);
    CommandMovesNothing(k, m5, SetStaticPosition(AT_ONE, true));
    BeatsKeepLengths(k, m6, AT_ZERO, 25);
  }

  lemma {:induction false} BeatsKeepLengths(k: Maths, m: Motion, f: Feedback, n: nat)
    ensures SameLengths(Run(k, m, Beats(f, n)).step.references, m.step.references)
    decreases n
  {
    hide Do, SameLengths;
    if n == 0 {
      LengthsSelf(m.step.references);
    } else {
      var a := Message(Beat(f));
      assert Beats(f, n)[1..] == Beats(f, n - 1);
      MessageIsTick(k, m, a);
      TickLengths(k, m, Beat(f));
      BeatsKeepLengths(k, Do(k, m, a), f, n - 1);
      LengthsChain(Run(k, m, Beats(f, n)).step.references, Do(k, m, a).step.references, m.step.references);
    }
  }

  lemma OpenedAtZero(k: Maths, kind: SplineMethod, offset: int)
    ensures var m1 := Tick(k, Initial(kind, offset), START);
            && Inv(m1) && Shaped(m1.step.references) && |m1.step.references.joints.position| == 1
            && Accepted(m1, StartStaticGoal(false)) && !m1.events.still.finish
  {
    var m0 := Initial(kind, offset);
    InitialInv(kind, offset);
    InitialForm(kind, offset);
    TickInv(k, m0, START);
    OpensAtZero(k, m0);
    Restarted(m0, START);
    hide Tick, Prepare;
    OpeningReferences(k, m0);
  }

  lemma OpeningReferences(k: Maths, m: Motion)
    requires m.events == NO_EVENTS && m.current.None? && m.primary == []
    ensures Tick(k, m, START).step.references == FromFeedback(AT_ZERO)
  {
    Restarted(m, START);
    hide Prepare;
  }

  lemma RunThree(k: Maths, m0: Motion, wait: nat, v: StaticVelocityGoal, p: StaticPositionGoal)
    ensures var m3 := Run(k, Do(k, Tick(k, m0, START), StartStaticGoal(false)), Beats(AT_ZERO, wait));
            var m5 := Run(k, Do(k, m3, SetStaticVelocity(v, true)), Beats(AT_ZERO, 25));
            Run(k, m0, [Message(START), StartStaticGoal(false)] + Beats(AT_ZERO, wait) + [SetStaticVelocity(v, true)]
                + Beats(AT_ZERO, 25)
                       + [SetStaticPosition(p, true)] + Beats(AT_ZERO, 25))
            == Run(k, Do(k, m5, SetStaticPosition(p, true)), Beats(AT_ZERO, 25))
  {
    hide Run, Do;
    var a := [Message(START), StartStaticGoal(false)];
    var b := a + Beats(AT_ZERO, wait) + [SetStaticVelocity(v, true)];
    var c := b + Beats(AT_ZERO, 25) + [SetStaticPosition(p, true)];
    var m1 := Do(k, m0, Message(START));
    MessageIsTick(k, m0, Message(START));
    assert a == [Message(START)] + [StartStaticGoal(false)];
    RunConcat(k, m0, [Message(START)], [StartStaticGoal(false)]);
    RunOne(k, m0, Message(START));
    RunOne(k, m1, StartStaticGoal(false));
    RunConcat(k, m0, a, Beats(AT_ZERO, wait));
    RunConcat(k, m0, a + Beats(AT_ZERO, wait), [SetStaticVelocity(v, true)]);
    RunOne(k, Run(k, m0, a + Beats(AT_ZERO, wait)), SetStaticVelocity(v, true));
    RunConcat(k, m0, b, Beats(AT_ZERO, 25));
    RunConcat(k, m0, b + Beats(AT_ZERO, 25), [SetStaticPosition(p, true)]);
    RunOne(k, Run(k, m0, b + Beats(AT_ZERO, 25)), SetStaticPosition(p, true));
    RunConcat(k, m0, c, Beats(AT_ZERO, 25));
  }
}
