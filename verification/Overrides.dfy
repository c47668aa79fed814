/** An overriding trajectory replaces all earlier work, in order, and nothing earlier is started again. */
module Overrides {
  import opened Quaternions
  import opened Messages
  import opened Machine
  import opened Dispatching
  import opened Soundness
  import opened Conservation
  import opened Stopping

  /** A discard is pending and `queue` is what will replace the present work. */
  predicate Replacing(m: Motion, queue: seq<PointGoal>) {
    m.events.run.discard && Flatten(m.temporary) == queue
  }

  /** m' has started no point that m had not already in hand. */
  predicate NothingStarted(m: Motion, m': Motion) {
    InHand(m') ==> InHand(m) && m'.step.point == m.step.point && m'.current == m.current
  }

  /** Commands after which the pending discard is off, or its replacement is replaced. */
  predicate Cancels(a: Action) {
    || (a.AddTrajectory? && a.override)
    || (a.StopTrajectory? && !a.discard)
    || (a.StartStaticGoal? && !a.discardAll)
  }

  /** No command of a run calls the exchange off or replaces the replacement. */
  predicate NoneCancels(k: Maths, m: Motion, acts: seq<Action>)
    decreases |acts|
  {
    acts == [] || (!(Cancels(acts[0]) && Accepted(m, acts[0])) && NoneCancels(k, Do(k, m, acts[0]), acts[1..]))
  }

  lemma OverrideAccepted(k: Maths, m: Motion, points: Trajectory)
    requires Inv(m) && Shaped(m.step.references) && Accepted(m, AddTrajectory(points, true))
    ensures var m0 := Do(k, m, AddTrajectory(points, true));
            Braking(m0, STOP_MESSAGES) && Replacing(m0, points) && NothingStarted(m, m0)
  {
    DoInv(k, m, AddTrajectory(points, true));
    FlattenOne(points);
    hide Inv, Tick, Shaped;
  }

  lemma CommandKeepsReplacing(k: Maths, m: Motion, a: Action, queue: seq<PointGoal>)
    requires Replacing(m, queue) && !a.Message? && !(Cancels(a) && Accepted(m, a))
    ensures Replacing(Do(k, m, a), queue + Added(m, a))
    ensures NothingStarted(m, Do(k, m, a))
  {
    hide Tick;
    assert queue + [] == queue;
    if a.AddTrajectory? {
      FlattenAppend(m.temporary, [a.points]);
      FlattenOne(a.points);
    }
  }

  /** Until the stop is reached the replacement waits and no other point is started. */
  lemma BrakingKeepsReplacing(k: Maths, m: Motion, i: Input, n: int, queue: seq<PointGoal>)
    requires Braking(m, n) && Regular(i) && Replacing(m, queue) && Tick(k, m, i).sm.current != STOPPED
    ensures Replacing(Tick(k, m, i), queue) && NothingStarted(m, Tick(k, m, i))
  {
    hide Prepare, Emit, Refit, Process, Inv, Ramping, AtRestNow, Shaped, Entered;
    var p := Prepare(m, i);
    var e := Advance1(p);
    BrakeTick(k, m, i, n);
    PlainPrepare(m, i);
    PrepareInv(m, i);
    EnterInv(p);
    BrakeEntry(m, i, n);
    assert Tick(k, m, i) == Emit(k, Refit(Process(k, e)));
    RefitFrame(Process(k, e));
    EmitFrame(k, Refit(Process(k, e)));
    if m.sm.current == RUNNING && !m.sm.hasPending {
      RunningTick(k, e);
    } else {
      GuardNeverRejects(k, e);
      TemporaryKept(k, e);
    }
  }

  lemma TemporaryKept(k: Maths, e: Motion)
    requires e.sm.current == RAMP_START || e.sm.current == RAMPING
             || (e.sm.current == STOPPED && !e.events.run.discard)
    ensures Process(k, e).temporary == e.temporary
  {
    hide UpdateNormalGoal, SetPending, PrepareRampDown, Remainder;
    UpdateNormalGoalFrame(k,
        ApplyFactor(e).(events := ApplyFactor(e).events.(run := Released(ApplyFactor(e).events.run))));
  }

  /** The stop is reached: the replacement is all the work there is. */
  lemma StopReplaces(k: Maths, m: Motion, i: Input, n: int, queue: seq<PointGoal>)
    requires Braking(m, n) && Regular(i) && Replacing(m, queue) && Tick(k, m, i).sm.current == STOPPED
    ensures var m' := Tick(k, m, i);
            && Pipeline(m') == queue && !InHand(m') && m'.current.None? && m'.temporary == []
            && !m'.events.run.discard && FlowInv(m')
  {
    var p := Prepare(m, i);
    var e := Advance1(p);
    TickInv(k, m, i);
    PlainPrepare(m, i);
    hide Prepare, Emit, Refit, Process, Inv, Ramping, AtRestNow, StopsAll, Shaped;
    assert Tick(k, m, i) == Emit(k, Refit(Process(k, e)));
    RefitFrame(Process(k, e));
    EmitFrame(k, Refit(Process(k, e)));
    GuardNeverRejects(k, e);
    DiscardTakesEffect(k, e);
  }

  lemma DiscardTakesEffect(k: Maths, e: Motion)
    requires e.sm.current == STOPPED && e.events.run.discard
    ensures var p := Process(k, e);
            p.current.None? && p.primary == e.temporary && p.temporary == [] && !p.events.run.discard
  {
    ProcessEvents(k, e);
    var d := ApplyDiscard(ApplyFactor(e));
    assert d.current.None? && d.primary == e.temporary && d.temporary == [];
    hide ApplyDiscard, ApplyFactor;
    assert Process(k, e) == EndRampDown(k, d);
  }

  /** From an accepted override on: within 253 messages the earlier work is gone and the override,
      followed by whatever was appended meanwhile, is all there is to do; until then nothing is
      started. */
  lemma {:induction false} OverrideTakesOver(k: Maths, m: Motion, acts: seq<Action>, n: int, queue: seq<PointGoal>)
    returns (j: nat)
    requires Braking(m, n) && Replacing(m, queue) && Uninterrupted(acts) && MessageCount(acts) >= n
    requires NoneCancels(k, m, acts)
    ensures 0 < j <= |acts| && MessageCount(acts[..j]) <= n
    ensures forall i :: 0 <= i <= j ==> NothingStarted(m, Run(k, m, acts[..i]))
    ensures var s := Run(k, m, acts[..j]);
            && s.sm.current == STOPPED && !s.events.run.discard && FlowInv(s)
            && Pipeline(s) == queue + AddedIn(k, m, acts[..j])
    decreases |acts|
  {
    hide Do, Braking, Replacing, NothingStarted, Cancels, Accepted, Pipeline, FlowInv, Added;
    BrakingIsPositive(m, n);
    var a, rest := acts[0], acts[1..];
    var m' := Do(k, m, a);
    assert acts == [a] + rest;
    NothingStartedYet(m);
    assert acts[..0] == [];
    if a.Message? {
      MessageIsTick(k, m, a);
      BrakeTick(k, m, a.input, n);
      NothingAdded(m, a);
      if m'.sm.current == STOPPED {
        StopReplaces(k, m, a.input, n, queue);
        NotInHand(m, m');
        j := 1;
        assert acts[..1] == [a];
        RunOne(k, m, a);
        AddedOne(k, m, a);
        assert queue + [] == queue;
        forall i | 0 <= i <= j ensures NothingStarted(m, Run(k, m, acts[..i])) {
          if i == 1 { assert acts[..i] == [a]; }
        }
      } else {
        BrakingKeepsReplacing(k, m, a.input, n, queue);
        j := OverrideContinues(k, m, acts, n - 1, queue);
      }
    } else {
      BrakeCommand(k, m, a, n);
      CommandKeepsReplacing(k, m, a, queue);
      j := OverrideContinues(k, m, acts, n, queue + Added(m, a));
      assert queue + Added(m, a) + AddedIn(k, m', acts[..j][1..]) == queue + AddedIn(k, m, acts[..j]);
    }
  }

  /** The step case: the rest of the run takes over, and adds the points of its first command. */
  lemma {:induction false} OverrideContinues(k: Maths, m: Motion, acts: seq<Action>, n: int, queue: seq<PointGoal>)
    returns (j: nat)
    requires acts != [] && Uninterrupted(acts) && MessageCount(acts[1..]) >= n
    requires var m' := Do(k, m, acts[0]); Braking(m', n) && Replacing(m', queue) && NothingStarted(m, m')
    requires NoneCancels(k, Do(k, m, acts[0]), acts[1..])
    ensures 0 < j <= |acts| && MessageCount(acts[..j]) <= n + (if acts[0].Message? then 1 else 0)
    ensures forall i :: 0 <= i <= j ==> NothingStarted(m, Run(k, m, acts[..i]))
    ensures var s := Run(k, m, acts[..j]);
            && s.sm.current == STOPPED && !s.events.run.discard && FlowInv(s)
            && Pipeline(s) == queue + AddedIn(k, Do(k, m, acts[0]), acts[..j][1..])
    decreases |acts|, 0
  {
    hide Do, Braking, Replacing, Cancels, Accepted, Pipeline, FlowInv, Added;
    var a, rest := acts[0], acts[1..];
    var m' := Do(k, m, a);
    var j' := OverrideTakesOver(k, m', rest, n, queue);
    j := j' + 1;
    assert acts[..j][1..] == rest[..j'] && acts[..j][0] == a;
    forall i | 0 <= i <= j ensures NothingStarted(m, Run(k, m, acts[..i])) {
      if i > 0 {
        assert acts[..i][1..] == rest[..i - 1] && acts[..i][0] == a;
        assert NothingStarted(m', Run(k, m', rest[..i - 1]));
      }
    }
  }

  lemma NothingStartedYet(m: Motion)
    ensures NothingStarted(m, m)
  {
  }

  lemma NotInHand(m: Motion, m': Motion)
    requires !InHand(m')
    ensures NothingStarted(m, m')
  {
  }

  lemma AddedOne(k: Maths, m: Motion, a: Action)
    ensures AddedIn(k, m, [a]) == Added(m, a)
  {
    hide Do, Added;
    assert [a][1..] == [];
    assert AddedIn(k, Do(k, m, a), []) == [];
  }

  /** The whole story: after the take-over the replacement is worked off first in, first out. */
  lemma OverrideOrder(k: Maths, m: Motion, points: Trajectory, acts: seq<Action>, more: seq<Action>)
    returns (j: nat, r: nat)
    requires Inv(m) && Shaped(m.step.references) && Accepted(m, AddTrajectory(points, true))
    requires Uninterrupted(acts) && MessageCount(acts) >= STOP_MESSAGES
    requires NoneCancels(k, Do(k, m, AddTrajectory(points, true)), acts)
    ensures j <= |acts| && MessageCount(acts[..j]) <= STOP_MESSAGES
    ensures var m0 := Do(k, m, AddTrajectory(points, true));
            var s := Run(k, m0, acts[..j]);
            var work := points + AddedIn(k, m0, acts[..j]) + AddedIn(k, s, more);
            && (forall i :: 0 <= i <= j ==> NothingStarted(m0, Run(k, m0, acts[..i])))
            && (AllHarmless(k, s, more) ==> r <= |work| && SameButHead(Pipeline(Run(k, s, more)), work[r..]))
  {
    hide Do, Braking, Replacing, NothingStarted, Pipeline, FlowInv, Shaped, Inv, NoneCancels;
    var m0 := Do(k, m, AddTrajectory(points, true));
    OverrideAccepted(k, m, points);
    j := OverrideTakesOver(k, m0, acts, STOP_MESSAGES, points);
    r := 0;
    if AllHarmless(k, Run(k, m0, acts[..j]), more) {
      r := RunConserves(k, Run(k, m0, acts[..j]), more);
    }
  }

  /** The exception: a plain stop that arrives while the discard is pending calls it off. The work is
      what it was, and the override stays behind in the temporary queue. */
  lemma StopCancelsOverride(k: Maths, m: Motion, points: Trajectory)
    requires Accepted(m, AddTrajectory(points, true))
    ensures var m1 := Do(k, Do(k, m, AddTrajectory(points, true)), StopTrajectory(false));
            !m1.events.run.discard && Pipeline(m1) == Pipeline(m) && m1.temporary == [points]
  {
    hide Tick, Flatten;
  }
}
