/** Stops, discards and overrides in any order: which work a stop leaves. */
module Ledgers {
  import opened Numeric
  import opened Quaternions
  import opened Messages
  import opened Machine
  import opened Dispatching
  import opened Soundness
  import opened Conservation
  import opened Stopping
  import opened Overrides

  /** The work, what waits to replace it, and whether the next stop makes the exchange. */
  datatype Ledger = Ledger(work: seq<PointGoal>, spare: seq<PointGoal>, discard: bool)

  /** What an accepted command does to the books. The last of several stops, static starts and
      overrides decides about the exchange; what it does not use stays in the spare column. */
  function Booked(l: Ledger, a: Action): Ledger {
    match a
    case AddTrajectory(points, override) =>
      if override then l.(spare := points, discard := true)
      else if l.discard then l.(spare := l.spare + points)
      else l.(work := l.work + points)
    case StopTrajectory(discard) => l.(discard := discard)
    case StartStaticGoal(discard) => l.(discard := discard)
    case _ => l
  }

  function BookedIn(k: Maths, m: Motion, acts: seq<Action>, l: Ledger): Ledger
    decreases |acts|
  {
    if acts == [] then l
    else BookedIn(k, Do(k, m, acts[0]), acts[1..], if Accepted(m, acts[0]) then Booked(l, acts[0]) else l)
  }

  predicate Balanced(m: Motion, l: Ledger) {
    && SameButHead(Pipeline(m), l.work) && Flatten(m.temporary) == l.spare && m.events.run.discard == l.discard
  }

  // ---------------------------------------------------------------- Commands

  lemma AppendBoth(a: seq<PointGoal>, b: seq<PointGoal>, c: seq<PointGoal>)
    requires SameButHead(a, b)
    ensures SameButHead(a + c, b + c)
  {
  }

  lemma CommandBalances(k: Maths, m: Motion, a: Action, l: Ledger)
    requires !a.Message? && Balanced(m, l)
    ensures Balanced(Do(k, m, a), if Accepted(m, a) then Booked(l, a) else l)
    ensures StoredInv(m) ==> StoredInv(Do(k, m, a))
  {
    hide Tick, SameButHead, Flatten, InHand;
    if a.AddTrajectory? && Accepted(m, a) {
      FlattenAppend(m.primary, [a.points]);
      FlattenAppend(m.temporary, [a.points]);
      FlattenOne(a.points);
      HandKept(k, m, a);
      AppendBoth(Pipeline(m), l.work, a.points);
      var m' := Do(k, m, a);
      assert Waiting(m) + Flatten(m.primary) + a.points == Waiting(m) + (Flatten(m.primary) + a.points);
      assert !a.override && !m.events.run.discard ==> Pipeline(m') == Pipeline(m) + a.points;
    } else {
      HandKept(k, m, a);
    }
  }

  lemma HandKept(k: Maths, m: Motion, a: Action)
    requires !a.Message?
    ensures var m' := Do(k, m, a);
            && InHand(m') == InHand(m) && m'.step.point == m.step.point && m'.current == m.current
            && (StoredInv(m) ==> StoredInv(m'))
            && (!a.AddTrajectory? ==> m'.primary == m.primary && m'.temporary == m.temporary)
  {
    hide Tick;
  }

  // ---------------------------------------------------------------- Messages

  /** On the way to a stop no point leaves and no queue moves. */
  lemma BrakingKeepsWork(k: Maths, e: Motion)
    requires Entered(e) && StoredOnEntry(e)
    requires (e.sm.current == RUNNING && e.events.run.rampDown) || e.sm.current == RAMP_START || e.sm.current == RAMPING
    ensures var p := Process(k, e);
            && SameButHead(Pipeline(p), EntryPipeline(e)) && StoredInv(p) && p.temporary == e.temporary
  {
    assert EntryPipeline(e)[0..] == EntryPipeline(e);
    if e.sm.current == RUNNING {
      assert Process(k, e) == e.(sm := StateManager(RUNNING, RAMP_START, true));
      HeadReflexive(EntryPipeline(e));
      hide Process, Flatten, FittedInv;
    } else if e.sm.current == RAMP_START {
      BeginRampDownConserves(k, e);
      TemporaryKept(k, e);
      assert Process(k, e) == BeginRampDown(e);
      hide Process, BeginRampDown, Pipeline, EntryPipeline;
    } else {
      RampingConserves(k, e);
      TemporaryKept(k, e);
      assert Process(k, e) == ProcessRampDown(k, e);
      hide Process, ProcessRampDown, Pipeline, EntryPipeline;
    }
  }

  lemma BrakingBalances(k: Maths, m: Motion, i: Input, n: int, l: Ledger)
    requires Braking(m, n) && FlowInv(m) && Regular(i) && Balanced(m, l) && Tick(k, m, i).sm.current != STOPPED
    ensures Balanced(Tick(k, m, i), l) && FlowInv(Tick(k, m, i))
  {
    var p := Prepare(m, i);
    var e := Advance1(p);
    TickInv(k, m, i);
    BrakeTick(k, m, i, n);
    PlainPrepare(m, i);
    PrepareInv(m, i);
    PrepareConserves(m, i);
    EnterInv(p);
    EntryConserves(p);
    BrakeEntry(m, i, n);
    hide Prepare, Emit, Refit, Process, Inv, Ramping, AtRestNow, Shaped, Entered, Pipeline, EntryPipeline, StoredInv,
         StoredOnEntry, SameButHead, Flatten;
    BrakingStages(k, m, i, n);
    BrakingKeepsWork(k, e);
    FinishConserves(k, Process(k, e));
    RefitFrame(Process(k, e));
    EmitFrame(k, Refit(Process(k, e)));
    Chained(Pipeline(Process(k, e)), Pipeline(p), Pipeline(m), l.work);
  }

  lemma Chained(a: seq<PointGoal>, b: seq<PointGoal>, c: seq<PointGoal>, d: seq<PointGoal>)
    requires SameButHead(a, b) && SameButHead(b, c) && SameButHead(c, d)
    ensures SameButHead(a, d)
  {
  }

  /** Before the stop is reached, the entered stage is one of three. */
  lemma BrakingStages(k: Maths, m: Motion, i: Input, n: int)
    requires Braking(m, n) && Regular(i) && Tick(k, m, i).sm.current != STOPPED
    ensures var s := Advance1(Prepare(m, i)).sm.current;
            (s == RUNNING && m.events.run.rampDown) || s == RAMP_START || s == RAMPING
  {
    PlainPrepare(m, i);
    BrakeEntry(m, i, n);
    var e := Advance1(Prepare(m, i));
    GuardNeverRejects(k, e);
    StageKept(k, Process(k, e));
    hide Prepare, Emit, Refit, Process, Inv, Ramping, AtRestNow, Shaped;
  }

  /** The message that reaches the stop: with the discard flag set the spare column is all the work,
      otherwise the work goes on, less points that are already met if it is resumed at once. */
  lemma StopBalances(k: Maths, m: Motion, i: Input, n: int, l: Ledger) returns (r: nat)
    requires Braking(m, n) && FlowInv(m) && Regular(i) && Balanced(m, l) && Tick(k, m, i).sm.current == STOPPED
    ensures Closed(Tick(k, m, i), l, r)
  {
    r := 0;
    if l.discard {
      StopReplaces(k, m, i, n, l.spare);
      hide Tick, Braking, Inv, Pipeline;
    } else {
      var p := Prepare(m, i);
      var e := Advance1(p);
      TickInv(k, m, i);
      PlainPrepare(m, i);
      PrepareInv(m, i);
      PrepareConserves(m, i);
      EnterInv(p);
      EntryConserves(p);
      GuardNeverRejects(k, e);
      StageKept(k, Process(k, e));
      hide Prepare, Emit, Refit, Process, Inv, Braking, Entered, Pipeline, EntryPipeline, StoredInv, StoredOnEntry,
           SameButHead, Flatten, Justified;
      r := ProcessConserves(k, e);
      TemporaryKept(k, e);
      TickNeverDiscards(k, m, i);
      FinishConserves(k, Process(k, e));
      RefitFrame(Process(k, e));
      EmitFrame(k, Refit(Process(k, e)));
      HeadTransitive(Pipeline(Process(k, e)), Pipeline(p), Pipeline(m), r);
      Rebased(Pipeline(Process(k, e)), Pipeline(m), l.work, r);
    }
  }

  lemma Rebased(a: seq<PointGoal>, b: seq<PointGoal>, c: seq<PointGoal>, r: nat)
    requires r <= |b| && SameButHead(a, b[r..]) && SameButHead(b, c)
    ensures r <= |c| && SameButHead(a, c[r..])
  {
  }

  /** The books have been settled by a stop. */
  predicate Closed(s: Motion, l: Ledger, r: nat) {
    && FlowInv(s) && !s.events.run.discard
    && (l.discard ==> Pipeline(s) == l.spare && s.temporary == [])
    && (!l.discard ==> r <= |l.work| && SameButHead(Pipeline(s), l.work[r..]) && Flatten(s.temporary) == l.spare)
  }

  // ---------------------------------------------------------------- Whole runs

  /** Whatever commands arrive on the way to a stop, in whatever order: when it is reached, the work is
      what the books say. */
  lemma {:induction false} StopSettles(k: Maths, m: Motion, acts: seq<Action>, n: int, l: Ledger)
    returns (j: nat, r: nat)
    requires Braking(m, n) && FlowInv(m) && Balanced(m, l) && Uninterrupted(acts) && MessageCount(acts) >= n
    ensures 0 < j <= |acts| && MessageCount(acts[..j]) <= n
    ensures var s := Run(k, m, acts[..j]);
            s.sm.current == STOPPED && Closed(s, BookedIn(k, m, acts[..j], l), r)
    decreases |acts|
  {
    hide Do, Braking, FlowInv, Balanced, Closed, Booked, Accepted, Regular;
    BrakingIsPositive(m, n);
    var a, rest := acts[0], acts[1..];
    assert acts == [a] + rest;
    r := BrakeStep(k, m, a, n, l);
    var m' := Do(k, m, a);
    if m'.sm.current == STOPPED {
      j := 1;
      assert acts[..1] == [a];
      RunOne(k, m, a);
      BookedOne(k, m, a, l);
    } else {
      var j', r' := StopSettles(k, m', rest, if a.Message? then n - 1 else n, if Accepted(m, a) then Booked(l, a)
          else l);
      j, r := j' + 1, r';
      assert acts[..j][1..] == rest[..j'] && acts[..j][0] == a;
    }
  }

  lemma BrakeStep(k: Maths, m: Motion, a: Action, n: int, l: Ledger) returns (r: nat)
    requires Braking(m, n) && FlowInv(m) && Balanced(m, l) && (a.Message? ==> Regular(a.input))
    ensures var m', l' := Do(k, m, a), if Accepted(m, a) then Booked(l, a) else l;
            && (m'.sm.current == STOPPED ==> a.Message? && Closed(m', l', r))
            && (m'.sm.current != STOPPED ==>
                  Braking(m', if a.Message? then n - 1 else n) && FlowInv(m') && Balanced(m', l'))
  {
    hide Do, Tick, Braking, FlowInv, Balanced, Closed, Booked, Accepted;
    r := 0;
    if a.Message? {
      MessageIsTick(k, m, a);
      NotACommand(m, a);
      BrakeTick(k, m, a.input, n);
      if Tick(k, m, a.input).sm.current == STOPPED {
        r := StopBalances(k, m, a.input, n, l);
      } else {
        BrakingBalances(k, m, a.input, n, l);
      }
    } else {
      CommandFlows(k, m, a);
      CommandBalances(k, m, a, l);
      BrakeCommand(k, m, a, n);
      BrakingStage(Do(k, m, a), n);
    }
  }

  lemma NotACommand(m: Motion, a: Action)
    requires a.Message?
    ensures !Accepted(m, a)
  {
  }

  lemma CommandFlows(k: Maths, m: Motion, a: Action)
    requires !a.Message? && FlowInv(m)
    ensures FlowInv(Do(k, m, a))
  {
    DoInv(k, m, a);
    HandKept(k, m, a);
    hide Do, Inv, StoredInv;
  }

  lemma BookedOne(k: Maths, m: Motion, a: Action, l: Ledger)
    ensures BookedIn(k, m, [a], l) == if Accepted(m, a) then Booked(l, a) else l
  {
    hide Do, Booked, Accepted;
    var l' := if Accepted(m, a) then Booked(l, a) else l;
    assert [a][1..] == [];
    assert BookedIn(k, Do(k, m, a), [], l') == l';
  }

  /** An accepted override, in particular: at the stop the work is the override and what was added to it
      exactly if the books, kept from the override on, say discard; otherwise it is the old work. */
  lemma OverrideSettles(k: Maths, m: Motion, points: Trajectory, acts: seq<Action>) returns (j: nat, r: nat)
    requires FlowInv(m) && Shaped(m.step.references) && Accepted(m, AddTrajectory(points, true))
    requires Uninterrupted(acts) && MessageCount(acts) >= STOP_MESSAGES
    ensures j <= |acts| && MessageCount(acts[..j]) <= STOP_MESSAGES
    ensures var m0 := Do(k, m, AddTrajectory(points, true));
            var s := Run(k, m0, acts[..j]);
            s.sm.current == STOPPED && Closed(s, BookedIn(k, m0, acts[..j], Ledger(Pipeline(m), points, true)), r)
  {
    var a := AddTrajectory(points, true);
    var m0 := Do(k, m, a);
    var l := Ledger(Pipeline(m), Flatten(m.temporary), m.events.run.discard);
    HeadReflexive(Pipeline(m));
    OverrideAccepted(k, m, points);
    CommandBalances(k, m, a, l);
    CommandFlows(k, m, a);
    assert Booked(l, a) == Ledger(Pipeline(m), points, true);
    hide Do, Braking, FlowInv, Balanced, Closed, Booked, Accepted, Shaped, Pipeline, Flatten;
    j, r := StopSettles(k, m0, acts, STOP_MESSAGES, Ledger(Pipeline(m), points, true));
  }

  // ---------------------------------------------------------------- The override that comes back

  lemma ProcessKeepsTemporary(k: Maths, e: Motion)
    requires !e.events.run.discard
    ensures Process(k, e).temporary == e.temporary
  {
    hide UpdateNormalGoal, SetPending, PreparePosition, PrepareVelocity, ConditionMet, ProcessRampDown;
    match e.sm.current
    case Stage(RampDown, NoSub) => TemporaryKept(k, e);
    case Stage(RampDown, Running) => TemporaryKept(k, e);
    case Stage(RampDown, Finished) => TemporaryKept(k, e);
    case Stage(Normal, _) =>
      UpdateNormalGoalFrame(k, e);
      if e.primary != [] { UpdateNormalGoalFrame(k, e.(current := Some(e.primary[0]), primary := e.primary[1..])); }
    case Stage(StaticGoal, _) =>
  }

  lemma TickKeepsTemporary(k: Maths, m: Motion, i: Input)
    requires !m.events.run.discard && Harmless(m, Message(i))
    ensures Tick(k, m, i).temporary == m.temporary
  {
    var e := Advance1(Prepare(m, i));
    PrepareEvents(m, i);
    assert Prepare(m, i).temporary == m.temporary by { PrepareKeepsTemporary(m, i); }
    hide Prepare, Process, Refit, Emit;
    if i.ok {
      ProcessKeepsTemporary(k, e);
      RefitFrame(Process(k, e));
      EmitFrame(k, Refit(Process(k, e)));
    }
  }

  lemma PrepareKeepsTemporary(m: Motion, i: Input)
    requires Harmless(m, Message(i))
    ensures Prepare(m, i).temporary == m.temporary
  {
    hide ResetStep, Remainder;
  }

  /** A run that discards nothing leaves the temporary queue as it is. */
  lemma {:induction false} SpareIsKept(k: Maths, m: Motion, acts: seq<Action>)
    requires FlowInv(m) && !m.events.run.discard && AllHarmless(k, m, acts)
    ensures Run(k, m, acts).temporary == m.temporary
    decreases |acts|
  {
    hide Do, FlowInv, Pipeline, SameButHead, Earned, Harmless, Added;
    if acts != [] {
      var r := DoConserves(k, m, acts[0]);
      DoKeepsTemporary(k, m, acts[0]);
      SpareIsKept(k, Do(k, m, acts[0]), acts[1..]);
    }
  }

  lemma DoKeepsTemporary(k: Maths, m: Motion, a: Action)
    requires !m.events.run.discard && Harmless(m, a)
    ensures Do(k, m, a).temporary == m.temporary
  {
    hide Tick;
    if a.Message? { TickKeepsTemporary(k, m, a.input); }
  }

  /** A called-off override comes back: however long after, the next discarding stop replaces the work
      by the old override, followed by what is added before the stop is reached. */
  lemma CancelledOverrideReturns(k: Maths, m: Motion, points: Trajectory, between: seq<Action>,
                                 acts: seq<Action>) returns (j: nat)
    requires FlowInv(m) && Accepted(m, AddTrajectory(points, true))
    requires var m1 := Do(k, Do(k, m, AddTrajectory(points, true)), StopTrajectory(false));
             var m2 := Run(k, m1, between);
             AllHarmless(k, m1, between) && Shaped(m2.step.references) && Accepted(m2, StopTrajectory(true))
    requires Uninterrupted(acts) && MessageCount(acts) >= STOP_MESSAGES
    requires var m1 := Do(k, Do(k, m, AddTrajectory(points, true)), StopTrajectory(false));
             NoneCancels(k, Do(k, Run(k, m1, between), StopTrajectory(true)), acts)
    ensures var m1 := Do(k, Do(k, m, AddTrajectory(points, true)), StopTrajectory(false));
            var m3 := Do(k, Run(k, m1, between), StopTrajectory(true));
            && 0 < j <= |acts| && Run(k, m3, acts[..j]).sm.current == STOPPED
            && Pipeline(Run(k, m3, acts[..j])) == points + AddedIn(k, m3, acts[..j])
  {
    var m0 := Do(k, m, AddTrajectory(points, true));
    var m1 := Do(k, m0, StopTrajectory(false));
    StopCancelsOverride(k, m, points);
    CommandFlows(k, m, AddTrajectory(points, true));
    CommandFlows(k, m0, StopTrajectory(false));
    hide FlowInv, Shaped, Pipeline, Braking, Flatten, NoneCancels;
    var r := RunConserves(k, m1, between);
    SpareIsKept(k, m1, between);
    var m2 := Run(k, m1, between);
    RunFlows(m2);
    StopBrakes(k, m2, true);
    FlattenOne(points);
    StopKeepsTemporary(k, m2);
    hide Do, Run, Accepted;
    j := OverrideTakesOver(k, Do(k, m2, StopTrajectory(true)), acts, STOP_MESSAGES, points);
  }

  lemma RunFlows(m: Motion)
    requires FlowInv(m)
    ensures Inv(m)
  {
  }

  lemma StopKeepsTemporary(k: Maths, m: Motion)
    requires Accepted(m, StopTrajectory(true))
    ensures var m' := Do(k, m, StopTrajectory(true)); m'.temporary == m.temporary && m'.events.run.discard
  {
  }
}
