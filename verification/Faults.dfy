/** Where dispatched points can come from, over every run without exception; and what a fault wipes out. */
module Faults {
  import opened Numeric
  import opened Quaternions
  import opened Messages
  import opened Machine
  import opened Dispatching
  import opened Soundness
  import opened Conservation

  /** A point up to its duration. */
  function Erased(p: PointGoal): PointGoal { p.(duration := None) }

  predicate OneOf(p: PointGoal, points: seq<PointGoal>) {
    exists i :: 0 <= i < |points| && Erased(points[i]) == Erased(p)
  }

  predicate AllFrom(points: seq<PointGoal>, origin: seq<PointGoal>) {
    forall i :: 0 <= i < |points| ==> OneOf(points[i], origin)
  }

  predicate QueueFrom(q: seq<Trajectory>, origin: seq<PointGoal>) {
    forall i :: 0 <= i < |q| ==> AllFrom(q[i], origin)
  }

  /** Every point the machine holds anywhere stems from `origin`. */
  predicate StemsFrom(m: Motion, origin: seq<PointGoal>) {
    && QueueFrom(m.primary, origin) && QueueFrom(m.temporary, origin)
    && (m.current.Some? ==> AllFrom(m.current.value, origin) && OneOf(m.step.point, origin))
  }

  lemma UpdateNormalGoalStems(k: Maths, m: Motion, origin: seq<PointGoal>)
    requires QueueFrom(m.primary, origin) && QueueFrom(m.temporary, origin)
    requires m.current.Some? ==> AllFrom(m.current.value, origin)
    ensures StemsFrom(UpdateNormalGoal(k, m), origin)
  {
    var d := UpdateNormalGoalRefines(k, m);
    var m' := UpdateNormalGoal(k, m);
    hide UpdateNormalGoal, OneOf, Exhausted;
    if m'.hasActive {
      var points := m.current.value;
      assert m'.step.point == points[d];
      assert forall i :: 0 <= i < |m'.current.value| ==> m'.current.value[i] == points[d + 1 + i];
    }
  }

  lemma StoreStems(m: Motion, origin: seq<PointGoal>)
    requires StemsFrom(m, origin)
    ensures StemsFrom(StoreNormalGoal(m), origin)
    ensures StoreNormalGoal(m).primary == m.primary && StoreNormalGoal(m).temporary == m.temporary
  {
    if m.current.Some? { ErasedSame(m.step, origin); }
    hide OneOf, Remainder;
  }

  lemma ErasedSame(s: MotionStep, origin: seq<PointGoal>)
    requires OneOf(s.point, origin)
    ensures OneOf(Remainder(s), origin)
  {
    assert Erased(Remainder(s)) == Erased(s.point);
  }

  lemma ProcessStems(k: Maths, m: Motion, origin: seq<PointGoal>)
    requires StemsFrom(m, origin)
    ensures StemsFrom(Process(k, m), origin)
  {
    match m.sm.current.state
    case Normal => NormalStems(k, m, origin);
    case RampDown => RampDownStems(k, m, origin);
    case StaticGoal => StaticStems(k, m, origin);
  }

  lemma NormalStems(k: Maths, m: Motion, origin: seq<PointGoal>)
    requires StemsFrom(m, origin)
    ensures StemsFrom(ProcessNormal(k, m), origin)
  {
    hide UpdateNormalGoal, ConditionMet, AllFrom, OneOf, SetPending;
    UpdateNormalGoalStems(k, m, origin);
    if m.primary != [] {
      UpdateNormalGoalStems(k, m.(current := Some(m.primary[0]), primary := m.primary[1..]), origin);
    }
  }

  lemma RampDownStems(k: Maths, m: Motion, origin: seq<PointGoal>)
    requires StemsFrom(m, origin)
    ensures StemsFrom(ProcessRampDown(k, m), origin)
  {
    hide UpdateNormalGoal, AllFrom, OneOf, SetPending, StoreNormalGoal, EndRampDown;
    match m.sm.current.sub
    case NoSub =>
      StoreStems(m.(step := PrepareRampDown(m.step, m.events.run.stop)), origin);
    case Running =>
    case Finished =>
      EndStems(k, ApplyDiscard(ApplyFactor(m)), origin);
  }

  lemma EndStems(k: Maths, m: Motion, origin: seq<PointGoal>)
    requires StemsFrom(m, origin)
    ensures StemsFrom(EndRampDown(k, m), origin)
  {
    hide UpdateNormalGoal, AllFrom, OneOf, SetPending, Released;
    UpdateNormalGoalStems(k, m.(events := m.events.(run := Released(m.events.run))), origin);
  }

  lemma StaticStems(k: Maths, m: Motion, origin: seq<PointGoal>)
    requires StemsFrom(m, origin)
    ensures StemsFrom(ProcessStatic(k, m), origin)
  {
    hide AllFrom, OneOf, SetPending;
    if m.sm.current == STATIC_START && m.current.Some? {
      assert QueueFrom([m.current.value] + m.primary, origin);
    }
  }

  lemma ResetStems(m: Motion, origin: seq<PointGoal>)
    requires StemsFrom(m, origin)
    ensures StemsFrom(ResetMotion(m), origin)
  {
    hide AllFrom, OneOf, StoreNormalGoal, ResetStep;
    StoreStems(m, origin);
    if m.current.Some? {
      StoreKeepsCurrent(m);
      assert QueueFrom([StoreNormalGoal(m).current.value] + m.primary, origin);
    }
  }

  lemma StoreKeepsCurrent(m: Motion)
    ensures StoreNormalGoal(m).current.Some? <==> m.current.Some?
  {
  }

  lemma PrepareStems(m: Motion, i: Input, origin: seq<PointGoal>)
    requires StemsFrom(m, origin)
    ensures StemsFrom(Prepare(m, i), origin)
  {
    hide ResetMotion, AllFrom, OneOf;
    var received := Receive(m, i);
    ResetStems(received, origin);
    var begun := if i.first then ResetMotion(received) else received;
    ResetStems(begun, origin);
    assert QueueFrom([], origin);
  }

  lemma TickStems(k: Maths, m: Motion, i: Input, origin: seq<PointGoal>)
    requires StemsFrom(m, origin)
    ensures StemsFrom(Tick(k, m, i), origin)
  {
    hide Process, Emit, Refit, Prepare, AllFrom, OneOf;
    var e := Advance1(Prepare(m, i));
    PrepareStems(m, i, origin);
    ProcessStems(k, e, origin);
    RefitFrame(Process(k, e));
    EmitFrame(k, Refit(Process(k, e)));
  }

  lemma Widen(m: Motion, origin: seq<PointGoal>, more: seq<PointGoal>)
    requires StemsFrom(m, origin)
    ensures StemsFrom(m, origin + more)
  {
    forall p | OneOf(p, origin) ensures OneOf(p, origin + more) {
      var i :| 0 <= i < |origin| && Erased(origin[i]) == Erased(p);
      assert (origin + more)[i] == origin[i];
    }
    hide OneOf;
  }

  lemma NewPoints(points: seq<PointGoal>, origin: seq<PointGoal>)
    ensures AllFrom(points, origin + points)
  {
    forall i | 0 <= i < |points| ensures OneOf(points[i], origin + points) {
      assert (origin + points)[|origin| + i] == points[i];
    }
  }

  lemma DoStems(k: Maths, m: Motion, a: Action, origin: seq<PointGoal>)
    requires StemsFrom(m, origin)
    ensures StemsFrom(Do(k, m, a), origin + Added(m, a))
  {
    hide Tick, AllFrom, OneOf;
    Widen(m, origin, Added(m, a));
    if a.Message? {
      TickStems(k, m, a.input, origin);
      assert origin + [] == origin;
    } else if a.AddTrajectory? {
      NewPoints(a.points, origin);
    }
  }

  /** No run invents a point: whatever it holds, and so whatever it ever executes, it held before or
      was given since. There is no condition on the run. */
  lemma {:induction false} RunStems(k: Maths, m: Motion, acts: seq<Action>, origin: seq<PointGoal>)
    requires StemsFrom(m, origin)
    ensures StemsFrom(Run(k, m, acts), origin + AddedIn(k, m, acts))
    decreases |acts|
  {
    hide Do, Added, StemsFrom;
    if acts == [] {
      assert origin + [] == origin;
    } else {
      DoStems(k, m, acts[0], origin);
      RunStems(k, Do(k, m, acts[0]), acts[1..], origin + Added(m, acts[0]));
      assert origin + Added(m, acts[0]) + AddedIn(k, Do(k, m, acts[0]), acts[1..]) == origin + AddedIn(k, m, acts);
    }
  }

  // ---------------------------------------------------------------- Faults

  /** A running session is told that the controller is not ready. */
  predicate Fault(m: Motion, i: Input) { !i.ok && !i.first && m.sm.current != IDLE }

  /** A fault wipes the slate: idle, no goal, nothing queued, outputs as they were. */
  lemma FaultWipes(k: Maths, m: Motion, i: Input)
    requires Fault(m, i)
    ensures var m' := Tick(k, m, i);
            && m'.sm == RESET_STATE && !m'.hasActive && !m'.hasNew
            && m'.current.None? && m'.primary == [] && m'.temporary == []
            && m'.outputs == m.outputs
  {
    hide ResetStep, Remainder;
  }

  /** While the controller is not ready no message changes the outputs, except that a session opens with
      the feedback. */
  lemma NotReadyKeepsOutputs(k: Maths, m: Motion, i: Input)
    requires Inv(m) && !i.ok
    ensures Tick(k, m, i).outputs == if i.first then OpeningOutputs(i.feedback) else m.outputs
    ensures Tick(k, m, i).sm.current == IDLE && !Tick(k, m, i).hasActive
  {
    hide ResetStep, Remainder, FittedInv, FactorInv;
  }

  /** No point accepted before a fault is ever executed after it, whatever happens next. */
  lemma FaultIsolation(k: Maths, m: Motion, i: Input, acts: seq<Action>)
    requires Fault(m, i)
    ensures var m' := Tick(k, m, i);
            var final := Run(k, m', acts);
            && StemsFrom(final, AddedIn(k, m', acts))
            && (InHand(final) ==> OneOf(final.step.point, AddedIn(k, m', acts)))
  {
    var m' := Tick(k, m, i);
    FaultWipes(k, m, i);
    hide Tick, Do, Run, OneOf, AllFrom;
    assert StemsFrom(m', []);
    RunStems(k, m', acts, []);
    assert [] + AddedIn(k, m', acts) == AddedIn(k, m', acts);
  }
}
