/** No trajectory point is lost, duplicated or reordered. */
module Conservation {
  import opened Numeric
  import opened Quaternions
  import opened Splines
  import opened Messages
  import opened Interpolation
  import opened Machine
  import opened Dispatching
  import opened Soundness

  function Flatten(q: seq<Trajectory>): seq<PointGoal> {
    if q == [] then [] else q[0] + Flatten(q[1..])
  }

  lemma {:induction false} FlattenAppend(q: seq<Trajectory>, r: seq<Trajectory>)
    ensures Flatten(q + r) == Flatten(q) + Flatten(r)
  {
    if q == [] {
      assert q + r == r;
    } else {
      assert (q + r)[1..] == q[1..] + r;
      FlattenAppend(q[1..], r);
    }
  }

  lemma FlattenOne(t: Trajectory)
    ensures Flatten([t]) == t
  {
    assert [t][1..] == [];
  }

  function Waiting(m: Motion): seq<PointGoal> { if m.current.Some? then m.current.value else [] }

  /** Everything still to be finished, in order: the point in hand, the rest of its trajectory, the
      queued trajectories. */
  function Pipeline(m: Motion): seq<PointGoal> {
    (if InHand(m) then [m.step.point] else []) + Waiting(m) + Flatten(m.primary)
  }

  /** Equal, but for the duration of the first point (an interrupted point is stored with the
      duration that remains). */
  predicate SameButHead(a: seq<PointGoal>, b: seq<PointGoal>) {
    && |a| == |b|
    && (forall i :: 1 <= i < |a| ==> a[i] == b[i])
    && (|a| > 0 ==> a[0] == b[0].(duration := a[0].duration))
  }

  /** The points an action adds to the pipeline. */
  function Added(m: Motion, a: Action): seq<PointGoal> {
    if a.AddTrajectory? && Accepted(m, a) then a.points else []
  }

  lemma NothingAdded(m: Motion, a: Action)
    requires a.Message?
    ensures Added(m, a) == []
  {
  }

  /** While a ramp down lasts, an interrupted point is back at the head of its trajectory. */
  predicate StoredInv(m: Motion) {
    m.sm.current.state.RampDown? && !Resuming(m) && m.current.Some? ==>
      m.current.value != [] && m.current.value[0] == m.step.point
  }

  predicate FlowInv(m: Motion) { Inv(m) && StoredInv(m) }

  // ---------------------------------------------------------------- Why points leave

  /** The active point is finished: its time is up and, if it must be reached, it is. */
  predicate Complete(s: MotionStep) { DurationReached(s) && (s.goal.reach ==> ConditionMet(s)) }

  /** The machine whose current trajectory the next updateNormalGoal draws from. */
  function Source(e: Motion): Motion {
    if e.sm.current == STOPPED then ApplyFactor(e)
    else if e.current.None? && e.primary != [] then e.(current := Some(e.primary[0]), primary := e.primary[1..])
    else e
  }

  /** r points may leave: the completed point in hand, and points already met when their turn came. */
  ghost predicate Justified(k: Maths, e: Motion, r: nat) {
    var held := if InHand(e) then 1 else 0;
    && (r > 0 && InHand(e) ==> Complete(e.step))
    && (r > held ==> r - held <= |Waiting(Source(e))|)
    && forall j: nat :: held + j < r ==> j < |Waiting(Source(e))| && ConditionMet(Candidate(k, Source(e), j))
  }

  // ---------------------------------------------------------------- Goal updates

  /** updateNormalGoal drops points that were already met and takes the next one in hand. */
  lemma UpdateNormalGoalConserves(k: Maths, m: Motion) returns (r: nat)
    ensures var m' := UpdateNormalGoal(k, m);
            && r <= |Waiting(m)|
            && (if m'.current.Some? then [m'.step.point] else []) + Waiting(m') == Waiting(m)[r..]
            && forall j: nat :: j < r ==> ConditionMet(Candidate(k, m, j))
  {
    var m' := UpdateNormalGoal(k, m);
    var d := UpdateNormalGoalRefines(k, m);
    hide UpdateNormalGoal, ConditionMet;
    if m'.hasActive {
      r := d;
      assert [m.current.value[d]] + m.current.value[d + 1..] == m.current.value[d..];
    } else {
      r := |Waiting(m)|;
    }
  }

  lemma SliceAll(a: seq<PointGoal>, b: seq<PointGoal>, r: nat)
    requires r <= |a|
    ensures (a + b)[r..] == a[r..] + b
  {
  }

  // ---------------------------------------------------------------- Stages

  /** The pipeline of a machine that has just entered a stage. On entry to a ramp down the active
      point is still in hand. */
  predicate InHandOnEntry(e: Motion) { e.current.Some? && e.sm.current in {RUNNING, RAMP_START} }

  function EntryPipeline(e: Motion): seq<PointGoal> {
    (if InHandOnEntry(e) then [e.step.point] else []) + Waiting(e) + Flatten(e.primary)
  }

  predicate StoredOnEntry(e: Motion) {
    e.sm.current in {RAMPING, STOPPED} && e.current.Some? ==>
      e.current.value != [] && e.current.value[0] == e.step.point
  }

  lemma NormalConserves(k: Maths, m: Motion) returns (r: nat)
    requires Entered(m) && m.sm.current == RUNNING
    ensures r <= |EntryPipeline(m)| && Justified(k, m, r)
    ensures Pipeline(ProcessNormal(k, m)) == EntryPipeline(m)[r..]
    ensures StoredInv(ProcessNormal(k, m))
  {
    r := 0;
    NothingJustified(k, m);
    if !m.events.run.rampDown && m.current.Some? && Complete(m.step) {
      r := CompletionConserves(k, m);
      hide UpdateNormalGoal, ConditionMet, Justified;
    } else if !m.events.run.rampDown && m.current.None? && m.primary != [] {
      r := DequeueConserves(k, m);
      hide UpdateNormalGoal, ConditionMet, Justified;
    } else {
      NormalRequests(k, m);
      hide UpdateNormalGoal, ConditionMet, Justified;
    }
  }

  lemma CompletionConserves(k: Maths, m: Motion) returns (r: nat)
    requires Entered(m) && m.sm.current == RUNNING && m.current.Some? && Complete(m.step)
    ensures r <= |EntryPipeline(m)| && Justified(k, m, r)
    ensures Pipeline(UpdateNormalGoal(k, m)) == EntryPipeline(m)[r..]
    ensures StoredInv(UpdateNormalGoal(k, m))
  {
    UpdateNormalGoalFrame(k, m);
    var d := UpdateNormalGoalConserves(k, m);
    r := d + 1;
    hide UpdateNormalGoal, ConditionMet, Candidate;
    SliceAll([m.step.point] + Waiting(m), Flatten(m.primary), r);
    assert ([m.step.point] + Waiting(m))[r..] == Waiting(m)[d..];
    forall j: nat | 1 + j < r
      ensures j < |Waiting(Source(m))| && ConditionMet(Candidate(k, Source(m), j))
    {
    }
  }

  lemma DequeueConserves(k: Maths, m: Motion) returns (r: nat)
    requires Entered(m) && m.sm.current == RUNNING && m.current.None? && m.primary != []
    ensures r <= |EntryPipeline(m)| && Justified(k, m, r)
    ensures var m' := UpdateNormalGoal(k, m.(current := Some(m.primary[0]), primary := m.primary[1..]));
            Pipeline(m') == EntryPipeline(m)[r..] && StoredInv(m')
  {
    var src := m.(current := Some(m.primary[0]), primary := m.primary[1..]);
    UpdateNormalGoalFrame(k, src);
    r := UpdateNormalGoalConserves(k, src);
    hide UpdateNormalGoal, ConditionMet, Candidate;
    assert EntryPipeline(m) == Waiting(src) + Flatten(src.primary);
    SliceAll(Waiting(src), Flatten(src.primary), r);
  }

  lemma RampDownConserves(k: Maths, m: Motion) returns (r: nat)
    requires Entered(m) && m.sm.current.state.RampDown? && StoredOnEntry(m)
    requires !(m.sm.current == STOPPED && m.events.run.discard)
    ensures r <= |EntryPipeline(m)| && Justified(k, m, r)
    ensures SameButHead(Pipeline(ProcessRampDown(k, m)), EntryPipeline(m)[r..])
    ensures StoredInv(ProcessRampDown(k, m))
  {
    assert m.sm.current == Stage(RampDown, m.sm.current.sub);
    NothingJustified(k, m);
    hide Justified;
    match m.sm.current.sub
    case NoSub =>
      BeginRampDownConserves(k, m);
      r := 0;
      hide BeginRampDown;
    case Running =>
      RampingConserves(k, m);
      r := 0;
      hide Pend;
    case Finished =>
      r := StoppedConserves(k, m);
      hide EndRampDown, ApplyFactor, ApplyDiscard;
  }

  lemma RampingConserves(k: Maths, m: Motion)
    requires Entered(m) && m.sm.current == RAMPING && StoredOnEntry(m)
    ensures SameButHead(Pipeline(ProcessRampDown(k, m)), EntryPipeline(m)[0..])
    ensures StoredInv(ProcessRampDown(k, m))
  {
    assert EntryPipeline(m)[0..] == EntryPipeline(m);
  }

  lemma StoppedConserves(k: Maths, m: Motion) returns (r: nat)
    requires Entered(m) && m.sm.current == STOPPED && StoredOnEntry(m) && !m.events.run.discard
    ensures r <= |EntryPipeline(m)| && Justified(k, m, r)
    ensures Pipeline(ProcessRampDown(k, m)) == EntryPipeline(m)[r..]
    ensures StoredInv(ProcessRampDown(k, m))
  {
    hide EndRampDown, ApplyFactor, ApplyDiscard, Justified, ConditionMet, Candidate, FittedInv, FactorInv;
    var f := ApplyFactor(m);
    FactorFrame(m);
    r := EndRampDownConserves(k, f);
    JustifiedStop(k, m, f, r);
    assert ProcessRampDown(k, m) == EndRampDown(k, f);
  }

  lemma FactorFrame(m: Motion)
    requires Entered(m) && m.sm.current == STOPPED && StoredOnEntry(m) && !m.events.run.discard
    ensures var f := ApplyFactor(m);
            && Entered(f) && StoredOnEntry(f) && f.sm == m.sm && ApplyDiscard(f) == f
            && Waiting(f) == Waiting(m) && f.primary == m.primary
  {
    hide Clamped;
  }

  lemma JustifiedStop(k: Maths, m: Motion, f: Motion, r: nat)
    requires m.sm.current == STOPPED && !m.sm.hasPending && f == ApplyFactor(m) && r <= |Waiting(f)|
    requires forall j: nat :: j < r ==> ConditionMet(Candidate(k, f, j))
    ensures Justified(k, m, r)
  {
    assert Source(m) == f;
    hide ConditionMet, ApplyFactor;
  }

  lemma BeginRampDownConserves(k: Maths, m: Motion)
    requires Entered(m) && m.sm.current == RAMP_START
    ensures SameButHead(Pipeline(BeginRampDown(m)), EntryPipeline(m)[0..])
    ensures StoredInv(BeginRampDown(m))
  {
    hide BeginRampDown, FittedInv, FactorInv, Flatten;
    assert EntryPipeline(m)[0..] == EntryPipeline(m);
    RampDownStores(m);
  }

  /** An active point is put back at the head, with another duration. */
  lemma RampDownStores(m: Motion)
    requires m.sm.current == RAMP_START && (m.current.Some? ==> m.hasActive)
    ensures var m' := BeginRampDown(m);
            && m'.sm == StateManager(RAMP_START, RAMPING, true) && m'.primary == m.primary
            && m'.step.point == m.step.point.(duration := m'.step.point.duration)
            && m'.current == if m.current.None? then None else Some([m'.step.point] + m.current.value)
  {
  }

  lemma EndRampDownConserves(k: Maths, m: Motion) returns (r: nat)
    requires Entered(m) && m.sm.current == STOPPED && StoredOnEntry(m)
    ensures r <= |Waiting(m)|
    ensures Pipeline(EndRampDown(k, m)) == (Waiting(m) + Flatten(m.primary))[r..]
    ensures forall j: nat :: j < r ==> ConditionMet(Candidate(k, m, j))
    ensures StoredInv(EndRampDown(k, m))
  {
    EndRampDownRequests(k, m);
    r := 0;
    if Requested(m) == Some(RUNNING) {
      var src := m.(events := m.events.(run := Released(m.events.run)));
      UpdateNormalGoalFrame(k, src);
      r := UpdateNormalGoalConserves(k, src);
      hide UpdateNormalGoal, ConditionMet;
      forall j: nat | j < r ensures ConditionMet(Candidate(k, m, j)) {
        assert ConditionMet(Candidate(k, src, j));
      }
      SliceAll(Waiting(m), Flatten(m.primary), r);
    }
  }

  lemma StaticConserves(k: Maths, m: Motion)
    requires Entered(m) && m.sm.current.state.StaticGoal?
    ensures Pipeline(ProcessStatic(k, m)) == EntryPipeline(m)
    ensures StoredInv(ProcessStatic(k, m))
  {
    StaticRequests(k, m);
    hide PreparePosition, PrepareVelocity;
    if m.sm.current == STATIC_START && m.current.Some? {
      assert ([m.current.value] + m.primary)[1..] == m.primary;
    }
  }

  lemma ProcessConserves(k: Maths, m: Motion) returns (r: nat)
    requires Entered(m) && StoredOnEntry(m) && !(m.sm.current == STOPPED && m.events.run.discard)
    ensures r <= |EntryPipeline(m)| && Justified(k, m, r)
    ensures SameButHead(Pipeline(Process(k, m)), EntryPipeline(m)[r..])
    ensures StoredInv(Process(k, m))
  {
    hide ProcessNormal, ProcessRampDown, ProcessStatic, Justified;
    r := 0;
    match m.sm.current
    case Stage(Normal, Running) => r := NormalConserves(k, m);
    case Stage(Normal, _) => assert false;
    case Stage(RampDown, _) => r := RampDownConserves(k, m);
    case Stage(StaticGoal, _) => StaticConserves(k, m); NothingJustified(k, m);
  }

  lemma NothingJustified(k: Maths, m: Motion)
    ensures Justified(k, m, 0)
  {
  }

  // ---------------------------------------------------------------- One step

  /** Actions that discard nothing, restart no session over a stored point and report no fault. */
  predicate Harmless(m: Motion, a: Action) {
    match a
    case Message(i) =>
      && (i.first ==> m.current.None? || InHand(m))
      && (!i.first && !i.ok ==> m.sm.current == IDLE)
    case AddTrajectory(_, override) => Accepted(m, a) ==> !override
    case StopTrajectory(discard) => Accepted(m, a) ==> !discard
    case StartStaticGoal(discard) => Accepted(m, a) ==> !discard
    case _ => true
  }

  lemma PrepareConserves(m: Motion, i: Input)
    requires FlowInv(m) && Harmless(m, Message(i))
    ensures SameButHead(Pipeline(Prepare(m, i)), Pipeline(m))
    ensures StoredInv(Prepare(m, i)) && Prepare(m, i).events == m.events
  {
    hide ResetStep, FittedInv;
    if i.first && m.current.Some? {
      var stored := [Remainder(Receive(m, i).step)] + m.current.value;
      assert ([stored] + m.primary)[1..] == m.primary;
    }
  }

  lemma EntryConserves(m: Motion)
    requires FlowInv(m) && m.sm.current != IDLE
    ensures EntryPipeline(Advance1(m)) == Pipeline(m) && StoredOnEntry(Advance1(m))
  {
    hide FittedInv;
    match m.sm.current
    case Stage(Normal, Running) =>
    case Stage(Normal, _) =>
    case Stage(RampDown, _) =>
    case Stage(StaticGoal, _) =>
  }

  lemma FinishConserves(k: Maths, m: Motion)
    ensures Pipeline(Emit(k, Refit(m))) == Pipeline(m)
    ensures StoredInv(Emit(k, Refit(m))) == StoredInv(m)
    ensures Emit(k, Refit(m)).events == m.events
  {
    EmitFrame(k, Refit(m));
    hide Emit, UpdateInterpolator, UpdateController;
    RefitFrame(m);
  }

  lemma RefitFrame(m: Motion)
    ensures var m' := Refit(m);
            && m' == m.(step := m'.step, controller := m'.controller) && m'.step.point == m.step.point
  {
    hide Updated;
  }

  lemma HeadTransitive(a: seq<PointGoal>, b: seq<PointGoal>, c: seq<PointGoal>, r: nat)
    requires SameButHead(b, c) && r <= |b| && SameButHead(a, b[r..])
    ensures r <= |c| && SameButHead(a, c[r..])
  {
  }

  /** One message. Points leave from the front only, and only for a reason. */
  lemma TickConserves(k: Maths, m: Motion, i: Input) returns (r: nat)
    requires FlowInv(m) && !m.events.run.discard && Harmless(m, Message(i))
    ensures r <= |Pipeline(m)| && SameButHead(Pipeline(Tick(k, m, i)), Pipeline(m)[r..])
    ensures FlowInv(Tick(k, m, i))
    ensures r > 0 ==> i.ok && Justified(k, Advance1(Prepare(m, i)), r)
  {
    var p := Prepare(m, i);
    TickInv(k, m, i);
    PrepareInv(m, i);
    PrepareConserves(m, i);
    r := 0;
    if i.ok {
      var e := Advance1(p);
      EnterInv(p);
      EntryConserves(p);
      hide Process, Prepare, Emit, Refit, Pipeline, EntryPipeline, Justified, Inv, Entered, SameButHead, StoredInv,
           StoredOnEntry;
      r := ProcessConserves(k, e);
      FinishConserves(k, Process(k, e));
      HeadTransitive(Pipeline(Tick(k, m, i)), Pipeline(p), Pipeline(m), r);
    } else {
      hide Prepare, Pipeline, SameButHead, Inv;
      assert Pipeline(m)[0..] == Pipeline(m);
    }
  }

  /** Only commands raise the discard flag. */
  lemma TickNeverDiscards(k: Maths, m: Motion, i: Input)
    ensures Tick(k, m, i).events.run.discard ==> m.events.run.discard
  {
    hide Process, Emit, Refit, Prepare, StoredInv, Pipeline;
    var e := Advance1(Prepare(m, i));
    PrepareEvents(m, i);
    ProcessEvents(k, e);
    FinishConserves(k, Process(k, e));
  }

  lemma CommandConserves(m: Motion, a: Action)
    requires FlowInv(m) && !m.events.run.discard && Harmless(m, a) && Accepted(m, a)
    ensures Pipeline(Command(m, a)) == Pipeline(m) + Added(m, a)
    ensures StoredInv(Command(m, a)) && !Command(m, a).events.run.discard
  {
    hide FittedInv;
    if a.AddTrajectory? {
      FlattenAppend(m.primary, [a.points]);
      FlattenOne(a.points);
    }
  }

  lemma RejectedConserves(k: Maths, m: Motion, a: Action)
    requires !a.Message? && !Accepted(m, a)
    ensures var m' := Do(k, m, a);
            Pipeline(m') == Pipeline(m) && StoredInv(m') == StoredInv(m) && m'.events == m.events
    ensures Added(m, a) == []
  {
    hide Tick, Command;
  }

  /** The number of points that leave the pipeline in a step. */
  function Leaving(k: Maths, m: Motion, a: Action): int { |Pipeline(m)| + |Added(m, a)| - |Pipeline(Do(k, m, a))| }

  /** Points leave with a regular message only, and only completed or already met ones. */
  ghost predicate Earned(k: Maths, m: Motion, a: Action) {
    var r := Leaving(k, m, a);
    r >= 0 && (r > 0 ==> a.Message? && a.input.ok && Justified(k, Advance1(Prepare(m, a.input)), r))
  }

  lemma DoConserves(k: Maths, m: Motion, a: Action) returns (r: nat)
    requires FlowInv(m) && !m.events.run.discard && Harmless(m, a)
    ensures r <= |Pipeline(m)| && SameButHead(Pipeline(Do(k, m, a)), Pipeline(m)[r..] + Added(m, a))
    ensures FlowInv(Do(k, m, a)) && !Do(k, m, a).events.run.discard
    ensures Earned(k, m, a)
  {
    hide Tick, Command, Inv, Pipeline, StoredInv, Justified, Prepare;
    r := 0;
    DoInv(k, m, a);
    if a.Message? {
      r := TickConserves(k, m, a.input);
      TickNeverDiscards(k, m, a.input);
      assert Pipeline(m)[r..] + [] == Pipeline(m)[r..];
    } else {
      assert Pipeline(m)[0..] == Pipeline(m);
      if Accepted(m, a) {
        CommandConserves(m, a);
      } else {
        RejectedConserves(k, m, a);
        assert Pipeline(m)[0..] + [] == Pipeline(m);
      }
      HeadReflexive(Pipeline(Do(k, m, a)));
    }
  }

  lemma HeadReflexive(a: seq<PointGoal>)
    ensures SameButHead(a, a)
  {
  }

  // ---------------------------------------------------------------- Whole runs

  predicate AllHarmless(k: Maths, m: Motion, acts: seq<Action>)
    decreases |acts|
  {
    acts == [] || (Harmless(m, acts[0]) && AllHarmless(k, Do(k, m, acts[0]), acts[1..]))
  }

  /** The points of all trajectories accepted in a run, in the order of acceptance. */
  function AddedIn(k: Maths, m: Motion, acts: seq<Action>): seq<PointGoal>
    decreases |acts|
  {
    if acts == [] then [] else Added(m, acts[0]) + AddedIn(k, Do(k, m, acts[0]), acts[1..])
  }

  ghost predicate AllEarned(k: Maths, m: Motion, acts: seq<Action>)
    decreases |acts|
  {
    acts == [] || (Earned(k, m, acts[0]) && AllEarned(k, Do(k, m, acts[0]), acts[1..]))
  }

  /** First in, first out, nothing lost: whatever mix of stops, resumes, duration factors, static
      goals, session restarts and rejected commands a run holds, what is left to do is what there
      was to do and what was accepted since, less a number of points taken from the front, each of
      them completed or already met when its turn came. */
  lemma {:induction false} RunConserves(k: Maths, m: Motion, acts: seq<Action>) returns (r: nat)
    requires FlowInv(m) && !m.events.run.discard && AllHarmless(k, m, acts)
    ensures r <= |Pipeline(m) + AddedIn(k, m, acts)|
    ensures SameButHead(Pipeline(Run(k, m, acts)), (Pipeline(m) + AddedIn(k, m, acts))[r..])
    ensures FlowInv(Run(k, m, acts)) && !Run(k, m, acts).events.run.discard
    ensures AllEarned(k, m, acts)
    decreases |acts|
  {
    hide Do, Inv, StoredInv, Pipeline, Harmless, Added, Earned;
    if acts == [] {
      r := 0;
      assert (Pipeline(m) + [])[0..] == Pipeline(m);
      HeadReflexive(Pipeline(m));
    } else {
      var m1 := Do(k, m, acts[0]);
      var r1 := DoConserves(k, m, acts[0]);
      var r2 := RunConserves(k, m1, acts[1..]);
      r := r1 + r2;
      Chain(Pipeline(Run(k, m, acts)), Pipeline(m1), Pipeline(m), Added(m, acts[0]), AddedIn(k, m1, acts[1..]), r1, r2);
      assert Pipeline(m) + Added(m, acts[0]) + AddedIn(k, m1, acts[1..]) == Pipeline(m) + AddedIn(k, m, acts);
    }
  }

  lemma Chain(p2: seq<PointGoal>, p1: seq<PointGoal>, p0: seq<PointGoal>, a: seq<PointGoal>, b: seq<PointGoal>,
              r1: nat, r2: nat)
    requires r1 <= |p0| && SameButHead(p1, p0[r1..] + a)
    requires r2 <= |p1 + b| && SameButHead(p2, (p1 + b)[r2..])
    ensures r1 + r2 <= |p0 + a + b| && SameButHead(p2, (p0 + a + b)[r1 + r2..])
  {
    assert |p1 + b| == |p0 + a + b| - r1;
    forall i | 1 <= i < |p1 + b| ensures (p1 + b)[i] == (p0 + a + b)[r1 + i] {
      if i < |p1| { assert p1[i] == (p0[r1..] + a)[i]; }
    }
    if |p2| > 0 {
      assert p2[0] == (p1 + b)[r2].(duration := p2[0].duration);
      if r2 == 0 && |p1| > 0 {
        assert p1[0] == (p0[r1..] + a)[0].(duration := p1[0].duration);
      }
    }
  }

  lemma InitialFlow(kind: SplineMethod, offset: int)
    ensures FlowInv(Initial(kind, offset)) && Pipeline(Initial(kind, offset)) == []
    ensures !Initial(kind, offset).events.run.discard
  {
    InitialInv(kind, offset);
  }

  /** From construction on: the work left is a suffix of all accepted points, exact but for the
      duration of an interrupted head. */
  lemma FirstInFirstOut(k: Maths, kind: SplineMethod, offset: int, acts: seq<Action>) returns (r: nat)
    requires AllHarmless(k, Initial(kind, offset), acts)
    ensures var accepted := AddedIn(k, Initial(kind, offset), acts);
            r <= |accepted| && SameButHead(Pipeline(Run(k, Initial(kind, offset), acts)), accepted[r..])
    ensures AllEarned(k, Initial(kind, offset), acts)
  {
    hide Run, Do, AddedIn, SameButHead, Pipeline, AllEarned;
    var m := Initial(kind, offset);
    InitialFlow(kind, offset);
    r := RunConserves(k, m, acts);
    assert Pipeline(m) + AddedIn(k, m, acts) == AddedIn(k, m, acts);
  }
}
