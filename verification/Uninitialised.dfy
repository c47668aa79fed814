/** The interpolator's offset is never initialised by its constructor. Nothing the machine does can
    depend on the value it happens to start with. */
module Uninitialised {
  import opened Numeric
  import opened Quaternions
  import opened Splines
  import opened Messages
  import opened Interpolation
  import opened Machine
  import opened Soundness
  import opened References

  function StepWith(s: MotionStep, o: int): MotionStep { s.(interpolator := s.interpolator.(offset := o)) }

  /** The same machine with another offset. */
  function With(m: Motion, o: int): Motion { m.(step := StepWith(m.step, o)) }

  lemma PrepareNormalWith(k: Maths, s: MotionStep, last: bool, o: int)
    ensures PrepareNormal(k, StepWith(s, o), last) == StepWith(PrepareNormal(k, s, last), o)
    ensures ConditionMet(StepWith(s, o)) == ConditionMet(s)
  {
    hide Transfer, AtRest, EstimateDuration, AllClose;
  }

  lemma {:induction false} DispatchWith(k: Maths, s: MotionStep, rest: Trajectory, last: bool, o: int)
    ensures var (s', r, go) := Dispatch(k, s, rest, last);
            Dispatch(k, StepWith(s, o), rest, last) == (StepWith(s', o), r, go)
    decreases |rest|
  {
    hide PrepareNormal, ConditionMet;
    PrepareNormalWith(k, s, last, o);
    var prepared := PrepareNormal(k, s, last);
    PrepareNormalWith(k, prepared, last, o);
    if ConditionMet(prepared) && rest != [] {
      DispatchWith(k, prepared.(point := rest[0]), rest[1..], last, o);
      assert StepWith(prepared, o).(point := rest[0]) == StepWith(prepared.(point := rest[0]), o);
    }
  }

  lemma UpdateNormalGoalWith(k: Maths, m: Motion, o: int)
    ensures UpdateNormalGoal(k, With(m, o)) == With(UpdateNormalGoal(k, m), o)
  {
    hide PrepareNormal, ConditionMet, Dispatch;
    if m.current.Some? && m.current.value != [] {
      var points := m.current.value;
      var s := m.step.(point := points[0]);
      assert StepWith(m.step, o).(point := points[0]) == StepWith(s, o);
      DispatchWith(k, s, points[1..], points[1..] == [], o);
      PrepareNormalWith(k, s, points[1..] == [], o);
    }
  }

  lemma ProcessWith(k: Maths, m: Motion, o: int)
    ensures Process(k, With(m, o)) == With(Process(k, m), o)
  {
    hide ProcessNormal, ProcessRampDown, ProcessStatic;
    NormalWith(k, m, o);
    RampDownWith(k, m, o);
    StaticWith(k, m, o);
  }

  lemma NormalWith(k: Maths, m: Motion, o: int)
    ensures ProcessNormal(k, With(m, o)) == With(ProcessNormal(k, m), o)
  {
    hide UpdateNormalGoal, ConditionMet, SetPending, PrepareNormal;
    PrepareNormalWith(k, m.step, false, o);
    UpdateNormalGoalWith(k, m, o);
    if m.primary != [] {
      var src := m.(current := Some(m.primary[0]), primary := m.primary[1..]);
      UpdateNormalGoalWith(k, src, o);
      assert With(m, o).(current := Some(m.primary[0]), primary := m.primary[1..]) == With(src, o);
    }
  }

  lemma RampDownWith(k: Maths, m: Motion, o: int)
    ensures ProcessRampDown(k, With(m, o)) == With(ProcessRampDown(k, m), o)
  {
    hide EndRampDown, SetPending;
    match m.sm.current.sub
    case NoSub =>
    case Running =>
    case Finished =>
      var d := ApplyDiscard(ApplyFactor(m));
      assert ApplyDiscard(ApplyFactor(With(m, o))) == With(d, o);
      EndWith(k, d, o);
  }

  lemma EndWith(k: Maths, m: Motion, o: int)
    ensures EndRampDown(k, With(m, o)) == With(EndRampDown(k, m), o)
  {
    hide UpdateNormalGoal, SetPending, Released;
    var src := m.(events := m.events.(run := Released(m.events.run)));
    assert With(m, o).(events := m.events.(run := Released(m.events.run))) == With(src, o);
    UpdateNormalGoalWith(k, src, o);
  }

  lemma StaticWith(k: Maths, m: Motion, o: int)
    ensures ProcessStatic(k, With(m, o)) == With(ProcessStatic(k, m), o)
  {
    hide SetPending, ApplyStatic;
    match m.sm.current.sub
    case NoSub =>
    case Running => ApplyStaticWith(k, m, o);
    case Finished =>
  }

  lemma ApplyStaticWith(k: Maths, m: Motion, o: int)
    ensures ApplyStatic(k, With(m, o)) == With(ApplyStatic(k, m), o)
    ensures ApplyStatic(k, m).sm == m.sm
  {
    hide PreparePosition, PrepareVelocity;
    StaticPrepareWith(k, m, o);
  }

  lemma StaticPrepareWith(k: Maths, m: Motion, o: int)
    ensures var e := m.events;
            && PreparePosition(k, StepWith(m.step, o), e.positionGoal, e.still.fast)
               == StepWith(PreparePosition(k, m.step, e.positionGoal, e.still.fast), o)
            && PrepareVelocity(StepWith(m.step, o), e.velocityGoal, e.still.fast)
               == StepWith(PrepareVelocity(m.step, e.velocityGoal, e.still.fast), o)
  {
    hide Overlay, OverlayVec, OverlayPose;
  }

  lemma PrepareWith(m: Motion, i: Input, o: int)
    ensures Prepare(With(m, o), i) == With(Prepare(m, i), o)
  {
    hide ResetMotion;
    var received := Receive(m, i);
    assert Receive(With(m, o), i) == With(received, o);
    ResetWith(received, o);
    var begun := if i.first then ResetMotion(received) else received;
    ResetWith(begun, o);
  }

  lemma ResetWith(m: Motion, o: int)
    ensures ResetMotion(With(m, o)) == With(ResetMotion(m), o)
  {
    hide FromFeedback;
  }

  /** The offset matters to nobody unless a spline goal is active. */
  predicate Agree(m: Motion, n: Motion) {
    && n == With(m, n.step.interpolator.offset)
    && (m.hasActive && UsesSplines(m.step.conditions.operation) ==> m == n)
  }

  lemma RefitAgrees(m: Motion, o: int)
    requires Processed(m) && (!m.hasNew ==> Agree(m, With(m, o)))
    ensures Agree(Refit(m), Refit(With(m, o)))
  {
    hide Slot, FittedInv;
  }

  lemma EmitAgrees(k: Maths, m: Motion, n: Motion)
    requires Inv(m) && Agree(m, n)
    ensures Agree(Emit(k, m), Emit(k, n))
  {
    hide FadedReferences, FollowedOutputs, SplineJoints, SplineCartesian, RampJoints, RampCartesian, Oriented;
    FadeWith(k, m.controller, m.outputs, EvaluateInterpolator(k, m.step), n.step.interpolator.offset);
  }

  lemma FadeWith(k: Maths, c: Controller, out: Output, s: MotionStep, o: int)
    ensures FadedReferences(k, c, out, StepWith(s, o)) == FadedReferences(k, c, out, s)
  {
    hide FadedJoints, Faded3, Scaled;
  }

  lemma TickAgrees(k: Maths, m: Motion, n: Motion, i: Input)
    requires Inv(m) && Agree(m, n)
    ensures Agree(Tick(k, m, i), Tick(k, n, i))
  {
    hide Process, Emit, Refit, Prepare, Inv, Processed;
    var o := n.step.interpolator.offset;
    var p := Prepare(m, i);
    PrepareWith(m, i, o);
    PrepareInv(m, i);
    PrepareAgrees(m, i, n);
    if i.ok {
      var e := Advance1(p);
      EnterInv(p);
      ProcessInv(k, e);
      assert Advance1(With(p, o)) == With(e, o);
      ProcessWith(k, e, o);
      ProcessAgrees(k, e, o);
      RefitInv(Process(k, e));
      RefitAgrees(Process(k, e), o);
      EmitAgrees(k, Refit(Process(k, e)), Refit(With(Process(k, e), o)));
    }
  }

  lemma PrepareAgrees(m: Motion, i: Input, n: Motion)
    requires Agree(m, n)
    ensures Agree(Prepare(m, i), With(Prepare(m, i), n.step.interpolator.offset))
  {
    PrepareWith(m, i, n.step.interpolator.offset);
    hide FromFeedback, Remainder;
  }

  /** A goal that stays active through processing without being new was active before, with the same
      conditions. */
  lemma ProcessAgrees(k: Maths, e: Motion, o: int)
    requires Agree(e, With(e, o)) && Entered(e)
    ensures var p := Process(k, e); !p.hasNew ==> Agree(p, With(p, o))
  {
    ProcessMovesNothing(k, e);
    ProcessKeepsGoals(k, e);
    hide Process, Entered;
  }

  lemma DoAgrees(k: Maths, m: Motion, n: Motion, a: Action)
    requires Inv(m) && Agree(m, n)
    ensures Agree(Do(k, m, a), Do(k, n, a))
  {
    hide Tick, Inv;
    if a.Message? { TickAgrees(k, m, n, a.input); }
  }

  lemma {:induction false} RunAgrees(k: Maths, m: Motion, n: Motion, acts: seq<Action>)
    requires Inv(m) && Agree(m, n)
    ensures Agree(Run(k, m, acts), Run(k, n, acts))
    decreases |acts|
  {
    hide Do, Inv, Agree;
    if acts != [] {
      DoAgrees(k, m, n, acts[0]);
      DoInv(k, m, acts[0]);
      RunAgrees(k, Do(k, m, acts[0]), Do(k, n, acts[0]), acts[1..]);
    }
  }

  /** Two machines constructed over different memory behave alike: same state, same work, same
      references, same outputs, in every run. */
  lemma OffsetIsNeverObserved(k: Maths, kind: SplineMethod, o1: int, o2: int, acts: seq<Action>)
    ensures var m, n := Run(k, Initial(kind, o1), acts), Run(k, Initial(kind, o2), acts);
            && n == With(m, n.step.interpolator.offset)
            && n.outputs == m.outputs && n.step.references == m.step.references && n.sm == m.sm
               && n.current == m.current
  {
    InitialInv(kind, o1);
    var m := Initial(kind, o1);
    assert Agree(m, Initial(kind, o2));
    hide Run, Initial;
    RunAgrees(k, m, Initial(kind, o2), acts);
  }
}
