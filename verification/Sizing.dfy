/** Vector lengths. The source indexes goals by the lengths of the references, so these must never
    be longer than what they are indexed with. */
module Sizing {
  import opened Numeric
  import opened Quaternions
  import opened Splines
  import opened Messages
  import opened Interpolation
  import opened Machine
  import opened Dispatching
  import opened Soundness
  import opened Stopping

  predicate Wide(j: JointGoal, n: nat) { |j.position| >= n && |j.velocity| >= n && |j.acceleration| >= n }

  /** Goal and feedback have a value for every joint of the references, the goal exactly one position. */
  predicate Sized(s: MotionStep) {
    var r, e := |s.references.joints.position|, |s.references.external.position|;
    && Shaped(s.references) && Wide(s.goal.joints, r) && Wide(s.goal.external, e)
    && |s.goal.joints.position| == r && |s.goal.external.position| == e
    && |s.feedback.joints.position| >= r && |s.feedback.external.position| >= e
  }

  /** A message that fits: any number of joints the spline array can hold when a session starts, and
      from then on no fewer. */
  predicate Acceptable(m: Motion, i: Input) {
    && i.sampleTime >= LOWEST_SAMPLE_TIME
    && |i.feedback.joints.position| + |i.feedback.external.position| <= SPLINES
    && (!i.first ==>
          && |i.feedback.joints.position| >= |m.step.references.joints.position|
          && |i.feedback.external.position| >= |m.step.references.external.position|)
  }

  lemma PrepareNormalSized(k: Maths, s: MotionStep, last: bool)
    requires Sized(s)
    ensures Sized(PrepareNormal(k, s, last))
  {
    hide EstimateDuration, OverlayVec, OverlayPose;
  }

  lemma {:induction false} PreparedSized(k: Maths, s: MotionStep, points: Trajectory, last: bool, j: nat)
    requires Sized(s) && j < |points|
    ensures Sized(PreparedUpTo(k, s, points, last, j))
  {
    hide PrepareNormal;
    if j > 0 { PreparedSized(k, s, points, last, j - 1); }
    var before := if j == 0 then s else PreparedUpTo(k, s, points, last, j - 1);
    PrepareNormalSized(k, before.(point := points[j]), last);
  }

  lemma UpdateNormalGoalSized(k: Maths, m: Motion)
    requires Sized(m.step)
    ensures Sized(UpdateNormalGoal(k, m).step)
  {
    var d := UpdateNormalGoalRefines(k, m);
    hide UpdateNormalGoal, Sized, Exhausted, PreparedUpTo;
    if m.current.Some? && m.current.value != [] {
      PreparedSized(k, m.step, m.current.value, |m.current.value| == 1, d);
    }
  }

  lemma ProcessSized(k: Maths, m: Motion)
    requires Sized(m.step)
    ensures Sized(Process(k, m).step)
  {
    hide ProcessNormal, ProcessRampDown, ProcessStatic, Sized;
    match m.sm.current.state
    case Normal => NormalSized(k, m);
    case RampDown => RampDownSized(k, m);
    case StaticGoal => StaticSized(k, m);
  }

  lemma NormalSized(k: Maths, m: Motion)
    requires Sized(m.step)
    ensures Sized(ProcessNormal(k, m).step)
  {
    hide UpdateNormalGoal, ConditionMet, SetPending, Sized;
    UpdateNormalGoalSized(k, m);
    if m.primary != [] { UpdateNormalGoalSized(k, m.(current := Some(m.primary[0]), primary := m.primary[1..])); }
  }

  lemma RampDownSized(k: Maths, m: Motion)
    requires Sized(m.step)
    ensures Sized(ProcessRampDown(k, m).step)
  {
    hide BeginRampDown, EndRampDown, SetPending, Sized;
    match m.sm.current.sub
    case NoSub => BeginSized(m);
    case Running =>
    case Finished => FactorSized(m); EndSized(k, ApplyDiscard(ApplyFactor(m)));
  }

  lemma BeginSized(m: Motion)
    requires Sized(m.step)
    ensures Sized(BeginRampDown(m).step)
  {
    var s := BeginRampDown(m).step;
    assert s.references == m.step.references && s.goal == m.step.goal && s.feedback == m.step.feedback;
    hide BeginRampDown;
  }

  lemma FactorSized(m: Motion)
    requires Sized(m.step)
    ensures Sized(ApplyDiscard(ApplyFactor(m)).step)
  {
  }

  lemma EndSized(k: Maths, m: Motion)
    requires Sized(m.step)
    ensures Sized(EndRampDown(k, m).step)
  {
    hide UpdateNormalGoal, SetPending, Sized, Released;
    UpdateNormalGoalSized(k, m.(events := m.events.(run := Released(m.events.run))));
  }

  lemma StaticSized(k: Maths, m: Motion)
    requires Sized(m.step)
    ensures Sized(ProcessStatic(k, m).step)
  {
    StaticGoalSized(k, m.step, m.events);
    hide SetPending, PreparePosition, PrepareVelocity, Sized;
  }

  lemma StaticGoalSized(k: Maths, s: MotionStep, e: Events)
    requires Sized(s)
    ensures Sized(PreparePosition(k, s, e.positionGoal, e.still.fast))
    ensures Sized(PrepareVelocity(s, e.velocityGoal, e.still.fast))
  {
    hide OverlayVec, OverlayPose;
  }

  lemma PrepareSized(m: Motion, i: Input)
    requires Sized(m.step) && Acceptable(m, i)
    ensures Sized(Prepare(m, i).step)
  {
    PreparedForms(m, i);
    hide Prepare;
  }

  /** Either the step goes on, or goal and references are the feedback. */
  lemma PreparedForms(m: Motion, i: Input)
    ensures var s := Prepare(m, i).step;
            && s.feedback == i.feedback
            && ((!i.first && s.goal == m.step.goal && s.references == m.step.references)
                || (s.goal == s.references == FromFeedback(i.feedback)))
  {
    hide Remainder, FromFeedback;
  }

  lemma FinishSized(k: Maths, p: Motion)
    requires Sized(p.step)
    ensures Sized(Refit(p).step) && Sized(Emit(k, Refit(p)).step)
  {
    RefitSized(p);
    hide Refit, Emit;
    EmitShaped(k, Refit(p));
    EmitFrame(k, Refit(p));
  }

  lemma RefitSized(p: Motion)
    requires Sized(p.step)
    ensures Sized(Refit(p).step)
  {
    hide Updated;
  }

  lemma TickSized(k: Maths, m: Motion, i: Input)
    requires Sized(m.step) && Acceptable(m, i)
    ensures Sized(Tick(k, m, i).step)
  {
    hide Process, Emit, Refit, Prepare, Sized;
    PrepareSized(m, i);
    if i.ok {
      ProcessSized(k, Advance1(Prepare(m, i)));
      FinishSized(k, Process(k, Advance1(Prepare(m, i))));
    }
  }

  // ---------------------------------------------------------------- Whole runs

  predicate AllAcceptable(k: Maths, m: Motion, acts: seq<Action>)
    decreases |acts|
  {
    acts == [] ||
    ((acts[0].Message? ==> Acceptable(m, acts[0].input)) && AllAcceptable(k, Do(k, m, acts[0]), acts[1..]))
  }

  /** In every run in which each session keeps its number of joints, lengths always match: no goal is
      read past its end, and the references keep the shape the stop guarantee relies on. */
  lemma {:induction false} RunSized(k: Maths, m: Motion, acts: seq<Action>)
    requires Sized(m.step) && AllAcceptable(k, m, acts)
    ensures Sized(Run(k, m, acts).step) && Shaped(Run(k, m, acts).step.references)
    decreases |acts|
  {
    if acts != [] {
      DoSized(k, m, acts[0]);
      hide Do, Sized, Acceptable;
      RunSized(k, Do(k, m, acts[0]), acts[1..]);
    }
  }

  lemma DoSized(k: Maths, m: Motion, a: Action)
    requires Sized(m.step) && (a.Message? ==> Acceptable(m, a.input))
    ensures Sized(Do(k, m, a).step)
  {
    hide Tick;
    if a.Message? { TickSized(k, m, a.input); }
  }

  lemma InitialSized(kind: SplineMethod, offset: int)
    ensures Sized(Initial(kind, offset).step)
  {
  }
}
