/** updateNormalGoal against a simple specification: which point becomes active. */
module Dispatching {
  import opened Numeric
  import opened Quaternions
  import opened Interpolation
  import opened Machine

  /** The step after points[0..j] have been prepared one after the other. Each goal is laid over the
      previous one, so the whole history matters. */
  function PreparedUpTo(k: Maths, s: MotionStep, points: Trajectory, last: bool, j: nat): MotionStep
    requires j < |points|
  {
    var before := if j == 0 then s else PreparedUpTo(k, s, points, last, j - 1);
    PrepareNormal(k, before.(point := points[j]), last)
  }

  /** What preparing goals never touches. */
  predicate SameMotion(s: MotionStep, s': MotionStep) {
    && s'.timePassed == s.timePassed && s'.sampleTime == s.sampleTime && s'.factor == s.factor
    && s'.feedback == s.feedback && s'.references == s.references && s'.interpolator == s.interpolator
    && s'.kind == s.kind
  }

  lemma {:induction false} PreparedUpToShift(k: Maths, s: MotionStep, points: Trajectory, last: bool, j: nat)
    requires 0 < j < |points|
    ensures PreparedUpTo(k, s, points, last, j)
         == PreparedUpTo(k, PreparedUpTo(k, s, points, last, 0), points[1..], last, j - 1)
  {
    hide PrepareNormal;
    if j > 1 { PreparedUpToShift(k, s, points, last, j - 1); }
  }

  /** The skip loop executes the first point, counted from the popped one, whose prepared goal the
      feedback does not already meet; if there is none it consumes them all. */
  lemma {:induction false} DispatchFinds(k: Maths, s: MotionStep, points: Trajectory, last: bool)
    returns (d: nat)
    requires points != [] && s.point == points[0]
    ensures d < |points|
    ensures var (s', rest, go) := Dispatch(k, s, points[1..], last);
            && s' == PreparedUpTo(k, s, points, last, d)
            && rest == points[d + 1..]
            && go == !ConditionMet(s')
            && (!go ==> rest == [])
    ensures forall j :: 0 <= j < d ==> ConditionMet(PreparedUpTo(k, s, points, last, j))
    decreases |points|
  {
    hide PrepareNormal, ConditionMet;
    var prepared := PrepareNormal(k, s, last);
    assert s.(point := points[0]) == s;
    assert prepared == PreparedUpTo(k, s, points, last, 0);
    if !ConditionMet(prepared) || |points| == 1 {
      d := 0;
    } else {
      var rest := points[1..];
      var next := prepared.(point := rest[0]);
      var d' := DispatchFinds(k, next, rest, last);
      d := d' + 1;
      forall j | 0 <= j < |rest|
        ensures PreparedUpTo(k, next, rest, last, j) == PreparedUpTo(k, s, points, last, j + 1)
      {
        PreparedUpToShift(k, s, points, last, j + 1);
        FirstPointOnly(k, prepared, rest, last, j);
      }
      forall j | 0 <= j < d
        ensures ConditionMet(PreparedUpTo(k, s, points, last, j))
      {
        if j > 0 { assert ConditionMet(PreparedUpTo(k, next, rest, last, j - 1)); }
      }
      assert rest[d' + 1..] == points[d + 1..];
    }
  }

  /** The point a step held before preparation does not matter. */
  lemma {:induction false} FirstPointOnly(k: Maths, s: MotionStep, points: Trajectory, last: bool, j: nat)
    requires j < |points|
    ensures PreparedUpTo(k, s.(point := points[0]), points, last, j) == PreparedUpTo(k, s, points, last, j)
  {
    hide PrepareNormal;
    if j > 0 { FirstPointOnly(k, s, points, last, j - 1); }
  }

  lemma PrepareNormalFacts(k: Maths, s: MotionStep, last: bool)
    ensures var s' := PrepareNormal(k, s, last);
            && SameMotion(s, s') && s'.point == s.point
            && s'.conditions.operation == NormalOp && s'.conditions.duration == s'.goal.duration
            && s'.conditions.mode == s'.mode == GoalMode(s'.point)
            && (s.point.duration.Some? ==> s'.goal.duration == s.factor * s.point.duration.value)
  {
    hide Transfer, EstimateDuration, AtRest;
  }

  lemma {:induction false} PreparedFacts(k: Maths, s: MotionStep, points: Trajectory, last: bool, j: nat)
    requires j < |points|
    ensures var s' := PreparedUpTo(k, s, points, last, j);
            && SameMotion(s, s') && s'.point == points[j]
            && s'.conditions.operation == NormalOp && s'.conditions.duration == s'.goal.duration
            && s'.conditions.mode == s'.mode == GoalMode(s'.point)
            && (points[j].duration.Some? ==> s'.goal.duration == s.factor * points[j].duration.value)
  {
    hide PrepareNormal;
    if j > 0 { PreparedFacts(k, s, points, last, j - 1); }
    var before := if j == 0 then s else PreparedUpTo(k, s, points, last, j - 1);
    PrepareNormalFacts(k, before.(point := points[j]), last);
  }

  /** The step for the j-th pending point of the current trajectory. */
  function Candidate(k: Maths, m: Motion, j: nat): MotionStep
    requires m.current.Some? && j < |m.current.value|
  {
    PreparedUpTo(k, m.step, m.current.value, |m.current.value| == 1, j)
  }

  /** updateNormalGoal makes the d-th pending point active. */
  ghost predicate Executes(k: Maths, m: Motion, m': Motion, d: nat) {
    && m.current.Some? && d < |m.current.value| && m'.current == Some(m.current.value[d + 1..])
    && m'.step == Candidate(k, m, d)
    && !(m.current.value[0].reach && ConditionMet(m'.step))
    && (d > 0 ==> m.current.value[0].reach)
    && forall j: nat :: j < d ==> ConditionMet(Candidate(k, m, j))
  }

  /** Nothing can become active: there is no point, or every one is already met. */
  ghost predicate Exhausted(k: Maths, m: Motion) {
    || m.current.None?
    || m.current.value == []
    || (m.current.value[0].reach && forall j: nat :: j < |m.current.value| ==> ConditionMet(Candidate(k, m, j)))
  }

  /** The refinement: exactly one of two outcomes. Either the first point not already met (or simply
      the first, if it is not marked reach) is active and new, or nothing is, and then the trajectory
      is dropped. Everything else is left alone. */
  lemma UpdateNormalGoalRefines(k: Maths, m: Motion) returns (d: nat)
    ensures var m' := UpdateNormalGoal(k, m);
            && m' == m.(step := m'.step, current := m'.current, hasNew := m'.hasNew, hasActive := m'.hasActive)
            && m'.hasNew == m'.hasActive == m'.current.Some?
            && SameMotion(m.step, m'.step)
            && (m'.hasActive ==> Executes(k, m, m', d))
            && (m'.hasActive <==> !Exhausted(k, m))
    ensures m.current.Some? && m.current.value != [] ==>
              d < |m.current.value| && UpdateNormalGoal(k, m).step == Candidate(k, m, d)
    ensures m.current.None? || m.current.value == [] ==> UpdateNormalGoal(k, m).step == m.step
    ensures var s := UpdateNormalGoal(k, m).step;
            UpdateNormalGoal(k, m).hasActive ==>
              && s.point == m.current.value[d]
              && s.conditions.operation == NormalOp && s.conditions.duration == s.goal.duration
              && s.conditions.mode == s.mode
              && (s.point.duration.Some? ==> s.goal.duration == m.step.factor * s.point.duration.value)
  {
    hide PrepareNormal, ConditionMet;
    d := 0;
    if m.current.Some? && m.current.value != [] {
      var points := m.current.value;
      var last := points[1..] == [];
      assert last == (|points| == 1);
      var s := m.step.(point := points[0]);
      if points[0].reach {
        d := DispatchFinds(k, s, points, last);
        forall j: nat | j < |points|
          ensures PreparedUpTo(k, s, points, last, j) == Candidate(k, m, j)
        {
          FirstPointOnly(k, m.step, points, last, j);
        }
        if UpdateNormalGoal(k, m).hasActive {
          assert !ConditionMet(Candidate(k, m, d));
        }
      } else {
        FirstPointOnly(k, m.step, points, last, 0);
      }
      PreparedFacts(k, m.step, points, last, d);
    }
  }

  /** What updateNormalGoal may change, and how the goal flags come out. */
  lemma UpdateNormalGoalFrame(k: Maths, m: Motion)
    ensures var m' := UpdateNormalGoal(k, m);
            && m' == m.(step := m'.step, current := m'.current, hasNew := m'.hasNew, hasActive := m'.hasActive)
            && m'.hasNew == m'.hasActive == m'.current.Some?
            && SameMotion(m.step, m'.step)
            && (m'.hasActive ==> m'.step.conditions.operation == NormalOp)
  {
    var d := UpdateNormalGoalRefines(k, m);
  }

  /** A point flagged as the last of its trajectory really is the last. */
  lemma LastFlagIsSound(k: Maths, m: Motion)
    requires UpdateNormalGoal(k, m).hasActive && |m.current.value| == 1
    ensures UpdateNormalGoal(k, m).current == Some([])
  {
    var d := UpdateNormalGoalRefines(k, m);
  }
}
