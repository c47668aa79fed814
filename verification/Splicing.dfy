/** From goal to polynomial to reference: every axis follows its own fit, ends at its goal and starts
    where the last reference left off. */
module Splicing {
  import opened Numeric
  import opened Quaternions
  import opened Splines
  import opened Messages
  import opened Interpolation
  import opened Machine
  import opened Soundness
  import opened Stopping

  /** The goal gives a value for every axis of the start. */
  predicate Covers(goal: Reference, start: Reference) {
    && Shaped(start)
    && |goal.joints.position| == |start.joints.position| && ShapedJoints(goal.joints)
    && |goal.external.position| == |start.external.position| && ShapedJoints(goal.external)
  }

  /** An output with room for the axes of the start. */
  predicate SameAxes(out: Reference, start: Reference) {
    && Shaped(out) && |out.joints.position| == |start.joints.position|
    && |out.external.position| == |start.external.position|
  }

  /** Joint j follows the fit of its own boundary conditions. */
  predicate FollowsJoints(j: JointGoal, c: Conditions, start: JointGoal, goal: JointGoal, t: real) {
    && (forall i :: 0 <= i < |j.position| ==> j.position[i] == AxisFit(c, JointBoundary(start, goal, i)).Position(t))
    && (forall i :: 0 <= i < |j.velocity| ==> j.velocity[i] == AxisFit(c, JointBoundary(start, goal, i)).Velocity(t))
    && (forall i :: 0 <= i < |j.acceleration| ==>
          j.acceleration[i] == AxisFit(c, JointBoundary(start, goal, i)).Acceleration(t))
  }

  predicate FollowsAxes(r: Reference, c: Conditions, start: Reference, goal: Reference, t: real) {
    forall a: nat :: a < 3 ==>
      && Component(r.position, a) == AxisFit(c, CartesianBoundary(start, goal, a)).Position(t)
      && Component(r.linear, a) == AxisFit(c, CartesianBoundary(start, goal, a)).Velocity(t)
      && Component(r.acceleration, a) == AxisFit(c, CartesianBoundary(start, goal, a)).Acceleration(t)
  }

  /** No slot is shared: each robot joint, external joint and Cartesian axis is evaluated, at every
      time, from the polynomial fitted to it. In pose mode the external joints must start above
      the three axes. */
  lemma OwnSlots(k: Maths, ip: Interpolator, start: Reference, goal: Reference, c: Conditions, out: Reference,
                 dt: real, time: real)
    requires |ip.splines| == SPLINES && Shaped(start) && SameAxes(out, start) && UsesSplines(c.operation)
    requires c.mode.PoseMode? && |start.external.position| > 0 ==> |start.joints.position| >= 3
    ensures var t := Saturate(time, 0.0, Clamped(c).duration);
            var r := Evaluated(k, Updated(ip, start, goal, c), out, dt, time);
            && FollowsJoints(r.external, c, start.external, goal.external, t)
            && (c.mode.JointMode? ==> FollowsJoints(r.joints, c, start.joints, goal.joints, t))
            && (c.mode.PoseMode? ==> FollowsAxes(r, c, start, goal, t))
  {
    hide AxisFit, Polynomial.Position, Polynomial.Velocity, Polynomial.Acceleration;
    var ip' := Updated(ip, start, goal, c);
    var t := Saturate(time, 0.0, Clamped(c).duration);
    var robot := |start.joints.position|;
    JointSlots(ip'.splines, robot, out.external, c, start.external, goal.external, t);
    if c.mode.JointMode? {
      JointSlots(ip'.splines, 0, out.joints, c, start.joints, goal.joints, t);
    } else {
      assert PolynomialAt(ip'.splines, 0) == AxisFit(c, CartesianBoundary(start, goal, 0));
      assert PolynomialAt(ip'.splines, 1) == AxisFit(c, CartesianBoundary(start, goal, 1));
      assert PolynomialAt(ip'.splines, 2) == AxisFit(c, CartesianBoundary(start, goal, 2));
      OrientedKeepsAxes(k, ip', SplineCartesian(ip'.splines, out, t), dt, t);
      hide Oriented;
    }
  }

  lemma OrientedKeepsAxes(k: Maths, ip: Interpolator, out: Reference, dt: real, t: real)
    requires UsesSplines(ip.conditions.operation)
    requires ip.conditions.operation.RampDownOp? ==> ip.ramp.operation.RampDownOp?
    ensures var r := Oriented(k, ip, out, dt, t);
            r == out.(quaternion := r.quaternion, angular := r.angular)
  {
  }

  lemma JointSlots(splines: seq<Polynomial>, base: int, j: JointGoal, c: Conditions, start: JointGoal, goal: JointGoal,
                   t: real)
    requires |j.position| <= |splines| && ShapedJoints(j)
    requires forall s :: base <= s < base + |j.position| ==>
               PolynomialAt(splines, s) == AxisFit(c, JointBoundary(start, goal, s - base))
    ensures FollowsJoints(SplineJoints(splines, base, j, t), c, start, goal, t)
  {
    hide AxisFit, Polynomial.Position, Polynomial.Velocity, Polynomial.Acceleration;
    forall i | 0 <= i < |j.position|
      ensures PolynomialAt(splines, base + i) == AxisFit(c, JointBoundary(start, goal, i))
    {
      var s := base + i;
      assert PolynomialAt(splines, s) == AxisFit(c, JointBoundary(start, goal, s - base));
    }
  }

  /** The condition is needed: with fewer robot joints, the first external joint takes the slot of a
      Cartesian axis, which is then driven by that joint's polynomial. */
  lemma SlotClash(ip: Interpolator, start: Reference, goal: Reference, c: Conditions)
    requires |ip.splines| == SPLINES && UsesSplines(c.operation) && c.mode.PoseMode?
    ensures |start.joints.position| < 3 && |start.external.position| > 0 ==>
              PolynomialAt(Updated(ip, start, goal, c).splines, |start.joints.position|)
              == AxisFit(c, JointBoundary(start.external, goal.external, 0))
    ensures |start.joints.position| >= 3 || |start.external.position| == 0 ==>
              forall a: nat :: a < 3 ==>
                PolynomialAt(Updated(ip, start, goal, c).splines, a) == AxisFit(c, CartesianBoundary(start, goal, a))
  {
    hide AxisFit;
  }

  // ---------------------------------------------------------------- Ends

  lemma AxisEnd(c: Conditions, s: Boundary)
    requires c.operation == NormalOp
    ensures var p, T := AxisFit(c, s), Clamped(c).duration;
            && p.Position(T) == s.beta
            && (c.kind.Cubic? || c.kind.Quintic? ==> p.Velocity(T) == s.dBeta)
            && (c.kind.Quintic? ==> p.Acceleration(T) == s.ddBeta)
  {
    FitEnd(c.kind, s, Clamped(c).duration);
    hide Fit, Polynomial.Position, Polynomial.Velocity, Polynomial.Acceleration;
  }

  predicate EndsAt(j: JointGoal, goal: JointGoal, kind: SplineMethod) {
    && j.position == goal.position
    && (kind.Cubic? || kind.Quintic? ==> j.velocity == goal.velocity)
    && (kind.Quintic? ==> j.acceleration == goal.acceleration)
  }

  lemma JointsEnd(j: JointGoal, c: Conditions, start: JointGoal, goal: JointGoal)
    requires c.operation == NormalOp && ShapedJoints(j) && ShapedJoints(goal) && |goal.position| == |j.position|
    requires FollowsJoints(j, c, start, goal, Clamped(c).duration)
    ensures EndsAt(j, goal, c.kind)
  {
    hide AxisFit, Polynomial.Position, Polynomial.Velocity, Polynomial.Acceleration;
    forall i | 0 <= i < |j.position|
      ensures && j.position[i] == goal.position[i]
              && (c.kind.Cubic? || c.kind.Quintic? ==> j.velocity[i] == goal.velocity[i])
              && (c.kind.Quintic? ==> j.acceleration[i] == goal.acceleration[i])
    {
      AxisEnd(c, JointBoundary(start, goal, i));
    }
  }

  /** End to end: from its duration on, a normal goal is met exactly, in position for every method, in
      velocity for Cubic and Quintic, in acceleration for Quintic. */
  lemma GoalIsMet(k: Maths, ip: Interpolator, start: Reference, goal: Reference, c: Conditions, out: Reference,
                  dt: real, time: real)
    requires |ip.splines| == SPLINES && Covers(goal, start) && SameAxes(out, start) && c.operation == NormalOp
    requires c.mode.PoseMode? && |start.external.position| > 0 ==> |start.joints.position| >= 3
    requires time >= Clamped(c).duration
    ensures var r := Evaluated(k, Updated(ip, start, goal, c), out, dt, time);
            && EndsAt(r.external, goal.external, c.kind)
            && (c.mode.JointMode? ==> EndsAt(r.joints, goal.joints, c.kind))
            && (c.mode.PoseMode? ==>
                  && r.position == goal.position
                  && (c.kind.Cubic? || c.kind.Quintic? ==> r.linear == goal.linear)
                  && (c.kind.Quintic? ==> r.acceleration == goal.acceleration))
  {
    hide AxisFit, Polynomial.Position, Polynomial.Velocity, Polynomial.Acceleration, Updated, Evaluated,
         FollowsJoints;
    var ip' := Updated(ip, start, goal, c);
    var r := Evaluated(k, ip', out, dt, time);
    OwnSlots(k, ip, start, goal, c, out, dt, time);
    EvaluatedLengths(k, ip', out, dt, time);
    JointsEnd(r.external, c, start.external, goal.external);
    if c.mode.JointMode? {
      JointsEnd(r.joints, c, start.joints, goal.joints);
    } else {
      AxisEnd(c, CartesianBoundary(start, goal, 0));
      AxisEnd(c, CartesianBoundary(start, goal, 1));
      AxisEnd(c, CartesianBoundary(start, goal, 2));
      AxesEnd(r, c, start, goal);
    }
  }

  lemma AxesEnd(r: Reference, c: Conditions, start: Reference, goal: Reference)
    requires FollowsAxes(r, c, start, goal, Clamped(c).duration) && c.operation == NormalOp
    ensures r.position == goal.position
    ensures c.kind.Cubic? || c.kind.Quintic? ==> r.linear == goal.linear
    ensures c.kind.Quintic? ==> r.acceleration == goal.acceleration
  {
    hide AxisFit, Polynomial.Position, Polynomial.Velocity, Polynomial.Acceleration;
    AxisEnd(c, CartesianBoundary(start, goal, 0));
    AxisEnd(c, CartesianBoundary(start, goal, 1));
    AxisEnd(c, CartesianBoundary(start, goal, 2));
    assert Component(r.position, 0) == Component(goal.position, 0);
    assert Component(r.position, 1) == Component(goal.position, 1);
    assert Component(r.position, 2) == Component(goal.position, 2);
  }

  // ---------------------------------------------------------------- Starts

  lemma AxisStart(c: Conditions, s: Boundary)
    requires UsesSplines(c.operation)
    ensures var p := AxisFit(c, s);
            && p.Position(0.0) == s.alfa
            && (c.operation.RampDownOp? || !c.kind.Linear? ==> p.Velocity(0.0) == s.dAlfa)
            && (c.operation.NormalOp? && c.kind.Quintic? ==> p.Acceleration(0.0) == s.ddAlfa)
  {
    var T := Max(LOWEST_SAMPLE_TIME, c.duration);
    FitStart(c.kind, s, T);
    RampDownStart(s, T, c.rampDownFactor);
    hide Fit, RampDownFit, Polynomial.Position, Polynomial.Velocity, Polynomial.Acceleration;
  }

  /** The polynomials from slot `base` on start at the references j. */
  predicate StartsAt(splines: seq<Polynomial>, base: int, j: JointGoal, c: Conditions) {
    forall i :: 0 <= i < |j.position| ==> StartsSlot(splines, base, j, c, i)
  }

  predicate StartsSlot(splines: seq<Polynomial>, base: int, j: JointGoal, c: Conditions, i: nat) {
    var p := PolynomialAt(splines, base + i);
    && p.Position(0.0) == At(j.position, i)
    && (c.operation.RampDownOp? || !c.kind.Linear? ==> p.Velocity(0.0) == At(j.velocity, i))
    && (c.operation.NormalOp? && c.kind.Quintic? ==> p.Acceleration(0.0) == At(j.acceleration, i))
  }

  lemma UpdatedStarts(ip: Interpolator, start: Reference, goal: Reference, c: Conditions)
    requires |ip.splines| == SPLINES && Shaped(start) && UsesSplines(c.operation) && c.mode.JointMode?
    ensures var ip' := Updated(ip, start, goal, c);
            StartsAt(ip'.splines, 0, start.joints, c) && StartsAt(ip'.splines, ip'.offset, start.external, c)
  {
    hide AxisFit, Polynomial.Position, Polynomial.Velocity, Polynomial.Acceleration;
    var ip' := Updated(ip, start, goal, c);
    forall i | 0 <= i < |start.joints.position|
      ensures StartsSlot(ip'.splines, 0, start.joints, c, i)
    {
      AxisStart(c, JointBoundary(start.joints, goal.joints, i));
    }
    forall i | 0 <= i < |start.external.position|
      ensures StartsSlot(ip'.splines, ip'.offset, start.external, c, i)
    {
      AxisStart(c, JointBoundary(start.external, goal.external, i));
    }
  }

  /** In every run, whenever a message fits new polynomials in joint mode they start at the references
      the previous message left, after the controller's fading: in position always, in velocity
      but for Linear, in acceleration for Quintic. */
  lemma SpliceIsContinuous(k: Maths, m: Motion, i: Input)
    requires Inv(m) && Shaped(m.step.references) && i.ok && !i.first
    ensures var p := Process(k, Advance1(Prepare(m, i)));
            var s := Refit(p).step;
            p.hasNew && UsesSplines(p.step.conditions.operation) && p.step.conditions.mode.JointMode? ==>
              && StartsAt(s.interpolator.splines, 0, m.step.references.joints, s.conditions)
              && StartsAt(s.interpolator.splines, s.interpolator.offset, m.step.references.external, s.conditions)
  {
    var e := Advance1(Prepare(m, i));
    hide Process, StartsAt, UsesSplines, Shaped, ResetMotion, FactorInv;
    ProcessMovesNothing(k, e);
    var s := Process(k, e).step;
    assert e.step.references == m.step.references && e.step.interpolator == m.step.interpolator;
    var r := s.references.(reach := s.goal.reach, duration := s.conditions.duration);
    ShapedFlags(s.references, r);
    if UsesSplines(s.conditions.operation) && s.conditions.mode.JointMode? {
      UpdatedStarts(s.interpolator, r, s.goal, s.conditions);
    }
    hide Updated;
  }

  lemma ShapedFlags(a: Reference, b: Reference)
    requires Shaped(a) && b.joints == a.joints && b.external == a.external
    ensures Shaped(b)
  {
  }
}
