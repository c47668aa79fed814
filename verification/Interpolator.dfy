/** The interpolator as the source runs it: a fixed array of twelve polynomials, overwritten in place,
    proved against the functions of Interpolation. */
module InterpolatorObject {
  import opened Numeric
  import opened Quaternions
  import opened Splines
  import opened Messages
  import opened Interpolation
  import opened Stopping
  import opened Sizing

  class EGMInterpolator {
    const splines: array<Polynomial>
    var offset: int
    var slerp: Slerp
    var ramp: SoftRamp
    var conditions: Conditions

    ghost predicate Valid()
      reads this
    {
      splines.Length == SPLINES
    }

    ghost function View(): Interpolator
      reads this, splines
    {
      Interpolator(splines[..], offset, slerp, ramp, conditions)
    }

    /** The offset starts with whatever is in memory. */
    constructor (memory: int)
      ensures Valid() && fresh(splines)
      ensures splines[..] == seq(SPLINES, _ => FLAT) && offset == memory && conditions == NO_CONDITIONS
      ensures slerp == Slerp(Quaternion(1.0, 0.0, 0.0, 0.0), Quaternion(1.0, 0.0, 0.0, 0.0), 0.0)
      ensures ramp == SoftRamp(0.0, RampDownOp, EMPTY_REFERENCE, EMPTY_REFERENCE, ZERO3)
    {
      splines := new Polynomial[SPLINES](_ => FLAT);
      offset := memory;
      slerp := Slerp(Quaternion(1.0, 0.0, 0.0, 0.0), Quaternion(1.0, 0.0, 0.0, 0.0), 0.0);
      ramp := SoftRamp(0.0, RampDownOp, EMPTY_REFERENCE, EMPTY_REFERENCE, ZERO3);
      conditions := NO_CONDITIONS;
    }

    /** SplinePolynomial::update on one slot. */
    method FitSlot(slot: nat, c: Conditions, s: Boundary)
      requires Valid() && slot < SPLINES
      modifies splines
      ensures splines[..] == old(splines[..])[slot := AxisFit(c, s)]
    {
      var T := Max(LOWEST_SAMPLE_TIME, c.duration);
      if c.operation.RampDownOp? {
        splines[slot] := RampDownFit(s, T, c.rampDownFactor);
      } else {
        splines[slot] := Fit(c.kind, s, T);
      }
    }

    /** One boundary per joint, one slot per boundary. */
    method FitJoints(base: nat, c: Conditions, start: JointGoal, goal: JointGoal)
      requires Valid() && ShapedJoints(start) && Wide(goal, |start.position|) && base + |start.position| <= SPLINES
      modifies splines
      ensures forall k :: 0 <= k < SPLINES ==>
                splines[k] == if base <= k < base + |start.position|
                              then AxisFit(c, JointBoundary(start, goal, k - base)) else old(splines[k])
    {
      var i := 0;
      while i < |start.position| && i < splines.Length
        invariant 0 <= i <= |start.position|
        invariant forall k :: 0 <= k < SPLINES ==>
                    splines[k] == if base <= k < base + i
                                  then AxisFit(c, JointBoundary(start, goal, k - base)) else old(splines[k])
      {
        var s := Boundary(start.position[i], start.velocity[i], start.acceleration[i],
                          goal.position[i], goal.velocity[i], goal.acceleration[i]);
        assert s == JointBoundary(start, goal, i);
        ghost var before := splines[..];
        FitSlot(base + i, c, s);
        assert forall k :: 0 <= k < SPLINES ==> splines[k] == splines[..][k];
        assert forall k :: 0 <= k < SPLINES && k != base + i ==> splines[k] == before[k];
        i := i + 1;
      }
    }

    /** The robot joints, or the three axes and the orientation. */
    method FitRobot(start: Reference, goal: Reference, c: Conditions)
      requires Valid() && Shaped(start) && Wide(goal.joints, |start.joints.position|) && UsesSplines(c.operation)
      modifies splines, this`slerp, this`ramp
      ensures forall k :: 0 <= k < SPLINES ==> splines[k] == RobotSlot(old(splines[k]), k, start, goal, c)
      ensures slerp == if c.mode.PoseMode? && c.operation.NormalOp?
                       then Slerp(start.quaternion, goal.quaternion, c.duration) else old(slerp)
      ensures ramp == if c.mode.PoseMode? && c.operation.RampDownOp?
                      then UpdatedRamp(old(ramp), start, goal, c) else old(ramp)
    {
      hide AxisFit;
      if c.mode.JointMode? {
        FitJoints(0, c, start.joints, goal.joints);
      } else {
        FitSlot(0, c, CartesianBoundary(start, goal, 0));
        FitSlot(1, c, CartesianBoundary(start, goal, 1));
        FitSlot(2, c, CartesianBoundary(start, goal, 2));
        assert forall k :: 0 <= k < SPLINES ==> splines[k] == splines[..][k];
        if c.operation.NormalOp? {
          slerp := Slerp(start.quaternion, goal.quaternion, c.duration);
        } else {
          ramp := UpdatedRamp(ramp, start, goal, c);
        }
      }
    }

    /** update: refit for a new goal. */
    method Update(start: Reference, goal: Reference, c: Conditions)
      requires Valid() && Shaped(start)
      requires Wide(goal.joints, |start.joints.position|) && Wide(goal.external, |start.external.position|)
      modifies this, splines
      ensures Valid() && View() == Updated(old(View()), start, goal, c)
    {
      hide AxisFit;
      conditions := Clamped(c);
      if UsesSplines(c.operation) {
        offset := |start.joints.position|;
        FitRobot(start, goal, c);
        FitJoints(offset, c, start.external, goal.external);
        assert forall k :: 0 <= k < SPLINES ==> splines[..][k] == Slot(old(splines[..])[k], k, start, goal, c);
      } else {
        ramp := UpdatedRamp(ramp, start, goal, c);
      }
    }

    // -------------------------------------------------------------- Evaluation

    /** SplinePolynomial::evaluate, joint by joint. */
    method EvaluateSplines(base: nat, j: JointGoal, t: real) returns (r: JointGoal)
      requires Valid() && ShapedJoints(j) && base + |j.position| <= SPLINES
      ensures r == SplineJoints(splines[..], base, j, t)
    {
      hide Polynomial.Position, Polynomial.Velocity, Polynomial.Acceleration;
      r := j;
      var i := 0;
      while i < |r.position| && i < splines.Length
        invariant 0 <= i <= |j.position| && ShapedJoints(r) && |r.position| == |j.position|
        invariant forall n :: 0 <= n < i ==> r.position[n] == PolynomialAt(splines[..], base + n).Position(t)
        invariant forall n :: 0 <= n < i ==> r.velocity[n] == PolynomialAt(splines[..], base + n).Velocity(t)
        invariant forall n :: 0 <= n < i ==> r.acceleration[n] == PolynomialAt(splines[..], base + n).Acceleration(t)
        invariant forall n :: i <= n < |j.position| ==>
                    r.position[n] == j.position[n] && r.velocity[n] == j.velocity[n]
                        && r.acceleration[n] == j.acceleration[n]
      {
        var p := splines[base + i];
        assert p == PolynomialAt(splines[..], base + i);
        r := JointGoal(r.position[i := p.Position(t)], r.velocity[i := p.Velocity(t)],
            r.acceleration[i := p.Acceleration(t)]);
        i := i + 1;
      }
      assert r.position == SplineJoints(splines[..], base, j, t).position;
      assert r.velocity == SplineJoints(splines[..], base, j, t).velocity;
      assert r.acceleration == SplineJoints(splines[..], base, j, t).acceleration;
    }

    /** The position case of SoftRamp::evaluate. */
    static method RampPositions(j: JointGoal, start: seq<real>, goal: seq<real>, f: real,
        rate: real) returns (r: JointGoal)
      ensures r == PositionPass(j, start, goal, f, rate)
    {
      hide Mix, Slope, Stepped;
      r := j;
      var i := 0;
      ghost var n := Shortest(j, start, goal);
      while i < |r.position| && i < |r.velocity| && i < |r.acceleration| && i < |start| && i < |goal|
        invariant 0 <= i <= n
        invariant |r.position| == |j.position| && |r.velocity| == |j.velocity| && |r.acceleration| == |j.acceleration|
        invariant forall q :: 0 <= q < |j.position| ==>
            r.position[q] == if q < i then Mix(start[q], goal[q], f) else j.position[q]
        invariant forall q :: 0 <= q < |j.velocity| ==>
            r.velocity[q] == if q < i then Slope(start[q], goal[q], rate) else j.velocity[q]
        invariant forall q :: 0 <= q < |j.acceleration| ==>
            r.acceleration[q] == if q < i then 0.0 else j.acceleration[q]
      {
        r := JointGoal(r.position[i := Mix(start[i], goal[i], f)], r.velocity[i := Slope(start[i], goal[i], rate)],
                       r.acceleration[i := 0.0]);
        i := i + 1;
      }
      assert r.position == PositionPass(j, start, goal, f, rate).position;
      assert r.velocity == PositionPass(j, start, goal, f, rate).velocity;
      assert r.acceleration == PositionPass(j, start, goal, f, rate).acceleration;
    }

    /** The velocity case, which the position case falls into. */
    static method RampVelocities(j: JointGoal, start: seq<real>, goal: seq<real>, f: real,
        dt: real) returns (r: JointGoal)
      ensures r == VelocityPass(j, start, goal, f, dt)
    {
      hide Mix, Slope, Stepped;
      r := j;
      var i := 0;
      ghost var n := Shortest(j, start, goal);
      while i < |r.position| && i < |r.velocity| && i < |r.acceleration| && i < |start| && i < |goal|
        invariant 0 <= i <= n
        invariant |r.position| == |j.position| && |r.velocity| == |j.velocity| && |r.acceleration| == |j.acceleration|
        invariant forall q :: 0 <= q < |j.position| ==>
                    r.position[q] == if q < i then Stepped(j.position[q], Mix(start[q], goal[q], f), dt)
                        else j.position[q]
        invariant forall q :: 0 <= q < |j.velocity| ==>
            r.velocity[q] == if q < i then Mix(start[q], goal[q], f) else j.velocity[q]
        invariant forall q :: 0 <= q < |j.acceleration| ==>
            r.acceleration[q] == if q < i then 0.0 else j.acceleration[q]
      {
        var v := Mix(start[i], goal[i], f);
        r := r.(acceleration := r.acceleration[i := 0.0]);
        r := r.(velocity := r.velocity[i := v]);
        r := r.(position := r.position[i := Stepped(r.position[i], r.velocity[i], dt)]);
        i := i + 1;
      }
      assert r.position == VelocityPass(j, start, goal, f, dt).position;
      assert r.velocity == VelocityPass(j, start, goal, f, dt).velocity;
      assert r.acceleration == VelocityPass(j, start, goal, f, dt).acceleration;
    }

    method EvaluateRamp(k: Maths, j: JointGoal, start: JointGoal, goal: JointGoal, dt: real,
                        t: real) returns (r: JointGoal)
      ensures r == RampJoints(k, ramp, j, start, goal, dt, t)
    {
      hide PositionPass, VelocityPass;
      var x := Progress(t, ramp.duration);
      r := j;
      if ramp.operation.RampInPosition? {
        r := RampPositions(r, start.position, goal.position, k.RampUp(x), k.RampUpRate(x, ramp.duration));
      }
      if ramp.operation.RampInPosition? || ramp.operation.RampInVelocity? {
        r := RampVelocities(r, start.velocity, goal.velocity, k.RampUp(x), dt);
      }
    }

    /** evaluate: the references at the given time, written over the previous ones. */
    method Evaluate(k: Maths, output: Reference, dt: real, time: real) returns (r: Reference)
      requires Valid() && Shaped(output)
      requires UsesSplines(conditions.operation) ==> 0 <= offset && offset + |output.external.position| <= SPLINES
      ensures r == Evaluated(k, View(), output, dt, time)
    {
      hide SplineJoints, RampJoints, RampCartesian, SplineCartesian, Oriented;
      var t := Saturate(time, 0.0, conditions.duration);
      r := output;
      if UsesSplines(conditions.operation) {
        if conditions.mode.JointMode? {
          var joints := EvaluateSplines(0, output.joints, t);
          r := r.(joints := joints);
        } else {
          var s := splines[..];
          r := SplineCartesian(s, r, t);
          if conditions.operation.NormalOp? {
            var (q, av) := k.slerp(slerp.start, slerp.goal, slerp.duration, t);
            r := r.(quaternion := q, angular := av);
          } else {
            r := RampCartesian(k, ramp, r, dt, t);
          }
          OrientedUnfolded(k, View(), SplineCartesian(s, output, t), dt, t);
        }
        var external := EvaluateSplines(offset, output.external, t);
        r := r.(external := external);
      } else {
        if conditions.mode.JointMode? {
          var joints := EvaluateRamp(k, output.joints, ramp.start.joints, ramp.goal.joints, dt, t);
          r := r.(joints := joints);
        } else {
          r := RampCartesian(k, ramp, r, dt, t);
        }
        var external := EvaluateRamp(k, output.external, ramp.start.external, ramp.goal.external, dt, t);
        r := r.(external := external);
      }
    }
  }

  /** A slot before the external joints are written. */
  function RobotSlot(kept: Polynomial, k: nat, start: Reference, goal: Reference, c: Conditions): Polynomial {
    if c.mode.JointMode? && k < |start.joints.position| then AxisFit(c, JointBoundary(start.joints, goal.joints, k))
    else if c.mode.PoseMode? && k < 3 then AxisFit(c, CartesianBoundary(start, goal, k))
    else kept
  }

  lemma OrientedUnfolded(k: Maths, ip: Interpolator, out: Reference, dt: real, t: real)
    ensures Oriented(k, ip, out, dt, t) ==
              if ip.conditions.operation.NormalOp? then
                var (q, av) := k.slerp(ip.slerp.start, ip.slerp.goal, ip.slerp.duration, t);
                out.(quaternion := q, angular := av)
              else RampCartesian(k, ip.ramp, out, dt, t)
  {
    hide RampCartesian;
  }
}
