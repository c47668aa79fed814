/** What the interpolator computes, as functions on values. The class in Interpolator.dfy is proved
    against these. */
module Interpolation {
  import opened Numeric
  import opened Quaternions
  import opened Splines
  import opened Messages

  /** MAX_NUMBER_OF_SPLINES_. */
  const SPLINES: nat := 12

  datatype Operation = NormalOp | RampDownOp | RampInPosition | RampInVelocity

  datatype Conditions = Conditions(
    duration: real,
    mode: Mode,
    operation: Operation,
    rampDownFactor: real,
    kind: SplineMethod)

  const NO_CONDITIONS: Conditions := Conditions(0.0, JointMode, NormalOp, 0.0, Quintic)

  datatype Slerp = Slerp(start: Quaternion, goal: Quaternion, duration: real)

  datatype SoftRamp = SoftRamp(
    duration: real,
    operation: Operation,
    start: Reference,
    goal: Reference,
    angular: Vec3)

  datatype Interpolator = Interpolator(
    splines: seq<Polynomial>,
    offset: int,
    slerp: Slerp,
    ramp: SoftRamp,
    conditions: Conditions)

  function Clamped(c: Conditions): Conditions { c.(duration := Max(LOWEST_SAMPLE_TIME, c.duration)) }

  // ---------------------------------------------------------------- Update

  /** The polynomial one axis gets; the duration is clamped before fitting. */
  function AxisFit(c: Conditions, s: Boundary): Polynomial {
    var T := Max(LOWEST_SAMPLE_TIME, c.duration);
    if c.operation.RampDownOp? then RampDownFit(s, T, c.rampDownFactor) else Fit(c.kind, s, T)
  }

  function JointBoundary(start: JointGoal, goal: JointGoal, i: int): Boundary {
    Boundary(At(start.position, i), At(start.velocity, i), At(start.acceleration, i),
             At(goal.position, i), At(goal.velocity, i), At(goal.acceleration, i))
  }

  function Component(v: Vec3, axis: nat): real { if axis == 0 then v.x else if axis == 1 then v.y else v.z }

  function CartesianBoundary(start: Reference, goal: Reference, axis: nat): Boundary {
    Boundary(Component(start.position, axis), Component(start.linear, axis), Component(start.acceleration, axis),
             Component(goal.position, axis), Component(goal.linear, axis), Component(goal.acceleration, axis))
  }

  /** The content of slot k after an update. External joints are written last, from slot
      |robot joints| on; below them are the robot joints, or X, Y and Z in pose mode. */
  function Slot(kept: Polynomial, k: nat, start: Reference, goal: Reference, c: Conditions): Polynomial {
    var robot := |start.joints.position|;
    if robot <= k < robot + |start.external.position| then
      AxisFit(c, JointBoundary(start.external, goal.external, k - robot))
    else if c.mode.JointMode? && k < robot then
      AxisFit(c, JointBoundary(start.joints, goal.joints, k))
    else if c.mode.PoseMode? && k < 3 then
      AxisFit(c, CartesianBoundary(start, goal, k))
    else
      kept
  }

  function UpdatedRamp(r: SoftRamp, start: Reference, goal: Reference, c: Conditions): SoftRamp {
    if c.operation.RampDownOp? then
      r.(duration := c.duration, operation := c.operation, angular := start.angular)
    else
      r.(duration := c.duration, operation := c.operation, start := start, goal := goal)
  }

  predicate UsesSplines(op: Operation) { op.NormalOp? || op.RampDownOp? }

  function Updated(ip: Interpolator, start: Reference, goal: Reference, c: Conditions): Interpolator {
    if UsesSplines(c.operation) then
      Interpolator(
        seq(|ip.splines|, k requires 0 <= k < |ip.splines| => Slot(ip.splines[k], k, start, goal, c)),
        |start.joints.position|,
        if c.mode.PoseMode? && c.operation.NormalOp?
        then Slerp(start.quaternion, goal.quaternion, c.duration) else ip.slerp,
        if c.mode.PoseMode? && c.operation.RampDownOp?
        then UpdatedRamp(ip.ramp, start, goal, c) else ip.ramp,
        Clamped(c))
    else
      ip.(ramp := UpdatedRamp(ip.ramp, start, goal, c), conditions := Clamped(c))
  }

  // ---------------------------------------------------------------- Evaluate

  function PolynomialAt(splines: seq<Polynomial>, k: int): Polynomial {
    if 0 <= k < |splines| then splines[k] else FLAT
  }

  /** Joint i is evaluated from slot base + i. */
  function SplineJoints(splines: seq<Polynomial>, base: int, j: JointGoal, t: real): JointGoal {
    var n := Min(|j.position|, |splines|);
    JointGoal(
      seq(|j.position|, i requires 0 <= i < |j.position| =>
        if i < n then PolynomialAt(splines, base + i).Position(t) else j.position[i]),
      seq(|j.velocity|, i requires 0 <= i < |j.velocity| =>
        if i < n then PolynomialAt(splines, base + i).Velocity(t) else j.velocity[i]),
      seq(|j.acceleration|, i requires 0 <= i < |j.acceleration| =>
        if i < n then PolynomialAt(splines, base + i).Acceleration(t) else j.acceleration[i]))
  }

  function Shortest(j: JointGoal, a: seq<real>, b: seq<real>): int {
    Min(Min(Min(|j.position|, |j.velocity|), |j.acceleration|), Min(|a|, |b|))
  }

  function Slope(start: real, goal: real, rate: real): real { rate * (goal - start) }

  /** A position advanced by one sample. */
  function Stepped(p: real, v: real, dt: real): real { p + dt * v }

  /** Positions on the way from start to goal, and the rate of that motion. */
  function PositionPass(j: JointGoal, start: seq<real>, goal: seq<real>, f: real, rate: real): JointGoal {
    var n := Shortest(j, start, goal);
    JointGoal(
      seq(|j.position|, i requires 0 <= i < |j.position| => if i < n then Mix(start[i], goal[i], f) else j.position[i]),
      seq(|j.velocity|, i requires 0 <= i < |j.velocity| => if i < n then Slope(start[i], goal[i], rate)
          else j.velocity[i]),
      seq(|j.acceleration|, i requires 0 <= i < |j.acceleration| => if i < n then 0.0 else j.acceleration[i]))
  }

  /** Velocities on the way from start to goal, and positions advanced by one sample of them. */
  function VelocityPass(j: JointGoal, start: seq<real>, goal: seq<real>, f: real, dt: real): JointGoal {
    var n := Shortest(j, start, goal);
    JointGoal(
      seq(|j.position|, i requires 0 <= i < |j.position| =>
        if i < n then Stepped(j.position[i], Mix(start[i], goal[i], f), dt) else j.position[i]),
      seq(|j.velocity|, i requires 0 <= i < |j.velocity| => if i < n then Mix(start[i], goal[i], f) else j.velocity[i]),
      seq(|j.acceleration|, i requires 0 <= i < |j.acceleration| => if i < n then 0.0 else j.acceleration[i]))
  }

  /** The position case has no break: it runs on into the velocity case. */
  function RampJoints(k: Maths, r: SoftRamp, j: JointGoal, start: JointGoal, goal: JointGoal, dt: real,
                      t: real): JointGoal {
    var x := Progress(t, r.duration);
    match r.operation
    case RampInPosition =>
      VelocityPass(PositionPass(j, start.position, goal.position, k.RampUp(x), k.RampUpRate(x, r.duration)),
                   start.velocity, goal.velocity, k.RampUp(x), dt)
    case RampInVelocity =>
      VelocityPass(j, start.velocity, goal.velocity, k.RampUp(x), dt)
    case _ => j
  }

  function VelocityPassCartesian(k: Maths, r: SoftRamp, out: Reference, previous: Quaternion, dt: real,
                                 x: real): Reference {
    var f := k.RampUp(x);
    var linear := Mix3(r.start.linear, r.goal.linear, f);
    var angular := Mix3(r.start.angular, r.goal.angular, f);
    out.(acceleration := ZERO3,
         linear := linear,
         position := Vec3(out.position.x + dt * linear.x, out.position.y + dt * linear.y,
             out.position.z + dt * linear.z),
         angular := angular,
         quaternion := Normalize(k, Advance(k, out.quaternion, previous, angular, dt)))
  }

  function RampCartesian(k: Maths, r: SoftRamp, out: Reference, dt: real, t: real): Reference {
    var x := Progress(t, r.duration);
    match r.operation
    case RampDownOp =>
      var av := Scale3(k.RampOut(x), r.angular);
      out.(angular := av, quaternion := Normalize(k, Advance(k, out.quaternion, out.quaternion, av, dt)))
    case RampInPosition =>
      var f, rate := k.RampUp(x), k.RampUpRate(x, r.duration);
      var q := Normalize(k, MixQ(r.start.quaternion, r.goal.quaternion, f));
      var moved := out.(
        position := Mix3(r.start.position, r.goal.position, f),
        linear := Vec3(rate * (r.goal.position.x - r.start.position.x),
                       rate * (r.goal.position.y - r.start.position.y),
                       rate * (r.goal.position.z - r.start.position.z)),
        acceleration := ZERO3,
        quaternion := q,
        angular := if dt > 0.0 then EstimateAngular(k, q, out.quaternion, dt) else out.angular);
      VelocityPassCartesian(k, r, moved, out.quaternion, dt, x)
    case RampInVelocity =>
      VelocityPassCartesian(k, r, out, out.quaternion, dt, x)
    case NormalOp => out
  }

  function SplineCartesian(splines: seq<Polynomial>, out: Reference, t: real): Reference {
    var px, py, pz := PolynomialAt(splines, 0), PolynomialAt(splines, 1), PolynomialAt(splines, 2);
    out.(position := Vec3(px.Position(t), py.Position(t), pz.Position(t)),
         linear := Vec3(px.Velocity(t), py.Velocity(t), pz.Velocity(t)),
         acceleration := Vec3(px.Acceleration(t), py.Acceleration(t), pz.Acceleration(t)))
  }

  function Oriented(k: Maths, ip: Interpolator, out: Reference, dt: real, t: real): Reference {
    if ip.conditions.operation.NormalOp? then
      var (q, av) := k.slerp(ip.slerp.start, ip.slerp.goal, ip.slerp.duration, t);
      out.(quaternion := q, angular := av)
    else
      RampCartesian(k, ip.ramp, out, dt, t)
  }

  function Evaluated(k: Maths, ip: Interpolator, out: Reference, dt: real, time: real): Reference {
    var t := Saturate(time, 0.0, ip.conditions.duration);
    if UsesSplines(ip.conditions.operation) then
      var moved :=
        if ip.conditions.mode.JointMode?
        then out.(joints := SplineJoints(ip.splines, 0, out.joints, t))
        else Oriented(k, ip, SplineCartesian(ip.splines, out, t), dt, t);
      moved.(external := SplineJoints(ip.splines, ip.offset, out.external, t))
    else
      var moved :=
        if ip.conditions.mode.JointMode?
        then out.(joints := RampJoints(k, ip.ramp, out.joints, ip.ramp.start.joints, ip.ramp.goal.joints, dt, t))
        else RampCartesian(k, ip.ramp, out, dt, t);
      moved.(external := RampJoints(k, ip.ramp, out.external, ip.ramp.start.external, ip.ramp.goal.external, dt, t))
  }
}
