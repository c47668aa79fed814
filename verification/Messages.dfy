/** The protobuf messages as values. A repeated field that is absent is an empty sequence; an
    optional scalar or sub-message whose presence the code inspects is an Option. */
module Messages {
  import opened Numeric
  import opened Quaternions

  /** Which RAPID instruction drives the session. */
  datatype Mode = JointMode | PoseMode

  datatype JointGoal = JointGoal(position: seq<real>, velocity: seq<real>, acceleration: seq<real>)

  datatype PartialVec = PartialVec(x: Option<real>, y: Option<real>, z: Option<real>)

  datatype PartialQuaternion =
    PartialQuaternion(u0: Option<real>, u1: Option<real>, u2: Option<real>, u3: Option<real>)

  datatype PoseGoal = PoseGoal(position: PartialVec, euler: Option<PartialVec>, quaternion: Option<PartialQuaternion>)

  datatype CartesianGoal = CartesianGoal(pose: PoseGoal, velocity: PartialVec, acceleration: PartialVec)

  datatype TwistGoal = TwistGoal(linear: PartialVec, angular: PartialVec)

  /** A point of a trajectory, as a user gives it. */
  datatype PointGoal = PointGoal(
    duration: Option<real>,
    joints: JointGoal,
    cartesian: Option<CartesianGoal>,
    external: JointGoal,
    reach: bool)

  datatype StaticPositionGoal = StaticPositionGoal(joints: seq<real>, cartesian: Option<PoseGoal>, external: seq<real>)

  datatype StaticVelocityGoal = StaticVelocityGoal(joints: seq<real>, cartesian: Option<TwistGoal>, external: seq<real>)

  /** A fully populated point: the internal goal and the interpolated references. The source keeps
      the angular velocity in the pose's Euler field. */
  datatype Reference = Reference(
    joints: JointGoal,
    position: Vec3,
    linear: Vec3,
    acceleration: Vec3,
    quaternion: Quaternion,
    angular: Vec3,
    external: JointGoal,
    reach: bool,
    duration: real)

  datatype JointSpace = JointSpace(position: seq<real>, velocity: seq<real>)

  datatype Feedback = Feedback(
    joints: JointSpace,
    position: Vec3,
    quaternion: Quaternion,
    euler: Vec3,
    linear: Vec3,
    angular: Vec3,
    external: JointSpace)

  datatype Output = Output(
    joints: JointSpace,
    position: Vec3,
    quaternion: Quaternion,
    euler: Option<Vec3>,
    linear: Vec3,
    angular: Vec3,
    external: JointSpace)

  const NO_JOINTS: JointGoal := JointGoal([], [], [])

  const NO_ROTATION: Quaternion := Quaternion(0.0, 0.0, 0.0, 0.0)

  const EMPTY_POINT: PointGoal := PointGoal(None, NO_JOINTS, None, NO_JOINTS, false)

  const EMPTY_REFERENCE: Reference :=
    Reference(NO_JOINTS, ZERO3, ZERO3, ZERO3, NO_ROTATION, ZERO3, NO_JOINTS, false, 0.0)

  function Present(o: Option<real>, default: real): real { if o.Some? then o.value else default }

  /** copyPresent on joints: the source's values over the target's, never changing its length. */
  function Overlay(target: seq<real>, source: seq<real>): (r: seq<real>)
    ensures |r| == |target|
    ensures forall i :: 0 <= i < |r| ==> r[i] == if i < |source| then source[i] else target[i]
  {
    seq(|target|, i requires 0 <= i < |target| => if i < |source| then source[i] else target[i])
  }

  function OverlayVec(target: Vec3, source: PartialVec): Vec3 {
    Vec3(Present(source.x, target.x), Present(source.y, target.y), Present(source.z, target.z))
  }

  function OverlayQuaternion(k: Maths, target: Quaternion, source: PartialQuaternion): Quaternion {
    Normalize(k, Quaternion(Present(source.u0, target.u0), Present(source.u1, target.u1),
                            Present(source.u2, target.u2), Present(source.u3, target.u3)))
  }

  /** An orientation goal given as Euler angles takes priority over one given as a quaternion. */
  function OverlayPose(k: Maths, target: Quaternion, source: PoseGoal): Quaternion {
    if source.euler.Some? then
      Normalize(k, k.toQuaternion(OverlayVec(k.toEuler(target), source.euler.value)))
    else if source.quaternion.Some? then
      OverlayQuaternion(k, target, source.quaternion.value)
    else
      target
  }

  function OverlayJoints(target: JointGoal, source: JointGoal): JointGoal {
    JointGoal(Overlay(target.position, source.position), Overlay(target.velocity, source.velocity),
              Overlay(target.acceleration, source.acceleration))
  }

  /** copyPresent as the source runs it. */
  method CopyPresent(target: seq<real>, source: seq<real>) returns (r: seq<real>)
    ensures r == Overlay(target, source)
  {
    r := target;
    var i := 0;
    while i < |source| && i < |target|
      invariant 0 <= i <= |target| && i <= |source| && |r| == |target|
      invariant forall j :: 0 <= j < i ==> r[j] == source[j]
      invariant forall j :: i <= j < |target| ==> r[j] == target[j]
    {
      r := r[i := source[i]];
      i := i + 1;
    }
  }

  /** findMaxDifference: the largest distance over the common prefix, or zero. */
  function MaxDifference(a: seq<real>, b: seq<real>): real {
    if |a| == 0 || |b| == 0 then 0.0
    else
      var n := Min(|a|, |b|) - 1;
      Max(MaxDifference(a[..n], b[..n]), Abs(a[n] - b[n]))
  }

  lemma {:induction false} MaxDifferencePrefix(a: seq<real>, b: seq<real>, n: nat)
    requires n < |a| && n < |b|
    ensures MaxDifference(a[..n + 1], b[..n + 1]) == Max(MaxDifference(a[..n], b[..n]), Abs(a[n] - b[n]))
  {
    assert a[..n + 1][..n] == a[..n] && b[..n + 1][..n] == b[..n];
  }

  /** Only the common prefix of the two vectors matters. */
  lemma {:induction false} MaxDifferenceCommon(a: seq<real>, b: seq<real>)
    ensures var n := Min(|a|, |b|); MaxDifference(a[..n], b[..n]) == MaxDifference(a, b)
  {
    var n := Min(|a|, |b|);
    if n > 0 {
      assert a[..n][..n - 1] == a[..n - 1] && b[..n][..n - 1] == b[..n - 1];
    }
  }

  /** It bounds every difference and, unless it is zero, is one of them. */
  lemma {:induction false} MaxDifferenceIsMaximum(a: seq<real>, b: seq<real>)
    ensures forall i :: 0 <= i < Min(|a|, |b|) ==> Abs(a[i] - b[i]) <= MaxDifference(a, b)
    ensures MaxDifference(a, b) == 0.0 ||
            exists i :: 0 <= i < Min(|a|, |b|) && MaxDifference(a, b) == Abs(a[i] - b[i])
    decreases |a|
  {
    if |a| > 0 && |b| > 0 {
      var n := Min(|a|, |b|) - 1;
      MaxDifferenceIsMaximum(a[..n], b[..n]);
      forall i | 0 <= i < n
        ensures Abs(a[i] - b[i]) <= MaxDifference(a[..n], b[..n])
      {
        assert a[..n][i] == a[i] && b[..n][i] == b[i];
      }
    }
  }

  method FindMaxDifference(a: seq<real>, b: seq<real>) returns (m: real)
    ensures m == MaxDifference(a, b)
  {
    m := 0.0;
    var i := 0;
    while i < |a| && i < |b|
      invariant 0 <= i <= |a| && i <= |b|
      invariant m == MaxDifference(a[..i], b[..i])
    {
      MaxDifferencePrefix(a, b, i);
      m := Max(m, Abs(a[i] - b[i]));
      i := i + 1;
    }
    MaxDifferenceCommon(a, b);
  }

  function MaxDifference3(a: Vec3, b: Vec3): real {
    Max(Max(Abs(a.x - b.x), Abs(a.y - b.y)), Abs(a.z - b.z))
  }
}
