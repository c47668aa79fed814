/** The wire layer: mapping joints between the controller's six-plus-external layout and the robot's
    own, and building the reply in a sensor message that persists from call to call. */
module Wire {
  import opened Numeric

  /** A double as the reply verifier sees it. */
  datatype Value = Finite(value: real) | NaN | Infinity

  type Joints = seq<Value>

  datatype Axes = NoAxes | SixAxes | SevenAxes

  const ROBOT_JOINTS: nat := 6

  const EXTERNAL_JOINTS: nat := 6

  predicate AllFinite(j: Joints) { forall i :: 0 <= i < |j| ==> j[i].Finite? }

  /** verify on joints, as the source runs it. */
  method Verify(j: Joints) returns (ok: bool)
    ensures ok <==> AllFinite(j)
  {
    var i := 0;
    while i < |j|
      invariant 0 <= i <= |j| && forall n :: 0 <= n < i ==> j[n].Finite?
    {
      if !j[i].Finite? { return false; }
      i := i + 1;
    }
    ok := true;
  }

  function Take(j: Joints, n: nat): Joints { if |j| <= n then j else j[..n] }

  // ---------------------------------------------------------------- Joint mapping

  /** Controller joints to robot and external joints. The third axis of a seven-axis robot travels as
      the first external joint. */
  function FromWire(axes: Axes, robot: Joints, external: Joints): Option<(Joints, Joints)> {
    match axes
    case NoAxes => if robot == [] then Some(([], external)) else None
    case SixAxes => if |robot| == ROBOT_JOINTS then Some((robot, external)) else None
    case SevenAxes =>
      if |robot| == ROBOT_JOINTS && external != []
      then Some((robot[..2] + [external[0]] + robot[2..], external[1..])) else None
  }

  /** Robot and external joints to controller joints, with what the wire has room for. */
  function ToWire(axes: Axes, robot: Joints, external: Joints): Option<(Joints, Joints)> {
    match axes
    case NoAxes => if robot == [] then Some(([], Take(external, EXTERNAL_JOINTS))) else None
    case SixAxes => if |robot| == ROBOT_JOINTS then Some((robot, Take(external, EXTERNAL_JOINTS))) else None
    case SevenAxes =>
      if |robot| == ROBOT_JOINTS + 1
      then Some((robot[..2] + robot[3..], [robot[2]] + Take(external, EXTERNAL_JOINTS - 1))) else None
  }

  /** The joint parser: clears its targets, then fills them value by value. */
  method Parse(axes: Axes, sourceRobot: Joints, sourceExternal: Joints)
    returns (success: bool, robot: Joints, external: Joints)
    ensures success <==> FromWire(axes, sourceRobot, sourceExternal).Some?
    ensures success ==> FromWire(axes, sourceRobot, sourceExternal).value == (robot, external)
    ensures !success ==> robot == [] && external == []
  {
    success, robot, external := false, [], [];
    match axes
    case NoAxes =>
      if |sourceRobot| == 0 {
        external := Append([], sourceExternal, 0, |sourceExternal|);
        assert external == sourceExternal;
        success := true;
      }
    case SixAxes =>
      if |sourceRobot| == ROBOT_JOINTS {
        robot := Append([], sourceRobot, 0, |sourceRobot|);
        assert robot == sourceRobot;
        external := Append([], sourceExternal, 0, |sourceExternal|);
        assert external == sourceExternal;
        success := true;
      }
    case SevenAxes =>
      if |sourceRobot| == ROBOT_JOINTS && |sourceExternal| >= 1 {
        robot := [sourceRobot[0], sourceRobot[1], sourceExternal[0], sourceRobot[2], sourceRobot[3], sourceRobot[4],
            sourceRobot[5]];
        assert robot == sourceRobot[..2] + [sourceExternal[0]] + sourceRobot[2..];
        external := Append([], sourceExternal, 1, |sourceExternal|);
        assert external == sourceExternal[1..];
        success := true;
      }
  }

  /** Append source[from..to], one value at a time. */
  method Append(target: Joints, source: Joints, from: nat, to: nat) returns (r: Joints)
    requires from <= to <= |source|
    ensures r == target + source[from..to]
  {
    r := target;
    var i := from;
    while i < to
      invariant from <= i <= to && r == target + source[from..i]
    {
      r := r + [source[i]];
      i := i + 1;
    }
  }

  /** The joint half of a reply body. */
  method Map(axes: Axes, robot: Joints, external: Joints) returns (ok: bool, joints: Joints, externalJoints: Joints)
    ensures ok <==> ToWire(axes, robot, external).Some?
    ensures ok ==> ToWire(axes, robot, external).value == (joints, externalJoints)
    ensures !ok ==> joints == [] && externalJoints == []
  {
    ok, joints, externalJoints := false, [], [];
    match axes
    case NoAxes =>
      if |robot| == 0 {
        externalJoints := Append([], external, 0, Min(|external|, EXTERNAL_JOINTS));
        assert externalJoints == Take(external, EXTERNAL_JOINTS);
        ok := true;
      }
    case SixAxes =>
      if |robot| == ROBOT_JOINTS {
        joints := Append([], robot, 0, |robot|);
        assert joints == robot;
        externalJoints := Append([], external, 0, Min(|external|, EXTERNAL_JOINTS));
        assert externalJoints == Take(external, EXTERNAL_JOINTS);
        ok := true;
      }
    case SevenAxes =>
      if |robot| == ROBOT_JOINTS + 1 {
        joints := [robot[0], robot[1], robot[3], robot[4], robot[5], robot[6]];
        assert joints == robot[..2] + robot[3..];
        externalJoints := Append([robot[2]], external, 0, Min(|external|, EXTERNAL_JOINTS - 1));
        assert externalJoints == [robot[2]] + Take(external, EXTERNAL_JOINTS - 1);
        ok := true;
      }
  }

  /** Parsed and sent back, controller joints are unchanged exactly if at most six of them are
      external. */
  lemma ParseThenReply(axes: Axes, robot: Joints, external: Joints)
    requires FromWire(axes, robot, external).Some?
    ensures var (r, e) := FromWire(axes, robot, external).value;
            && ToWire(axes, r, e).Some?
            && (ToWire(axes, r, e).value == (robot, external) <==> |external| <= EXTERNAL_JOINTS)
  {
    var (r, e) := FromWire(axes, robot, external).value;
    if axes.SevenAxes? {
      assert r[..2] + r[3..] == robot;
      assert [external[0]] + e == external;
    }
    var wire := ToWire(axes, r, e).value;
    assert |wire.1| == Min(|external|, EXTERNAL_JOINTS);
  }

  /** Sent and parsed back, robot joints are unchanged exactly if the wire has room for the external
      ones: six, or five beside a seven-axis robot. */
  lemma ReplyThenParse(axes: Axes, robot: Joints, external: Joints)
    requires ToWire(axes, robot, external).Some?
    ensures var (j, x) := ToWire(axes, robot, external).value;
            && FromWire(axes, j, x).Some?
            && (FromWire(axes, j, x).value == (robot, external)
                <==> |external| <= if axes.SevenAxes? then EXTERNAL_JOINTS - 1 else EXTERNAL_JOINTS)
  {
    var (j, x) := ToWire(axes, robot, external).value;
    if axes.SevenAxes? {
      assert j[..2] + [x[0]] + j[2..] == robot;
      assert x[1..] == Take(external, EXTERNAL_JOINTS - 1);
    }
  }

  // ---------------------------------------------------------------- Messages

  datatype Triple = Triple(x: Option<Value>, y: Option<Value>, z: Option<Value>)

  datatype Quad = Quad(u0: Option<Value>, u1: Option<Value>, u2: Option<Value>, u3: Option<Value>)

  datatype Pose = Pose(position: Option<Triple>, euler: Option<Triple>, quaternion: Option<Quad>)

  datatype Twist = Twist(linear: Option<Triple>, angular: Option<Triple>)

  /** The outputs a reply is built from. */
  datatype Outputs = Outputs(
    position: Option<Joints>,
    velocity: Option<Joints>,
    externalPosition: Joints,
    externalVelocity: Joints,
    pose: Option<Pose>,
    twist: Option<Twist>)

  datatype WirePose = WirePose(pos: Joints, euler: Joints, orient: Joints)

  datatype Sensor = Sensor(
    seqno: nat,
    joints: Joints,
    externalJoints: Joints,
    pose: WirePose,
    speedJoints: Joints,
    speedExternal: Joints,
    speedCartesian: Joints)

  const EMPTY_SENSOR: Sensor := Sensor(0, [], [], WirePose([], [], []), [], [], [])

  datatype Configuration = Configuration(axes: Axes, useVelocity: bool)

  const ZERO: Triple := Triple(Some(Finite(0.0)), Some(Finite(0.0)), Some(Finite(0.0)))

  /** An absent optional double reads as zero. */
  function Read(v: Option<Value>): Value { if v.Some? then v.value else Finite(0.0) }

  function ReadTriple(t: Option<Triple>): Joints {
    if t.None? then [] else [Read(t.value.x), Read(t.value.y), Read(t.value.z)]
  }

  function ReadQuad(q: Option<Quad>): Joints {
    if q.None? then [] else [Read(q.value.u0), Read(q.value.u1), Read(q.value.u2), Read(q.value.u3)]
  }

  /** A missing half of a twist is sent as zeros. */
  function ReadHalf(t: Option<Triple>): Joints {
    if t.None? then [Finite(0.0), Finite(0.0), Finite(0.0)] else ReadTriple(t)
  }

  predicate Clean(s: Sensor) {
    && AllFinite(s.joints) && AllFinite(s.externalJoints)
    && AllFinite(s.pose.pos) && AllFinite(s.pose.euler) && AllFinite(s.pose.orient)
    && AllFinite(s.speedJoints) && AllFinite(s.speedExternal) && AllFinite(s.speedCartesian)
  }

  predicate CleanPose(p: Pose) {
    AllFinite(ReadTriple(p.position)) && AllFinite(ReadTriple(p.euler)) && AllFinite(ReadQuad(p.quaternion))
  }

  predicate CleanTwist(t: Twist) { AllFinite(ReadTriple(t.linear)) && AllFinite(ReadTriple(t.angular)) }

  /** The reply carries the current joints, mapped for the configured robot, in full. */
  predicate FreshJoints(s: Sensor, c: Configuration, o: Outputs) {
    && o.position.Some?
    && ToWire(c.axes, o.position.value, o.externalPosition) == Some((s.joints, s.externalJoints))
  }

  predicate FreshSpeeds(s: Sensor, c: Configuration, o: Outputs) {
    && o.velocity.Some?
    && ToWire(c.axes, o.velocity.value, o.externalVelocity) == Some((s.speedJoints, s.speedExternal))
  }

  predicate FreshPose(s: Sensor, o: Outputs) {
    && o.pose.Some?
    && s.pose == WirePose(ReadTriple(o.pose.value.position), ReadTriple(o.pose.value.euler),
       ReadQuad(o.pose.value.quaternion))
  }

  predicate FreshTwist(s: Sensor, o: Outputs) {
    o.twist.Some? && s.speedCartesian == ReadHalf(o.twist.value.linear) + ReadHalf(o.twist.value.angular)
  }

  /** When a reply can be built at all. */
  predicate Answerable(c: Configuration, o: Outputs) {
    && o.position.Some? && AllFinite(o.position.value) && AllFinite(o.externalPosition)
    && ToWire(c.axes, o.position.value, o.externalPosition).Some?
    && (c.useVelocity ==>
          && o.velocity.Some? && AllFinite(o.velocity.value) && AllFinite(o.externalVelocity)
          && ToWire(c.axes, o.velocity.value, o.externalVelocity).Some?)
    && (!c.axes.NoAxes? ==>
          && o.pose.Some? && CleanPose(o.pose.value)
          && (c.useVelocity ==> o.twist.Some? && CleanTwist(o.twist.value)))
  }

  // ---------------------------------------------------------------- The output container

  class OutputContainer {
    var current: Outputs
    var sensor: Sensor
    /** The serialised reply; an empty string is None. */
    var reply: Option<Sensor>
    var sequenceNumber: nat

    constructor ()
      ensures sensor == EMPTY_SENSOR && reply.None? && sequenceNumber == 0
    {
      current := Outputs(None, None, [], [], None, None);
      sensor := EMPTY_SENSOR;
      reply := None;
      sequenceNumber := 0;
    }

    /** On the first message of a session the outputs are the feedback, at rest. A robot without
        velocity feedback gets no velocity field at all. */
    method PrepareOutputs(first: bool, robot: Joints, external: Joints, robotVelocities: nat, externalVelocities: nat,
                          pose: Pose)
      modifies this`current, this`sequenceNumber
      ensures sequenceNumber == if first then 0 else (old(sequenceNumber) + 1) % 0x1_0000_0000
      ensures !first ==> current == old(current)
      ensures first ==>
                && current.position == Some(robot) && current.externalPosition == external
                && current.velocity == (if robotVelocities == 0 then None
                   else Some(seq(robotVelocities, _ => Finite(0.0))))
                && current.externalVelocity == seq(externalVelocities, _ => Finite(0.0))
                && current.pose == Some(pose) && current.twist == Some(Twist(Some(ZERO), Some(ZERO)))
    {
      sequenceNumber := if first then 0 else (sequenceNumber + 1) % 0x1_0000_0000;
      if first {
        var rv := AppendZeros(robotVelocities);
        var ev := AppendZeros(externalVelocities);
        current := Outputs(Some(robot), if rv == [] then None else Some(rv), external, ev, Some(pose),
                           Some(Twist(Some(ZERO), Some(ZERO))));
      }
    }

    static method AppendZeros(n: nat) returns (r: Joints)
      ensures r == seq(n, _ => Finite(0.0))
    {
      r := [];
      var i := 0;
      while i < n
        invariant 0 <= i <= n && r == seq(i, _ => Finite(0.0))
      {
        r := r + [Finite(0.0)];
        i := i + 1;
      }
    }

    /** The joint half. Values that are not finite stop it before anything of that part is written. */
    method ConstructJointBody(c: Configuration) returns (ok: bool)
      requires Clean(sensor)
      modifies this`sensor
      ensures Clean(sensor)
      ensures ok ==> FreshJoints(sensor, c, current) && (c.useVelocity ==> FreshSpeeds(sensor, c, current))
      ensures ok <==>
                && current.position.Some? && AllFinite(current.position.value) && AllFinite(current.externalPosition)
                && ToWire(c.axes, current.position.value, current.externalPosition).Some?
                && (c.useVelocity ==>
                      && current.velocity.Some? && AllFinite(current.velocity.value)
                         && AllFinite(current.externalVelocity)
                      && ToWire(c.axes, current.velocity.value, current.externalVelocity).Some?)
      ensures sensor.seqno == old(sensor.seqno)
      ensures sensor.pose == old(sensor.pose) && sensor.speedCartesian == old(sensor.speedCartesian)
      ensures !c.useVelocity ==>
                sensor.speedJoints == old(sensor.speedJoints) && sensor.speedExternal == old(sensor.speedExternal)
    {
      var positionOk, speedOk := false, !c.useVelocity;
      if current.position.Some? {
        var robotOk := Verify(current.position.value);
        var externalOk := Verify(current.externalPosition);
        if !robotOk || !externalOk { return false; }
        var mapped, joints, externalJoints := Map(c.axes, current.position.value, current.externalPosition);
        MappedIsFinite(c.axes, current.position.value, current.externalPosition);
        sensor := sensor.(joints := joints, externalJoints := externalJoints);
        positionOk := mapped;
      }
      if c.useVelocity && current.velocity.Some? {
        var robotOk := Verify(current.velocity.value);
        var externalOk := Verify(current.externalVelocity);
        if !robotOk || !externalOk { return false; }
        var mapped, joints, externalJoints := Map(c.axes, current.velocity.value, current.externalVelocity);
        MappedIsFinite(c.axes, current.velocity.value, current.externalVelocity);
        sensor := sensor.(speedJoints := joints, speedExternal := externalJoints);
        speedOk := mapped;
      }
      ok := positionOk && speedOk;
    }

    /** The Cartesian half. */
    method ConstructCartesianBody(c: Configuration) returns (ok: bool)
      requires Clean(sensor)
      modifies this`sensor
      ensures Clean(sensor)
      ensures ok ==> FreshPose(sensor, current) && (c.useVelocity ==> FreshTwist(sensor, current))
      ensures ok <==>
                && current.pose.Some? && CleanPose(current.pose.value)
                && (c.useVelocity ==> current.twist.Some? && CleanTwist(current.twist.value))
      ensures sensor == old(sensor).(pose := sensor.pose, speedCartesian := sensor.speedCartesian)
      ensures !c.useVelocity ==> sensor.speedCartesian == old(sensor.speedCartesian)
    {
      var positionOk, speedOk := false, !c.useVelocity;
      if current.pose.Some? {
        var p := current.pose.value;
        var a := Verify(ReadTriple(p.position));
        var b := Verify(ReadTriple(p.euler));
        var d := Verify(ReadQuad(p.quaternion));
        if !a || !b || !d { return false; }
        sensor := sensor.(pose := WirePose(ReadTriple(p.position), ReadTriple(p.euler), ReadQuad(p.quaternion)));
        positionOk := true;
      }
      if c.useVelocity && current.twist.Some? {
        var t := current.twist.value;
        var a := Verify(ReadTriple(t.angular));
        var b := Verify(ReadTriple(t.linear));
        if !a || !b { return false; }
        sensor := sensor.(speedCartesian := ReadHalf(t.linear) + ReadHalf(t.angular));
        speedOk := true;
      }
      ok := positionOk && speedOk;
    }

    /** The reply: built exactly when everything it needs is there and finite, and then it is new in
        every part it was configured to carry. Whether built or not, the persistent message stays
        free of NaN and infinity. */
    method ConstructReply(c: Configuration)
      requires Clean(sensor)
      modifies this`sensor, this`reply
      ensures Clean(sensor)
      ensures reply.Some? <==> Answerable(c, current)
      ensures reply.Some? ==>
                && reply.value == sensor && sensor.seqno == sequenceNumber
                && FreshJoints(sensor, c, current)
                && (c.useVelocity ==> FreshSpeeds(sensor, c, current))
                && (!c.axes.NoAxes? ==> FreshPose(sensor, current) && (c.useVelocity ==> FreshTwist(sensor, current)))
      ensures c.axes.NoAxes? ==> sensor.pose == old(sensor.pose) && sensor.speedCartesian == old(sensor.speedCartesian)
      ensures !c.useVelocity ==>
                && sensor.speedJoints == old(sensor.speedJoints) && sensor.speedExternal == old(sensor.speedExternal)
                && sensor.speedCartesian == old(sensor.speedCartesian)
    {
      sensor := sensor.(seqno := sequenceNumber);
      var success := ConstructJointBody(c);
      if success && !c.axes.NoAxes? {
        success := ConstructCartesianBody(c);
      }
      if success {
        reply := Some(sensor);
      } else {
        reply := None;
      }
    }
  }

  lemma MappedIsFinite(axes: Axes, robot: Joints, external: Joints)
    requires AllFinite(robot) && AllFinite(external)
    ensures ToWire(axes, robot, external).Some? ==>
              AllFinite(ToWire(axes, robot, external).value.0) && AllFinite(ToWire(axes, robot, external).value.1)
  {
  }

  /** Every reply has no robot joints or exactly six, as configured, and at most six external ones. */
  lemma ReplyShape(s: Sensor, c: Configuration, o: Outputs)
    requires FreshJoints(s, c, o)
    ensures |s.joints| == (if c.axes.NoAxes? then 0 else ROBOT_JOINTS) && |s.externalJoints| <= EXTERNAL_JOINTS
  {
  }

  function RobotJoints(axes: Axes): nat {
    match axes
    case NoAxes => 0
    case SixAxes => ROBOT_JOINTS
    case SevenAxes => ROBOT_JOINTS + 1
  }

  /** The callback for a first message: parse, prepare, generate, reply. `generated` is what the
      trajectory machine makes of the prepared outputs, or None if it leaves them alone. Left alone,
      they are answered with exactly the joints the controller sent; with velocity outputs there is an
      answer only if the feedback has one velocity for each robot joint, and never without a robot.
      Otherwise what was generated is sent. */
  method FirstReply(out: OutputContainer, c: Configuration, robot: Joints, external: Joints, pose: Pose,
                    robotVelocities: nat, externalVelocities: nat, generated: Option<Outputs>)
    returns (answered: bool)
    requires Clean(out.sensor)
    modifies out
    ensures Clean(out.sensor)
    ensures answered <==> FromWire(c.axes, robot, external).Some?
    ensures answered && out.reply.Some? ==> out.reply.value.seqno == 0
    ensures answered && out.reply.Some? && generated.None? && |external| <= EXTERNAL_JOINTS ==>
              out.reply.value.joints == robot && out.reply.value.externalJoints == external
    ensures answered && generated.Some? ==>
              && (out.reply.Some? <==> Answerable(c, generated.value))
              && (out.reply.Some? ==> FreshJoints(out.reply.value, c, generated.value))
    ensures answered && generated.None? ==>
              (out.reply.Some? <==>
                && AllFinite(robot) && AllFinite(external) && (c.axes.NoAxes? || CleanPose(pose))
                && (c.useVelocity ==> robotVelocities == RobotJoints(c.axes) > 0))
  {
    var r, e;
    answered, r, e := Parse(c.axes, robot, external);
    if answered {
      out.PrepareOutputs(true, r, e, robotVelocities, externalVelocities, pose);
      if generated.Some? { out.current := generated.value; }
      out.ConstructReply(c);
      ParseThenReply(c.axes, robot, external);
      ParsedIsFinite(c.axes, robot, external);
    }
  }

  lemma ParsedIsFinite(axes: Axes, robot: Joints, external: Joints)
    requires FromWire(axes, robot, external).Some?
    ensures var (r, e) := FromWire(axes, robot, external).value;
            AllFinite(r) && AllFinite(e) <==> AllFinite(robot) && AllFinite(external)
  {
    var (r, e) := FromWire(axes, robot, external).value;
    if axes.SevenAxes? {
      assert robot == robot[..2] + robot[2..] && external == [external[0]] + e;
      FiniteConcat(robot[..2], robot[2..]);
      FiniteConcat([external[0]], e);
      FiniteConcat(robot[..2] + [external[0]], robot[2..]);
      FiniteConcat(robot[..2], [external[0]]);
      hide AllFinite;
    }
  }

  lemma FiniteConcat(a: Joints, b: Joints)
    ensures AllFinite(a + b) <==> AllFinite(a) && AllFinite(b)
  {
    if AllFinite(a + b) {
      forall i | 0 <= i < |a| ensures a[i].Finite? { assert (a + b)[i] == a[i]; }
      forall i | 0 <= i < |b| ensures b[i].Finite? { assert (a + b)[|a| + i] == b[i]; }
    }
  }

  /** A sensor message never forgets what it is not configured to send: with velocity outputs switched
      off, a reply still carries the speeds of the last session that had them on. */
  method StaleSpeeds(out: OutputContainer, axes: Axes)
    requires Clean(out.sensor)
    modifies out
    ensures Clean(out.sensor)
    ensures out.reply.Some? ==>
              && out.reply.value.speedJoints == old(out.sensor.speedJoints)
              && out.reply.value.speedExternal == old(out.sensor.speedExternal)
              && out.reply.value.speedCartesian == old(out.sensor.speedCartesian)
  {
    out.ConstructReply(Configuration(axes, false));
  }
}
