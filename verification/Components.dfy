/** The parts of TrajectoryMotion as objects updated in place: state manager, trajectory, motion step
    and controller. Each method is proved against the corresponding function of Machine. */
module Components {
  import opened Numeric
  import opened Quaternions
  import opened Splines
  import opened Messages
  import opened Interpolation
  import opened InterpolatorObject
  import opened Stopping
  import opened Sizing
  import M = Machine

  // ---------------------------------------------------------------- State manager

  class StateManager {
    var current: M.Stage
    var pending: M.Stage
    var hasPending: bool

    ghost function View(): M.StateManager
      reads this
    {
      M.StateManager(current, pending, hasPending)
    }

    constructor ()
      ensures View() == M.RESET_STATE
    {
      current, pending, hasPending := M.IDLE, M.IDLE, false;
    }

    method Activate()
      modifies this
      ensures View() == old(View()).(current := M.RUNNING)
    {
      current := M.RUNNING;
    }

    method Reset()
      modifies this
      ensures View() == M.RESET_STATE
    {
      current, pending, hasPending := M.IDLE, M.IDLE, false;
    }

    /** The guard, state by state as the source writes it. */
    method SetPendingState(desired: M.Stage)
      modifies this
      ensures View() == M.SetPending(old(View()), desired)
    {
      var accepted := false;
      match current.state {
        case Normal =>
          match current.sub {
            case NoSub =>
            case Running => accepted := desired == M.RAMP_START;
            case Finished =>
          }
        case RampDown =>
          match current.sub {
            case NoSub => accepted := desired == M.RAMPING;
            case Running => accepted := desired == M.STOPPED;
            case Finished => accepted := desired == M.RUNNING || desired == M.STATIC_START;
          }
        case StaticGoal =>
          match current.sub {
            case NoSub => accepted := desired == M.STATIC;
            case Running => accepted := desired == M.STATIC_END || desired == M.RAMP_START;
            case Finished => accepted := desired == M.RAMP_START;
          }
      }
      if accepted {
        pending := desired;
        hasPending := true;
      }
    }

    method UpdateState()
      modifies this
      ensures View() == M.UpdateState(old(View()))
    {
      if hasPending {
        current := pending;
        hasPending := false;
      }
    }
  }

  // ---------------------------------------------------------------- Trajectory

  class Trajectory {
    var points: seq<PointGoal>

    constructor (source: seq<PointGoal>)
      ensures points == source
    {
      var copied := [];
      var i := 0;
      while i < |source|
        invariant 0 <= i <= |source| && copied == source[..i]
      {
        copied := copied + [source[i]];
        i := i + 1;
      }
      points := copied;
    }

    method AddFront(p: PointGoal)
      modifies this
      ensures points == [p] + old(points)
    {
      points := [p] + points;
    }

    /** Pops the front; an empty trajectory leaves the target alone. */
    method RetrieveNext(target: PointGoal) returns (found: bool, p: PointGoal)
      modifies this
      ensures found <==> old(points) != []
      ensures found ==> old(points) == [p] + points
      ensures !found ==> p == target && points == old(points)
    {
      found, p := false, target;
      if points != [] {
        p := points[0];
        points := points[1..];
        found := true;
      }
    }
  }

  // ---------------------------------------------------------------- Motion step

  class MotionStep {
    var mode: Mode
    var timePassed: real
    var sampleTime: real
    var factor: real
    var feedback: Feedback
    var goal: Reference
    var point: PointGoal
    var references: Reference
    var conditions: Conditions
    var kind: SplineMethod
    const interpolator: EGMInterpolator

    ghost predicate Valid()
      reads this, interpolator
    {
      interpolator.Valid()
    }

    ghost function View(): M.MotionStep
      reads this, interpolator, interpolator.splines
    {
      M.MotionStep(mode, timePassed, sampleTime, factor, feedback, goal, point, references, interpolator.View(),
          conditions, kind)
    }

    constructor (method_: SplineMethod, memory: int)
      ensures Valid() && fresh(interpolator) && fresh(interpolator.splines)
      ensures View() == M.Initial(method_, memory).step
    {
      mode, timePassed, sampleTime, factor := JointMode, 0.0, LOWEST_SAMPLE_TIME, 1.0;
      feedback, goal, point, references := M.NO_FEEDBACK, EMPTY_REFERENCE, EMPTY_POINT, EMPTY_REFERENCE;
      conditions, kind := NO_CONDITIONS, method_;
      interpolator := new EGMInterpolator(memory);
    }

    method ResetMotionStep()
      modifies this
      ensures View() == M.ResetStep(old(View()))
    {
      goal := M.FromFeedback(feedback);
      point := EMPTY_POINT;
      timePassed := 0.0;
      mode := JointMode;
      references := goal;
    }

    /** Lay what the point gives over the goal. */
    method TransferPoint(k: Maths)
      modifies this`goal
      ensures goal == M.Transfer(k, old(goal), point)
    {
      hide Overlay, OverlayPose, OverlayVec;
      var jp := CopyPresent(goal.joints.position, point.joints.position);
      var jv := CopyPresent(goal.joints.velocity, point.joints.velocity);
      var ja := CopyPresent(goal.joints.acceleration, point.joints.acceleration);
      var ep := CopyPresent(goal.external.position, point.external.position);
      var ev := CopyPresent(goal.external.velocity, point.external.velocity);
      var ea := CopyPresent(goal.external.acceleration, point.external.acceleration);
      goal := goal.(joints := JointGoal(jp, jv, ja), external := JointGoal(ep, ev, ea));
      if point.cartesian.Some? {
        var c := point.cartesian.value;
        goal := goal.(position := OverlayVec(goal.position, c.pose.position),
                      linear := OverlayVec(goal.linear, c.velocity),
                      acceleration := OverlayVec(goal.acceleration, c.acceleration),
                      quaternion := OverlayPose(k, goal.quaternion, c.pose));
      }
    }

    /** One degree or millimetre per second, from the feedback to the goal. */
    method EstimateDuration(k: Maths) returns (estimate: real)
      modifies this`goal
      ensures goal == M.AtRest(old(goal), feedback)
      ensures estimate == M.EstimateDuration(k, old(goal), mode, feedback)
    {
      hide MaxDifference;
      estimate := 0.0;
      goal := M.AtRest(goal, feedback);
      var external := FindMaxDifference(goal.external.position, feedback.external.position);
      match mode {
        case JointMode =>
          var robot := FindMaxDifference(goal.joints.position, feedback.joints.position);
          estimate := Max(estimate, robot);
          estimate := Max(estimate, external);
        case PoseMode =>
          estimate := MaxDifference3(goal.position, feedback.position);
          estimate := Max(estimate, MaxDifference3(k.toEuler(goal.quaternion), feedback.euler));
          estimate := Max(estimate, external);
      }
    }

    method PrepareNormalGoal(k: Maths, last: bool)
      modifies this`mode, this`goal, this`conditions
      ensures View() == M.PrepareNormal(k, old(View()), last)
    {
      hide M.Transfer, M.AtRest, M.EstimateDuration;
      mode := M.GoalMode(point);
      goal := M.AtRest(goal, feedback).(reach := point.reach);
      TransferPoint(k);
      if last {
        goal := M.AtRest(goal, feedback).(reach := true);
      }
      var duration: real;
      if point.duration.Some? {
        duration := point.duration.value;
      } else {
        duration := EstimateDuration(k);
      }
      goal := goal.(duration := factor * duration);
      conditions := conditions.(mode := mode, duration := goal.duration, operation := NormalOp, kind := kind);
    }

    method PrepareRampDownGoal(stop: bool)
      modifies this`conditions
      ensures View() == M.PrepareRampDown(old(View()), stop)
    {
      conditions := conditions.(mode := mode, operation := RampDownOp);
      if stop {
        conditions := conditions.(duration := M.RAMP_DOWN_STOP_DURATION, rampDownFactor := 0.0);
      } else {
        conditions := conditions.(duration := M.RAMP_DOWN_STOP_DURATION / 2.0, rampDownFactor := 0.5);
      }
    }

    method PrepareStaticPosition(k: Maths, g: StaticPositionGoal, fast: bool)
      modifies this`mode, this`goal, this`conditions
      ensures View() == M.PreparePosition(k, old(View()), g, fast)
    {
      hide Overlay, OverlayPose, OverlayVec;
      mode := if g.cartesian.Some? then PoseMode else JointMode;
      goal := references;
      var jp := CopyPresent(goal.joints.position, g.joints);
      var ep := CopyPresent(goal.external.position, g.external);
      goal := goal.(joints := goal.joints.(position := jp), external := goal.external.(position := ep));
      if g.cartesian.Some? {
        goal := goal.(position := OverlayVec(goal.position, g.cartesian.value.position),
                      quaternion := OverlayPose(k, goal.quaternion, g.cartesian.value));
      }
      conditions := conditions.(mode := mode, operation := RampInPosition,
                                duration := if fast then M.STATIC_GOAL_DURATION_SHORT else M.STATIC_GOAL_DURATION);
    }

    method PrepareStaticVelocity(g: StaticVelocityGoal, fast: bool)
      modifies this`mode, this`goal, this`conditions
      ensures View() == M.PrepareVelocity(old(View()), g, fast)
    {
      hide Overlay, OverlayVec;
      mode := if g.cartesian.Some? then PoseMode else JointMode;
      goal := references;
      var jv := CopyPresent(goal.joints.velocity, g.joints);
      var ev := CopyPresent(goal.external.velocity, g.external);
      goal := goal.(joints := goal.joints.(velocity := jv), external := goal.external.(velocity := ev));
      if g.cartesian.Some? {
        goal := goal.(linear := OverlayVec(goal.linear, g.cartesian.value.linear),
                      angular := OverlayVec(goal.angular, g.cartesian.value.angular));
      }
      conditions := conditions.(mode := mode, operation := RampInVelocity,
                                duration := if fast then M.STATIC_GOAL_DURATION_SHORT else M.STATIC_GOAL_DURATION);
    }

    /** checkConditions on joints: stops at the first joint that is off. */
    static method CheckJoints(met: bool, a: seq<real>, b: seq<real>) returns (r: bool)
      ensures r <==> met && M.AllClose(a, b)
    {
      r := met;
      var i := 0;
      while r && i < |a| && i < |b|
        invariant 0 <= i <= |a| && i <= |b|
        invariant r ==> met && forall q :: 0 <= q < i ==> M.Close(a[q], b[q])
        invariant !r ==> !met || exists q :: 0 <= q < |a| && q < |b| && !M.Close(a[q], b[q])
      {
        r := M.Close(a[i], b[i]);
        i := i + 1;
      }
    }

    method ConditionMet() returns (met: bool)
      ensures met == M.ConditionMet(View())
    {
      hide M.AllClose, M.Close;
      met := true;
      match mode {
        case JointMode =>
          met := CheckJoints(met, goal.joints.position, feedback.joints.position);
        case PoseMode =>
          met := M.Close(goal.position.x, feedback.position.x) && M.Close(goal.position.y, feedback.position.y)
                 && M.Close(goal.position.z, feedback.position.z);
          met := met && Abs(Dot(goal.quaternion, feedback.quaternion)) >= 1.0;
      }
      met := CheckJoints(met, goal.external.position, feedback.external.position);
    }

    method InterpolationDurationReached() returns (reached: bool)
      ensures reached == M.DurationReached(View())
    {
      reached := interpolator.conditions.duration - timePassed < 0.5 * LOWEST_SAMPLE_TIME;
    }

    method UpdateInterpolator()
      requires Valid() && Sized(View())
      modifies this`timePassed, this`references, interpolator, interpolator.splines
      ensures Valid() && View() == M.UpdateInterpolator(old(View()))
    {
      hide Updated;
      timePassed := 0.0;
      references := references.(reach := goal.reach, duration := conditions.duration);
      interpolator.Update(references, goal, conditions);
    }

    method EvaluateInterpolator(k: Maths)
      requires Valid() && Shaped(references)
      requires UsesSplines(interpolator.conditions.operation) ==>
                 0 <= interpolator.offset && interpolator.offset + |references.external.position| <= SPLINES
      modifies this`timePassed, this`references
      ensures View() == M.EvaluateInterpolator(k, old(View()))
    {
      hide Evaluated;
      timePassed := timePassed + sampleTime;
      references := interpolator.Evaluate(k, references, sampleTime, timePassed);
    }
  }

  // ---------------------------------------------------------------- Controller

  class Controller {
    var mode: Mode
    var initial: Reference
    var normal: bool
    var linear: bool
    var transition: bool

    ghost function View(): M.Controller
      reads this
    {
      M.Controller(mode, initial, normal, linear)
    }

    constructor ()
      ensures View() == M.Controller(JointMode, EMPTY_REFERENCE, false, false)
    {
      mode, initial, normal, linear, transition := JointMode, EMPTY_REFERENCE, false, false, false;
    }

    method Update(state: M.State, step: MotionStep)
      modifies this
      ensures View() == M.UpdateController(state, step.View())
    {
      normal := state.Normal?;
      linear := step.kind.Linear?;
      mode := step.mode;
      initial := step.references;
    }

    /** calculate on joints: fade the references in place, follow them in the outputs. */
    method CalculateJoints(out: seq<real>, ref: seq<real>, fdb: seq<real>, start: seq<real>, a: real, b: real)
      returns (out': seq<real>, ref': seq<real>)
      ensures ref' == M.FadedJoints(out, ref, fdb, start, transition, linear, a, b)
      ensures out' == M.FollowedJoints(out, ref', fdb, start)
    {
      hide M.Faded, M.Followed;
      out', ref' := out, ref;
      ghost var n := M.Common(out, ref, fdb, start);
      var i := 0;
      while i < |out'| && i < |ref'| && i < |fdb| && i < |start|
        invariant 0 <= i <= n && |out'| == |out| && |ref'| == |ref|
        invariant forall q :: 0 <= q < |ref| ==>
                    ref'[q] == if q < i then M.Faded(ref[q], start[q], transition, linear, a, b) else ref[q]
        invariant forall q :: 0 <= q < |out| ==> out'[q] == if q < i then M.Followed(fdb[q], ref'[q]) else out[q]
      {
        ref' := ref'[i := M.Faded(ref'[i], start[i], transition, linear, a, b)];
        out' := out'[i := M.Followed(fdb[i], ref'[i])];
        i := i + 1;
      }
      assert ref' == M.FadedJoints(out, ref, fdb, start, transition, linear, a, b);
      assert out' == M.FollowedJoints(out, ref', fdb, start);
    }

    /** multiply on joints. */
    static method Multiply(s: seq<real>, a: real) returns (r: seq<real>)
      ensures r == M.Scaled(s, a)
    {
      r := s;
      var i := 0;
      while i < |r|
        invariant 0 <= i <= |s| && |r| == |s|
        invariant forall q :: 0 <= q < |s| ==> r[q] == if q < i then s[q] * a else s[q]
      {
        r := r[i := s[i] * a];
        i := i + 1;
      }
      assert forall q :: 0 <= q < |s| ==> r[q] == M.Scaled(s, a)[q];
    }

    /** checkForVelocityTransition: whether velocities fade, and the accelerations faded if so. */
    method CheckForVelocityTransition(r: Reference, a: real) returns (faded: Reference)
      requires !transition
      modifies this`transition
      ensures transition == M.Transition(View(), r)
      ensures faded == if transition then
                         r.(joints := r.joints.(acceleration := M.Scaled(r.joints.acceleration, a)),
                            external := r.external.(acceleration := M.Scaled(r.external.acceleration, a)),
                            acceleration := Scale3(a, r.acceleration))
                       else r
    {
      hide M.Scaled;
      if normal {
        transition := if r.reach then true else linear;
      }
      faded := r;
      if transition {
        var ja := Multiply(r.joints.acceleration, a);
        var ea := Multiply(r.external.acceleration, a);
        faded := faded.(joints := faded.joints.(acceleration := ja), acceleration := Scale3(a, r.acceleration),
                        external := faded.external.(acceleration := ea));
      }
    }

    /** calculate: outputs that follow the references, which are faded in place. */
    method Calculate(k: Maths, out: Output, step: MotionStep) returns (out': Output)
      modifies this`transition, step`references
      ensures View() == old(View())
      ensures step.references == M.FadedReferences(k, View(), out, old(step.View()))
      ensures out' == M.FollowedOutputs(k, View(), out, step.feedback, step.references)
    {
      hide M.FadedJoints, M.FollowedJoints, M.Faded, M.Followed, M.Scaled;
      var r0, f := step.references, step.feedback;
      var t := Progress(step.timePassed, r0.duration);
      var a := if r0.reach then k.RampOut(t) else 1.0;
      var b := k.RampUp(t);
      transition := false;
      out' := out.(euler := None);
      var r := r0;
      match mode {
        case JointMode =>
          var jp, _ := CalculateJoints(out.joints.position, r0.joints.position, f.joints.position,
              initial.joints.position, a, b);
          Unfaded(out.joints.position, r0.joints.position, f.joints.position, initial.joints.position, linear, a, b);
          var ep, _ := CalculateJoints(out.external.position, r0.external.position, f.external.position,
              initial.external.position, a, b);
          Unfaded(out.external.position, r0.external.position, f.external.position, initial.external.position,
                  linear, a, b);
          r := CheckForVelocityTransition(r0, a);
          var jv, rj := CalculateJoints(out.joints.velocity, r0.joints.velocity, f.joints.velocity,
              initial.joints.velocity, a, b);
          var ev, re := CalculateJoints(out.external.velocity, r0.external.velocity, f.external.velocity,
              initial.external.velocity, a, b);
          r := r.(joints := r.joints.(velocity := rj), external := r.external.(velocity := re));
          out' := out'.(joints := JointSpace(jp, jv), external := JointSpace(ep, ev));
        case PoseMode =>
          var ep, _ := CalculateJoints(out.external.position, r0.external.position, f.external.position,
              initial.external.position, a, b);
          Unfaded(out.external.position, r0.external.position, f.external.position, initial.external.position,
                  linear, a, b);
          out' := out'.(position := M.Followed3(f.position, r0.position),
                        quaternion := Normalize(k, MixQ(f.quaternion, r0.quaternion, 1.0)));
          r := CheckForVelocityTransition(r0, a);
          r := r.(linear := M.Faded3(r.linear, initial.linear, transition, linear, a, b));
          var ev, re := CalculateJoints(out.external.velocity, r0.external.velocity, f.external.velocity,
              initial.external.velocity, a, b);
          r := r.(external := r.external.(velocity := re),
                  angular := M.Faded3(r.angular, initial.angular, normal, true, a, b));
          out' := out'.(linear := M.Followed3(f.linear, r.linear), angular := M.Followed3(f.angular, r.angular),
                        external := JointSpace(ep, ev));
      }
      step.references := r;
    }
  }

  lemma Unfaded(out: seq<real>, ref: seq<real>, fdb: seq<real>, start: seq<real>, linear: bool, a: real, b: real)
    ensures M.FadedJoints(out, ref, fdb, start, false, linear, a, b) == ref
  {
  }
}
