/** The trajectory execution machine: every public method and every controller message is one
    atomic step of a machine whose state is a value. The class in TrajectoryMotion.dfy is proved
    against these functions. */
module Machine {
  import opened Numeric
  import opened Quaternions
  import opened Splines
  import opened Messages
  import opened Interpolation

  // ---------------------------------------------------------------- State manager

  datatype State = Normal | RampDown | StaticGoal

  datatype SubState = NoSub | Running | Finished

  datatype Stage = Stage(state: State, sub: SubState)

  datatype StateManager = StateManager(current: Stage, pending: Stage, hasPending: bool)

  const IDLE: Stage := Stage(Normal, NoSub)

  const RUNNING: Stage := Stage(Normal, Running)

  const RAMP_START: Stage := Stage(RampDown, NoSub)

  const RAMPING: Stage := Stage(RampDown, Running)

  const STOPPED: Stage := Stage(RampDown, Finished)

  const STATIC_START: Stage := Stage(StaticGoal, NoSub)

  const STATIC: Stage := Stage(StaticGoal, Running)

  const STATIC_END: Stage := Stage(StaticGoal, Finished)

  const RESET_STATE: StateManager := StateManager(IDLE, IDLE, false)

  /** The guard table of setPendingState. */
  predicate Legal(from: Stage, to: Stage) {
    || (from == RUNNING && to == RAMP_START)
    || (from == RAMP_START && to == RAMPING)
    || (from == RAMPING && to == STOPPED)
    || (from == STOPPED && (to == RUNNING || to == STATIC_START))
    || (from == STATIC_START && to == STATIC)
    || (from == STATIC && (to == STATIC_END || to == RAMP_START))
    || (from == STATIC_END && to == RAMP_START)
  }

  function SetPending(sm: StateManager, to: Stage): StateManager {
    if Legal(sm.current, to) then sm.(pending := to, hasPending := true) else sm
  }

  function UpdateState(sm: StateManager): StateManager {
    if sm.hasPending then sm.(current := sm.pending, hasPending := false) else sm
  }

  // ---------------------------------------------------------------- Pending events

  /** The flags are grouped by what they steer. */
  datatype RunEvents = RunEvents(stop: bool, resume: bool, discard: bool, rampDown: bool)

  datatype StaticEvents = StaticEvents(start: bool, fast: bool, position: bool, velocity: bool, finish: bool)

  datatype Events = Events(
    run: RunEvents,
    still: StaticEvents,
    positionGoal: StaticPositionGoal,
    velocityGoal: StaticVelocityGoal,
    factorUpdate: bool,
    factor: real)

  const NO_POSITION_GOAL: StaticPositionGoal := StaticPositionGoal([], None, [])

  const NO_VELOCITY_GOAL: StaticVelocityGoal := StaticVelocityGoal([], None, [])

  const NO_EVENTS: Events :=
    Events(RunEvents(false, false, false, false), StaticEvents(false, false, false, false, false),
           NO_POSITION_GOAL, NO_VELOCITY_GOAL, false, 1.0)

  const DURATION_FACTOR_MIN: real := 1.0

  const DURATION_FACTOR_MAX: real := 5.0

  // ---------------------------------------------------------------- Motion step

  const CONDITION: real := 0.005

  const RAMP_DOWN_STOP_DURATION: real := 1.0

  const STATIC_GOAL_DURATION: real := 5.0

  const STATIC_GOAL_DURATION_SHORT: real := 0.1

  datatype MotionStep = MotionStep(
    mode: Mode,
    timePassed: real,
    sampleTime: real,
    factor: real,
    feedback: Feedback,
    goal: Reference,
    point: PointGoal,
    references: Reference,
    interpolator: Interpolator,
    conditions: Conditions,
    kind: SplineMethod)

  /** Zero rates for as many joints as the feedback has. */
  function AtRest(g: Reference, f: Feedback): Reference {
    g.(joints := g.joints.(velocity := Zeros(|f.joints.position|), acceleration := Zeros(|f.joints.position|)),
       external := g.external.(velocity := Zeros(|f.external.position|), acceleration := Zeros(|f.external.position|)),
       linear := ZERO3, acceleration := ZERO3, angular := ZERO3)
  }

  function FromFeedback(f: Feedback): Reference {
    AtRest(
      Reference(JointGoal(f.joints.position, [], []), f.position, ZERO3, ZERO3, f.quaternion, ZERO3,
                JointGoal(f.external.position, [], []), false, 0.0),
      f)
  }

  function ResetStep(s: MotionStep): MotionStep {
    s.(goal := FromFeedback(s.feedback), references := FromFeedback(s.feedback), point := EMPTY_POINT,
       timePassed := 0.0, mode := JointMode)
  }

  function Transfer(k: Maths, g: Reference, p: PointGoal): Reference {
    var jointed := g.(joints := OverlayJoints(g.joints, p.joints), external := OverlayJoints(g.external, p.external));
    if p.cartesian.None? then jointed
    else
      var c := p.cartesian.value;
      jointed.(position := OverlayVec(g.position, c.pose.position),
               linear := OverlayVec(g.linear, c.velocity),
               acceleration := OverlayVec(g.acceleration, c.acceleration),
               quaternion := OverlayPose(k, g.quaternion, c.pose))
  }

  function EstimateDuration(k: Maths, g: Reference, mode: Mode, f: Feedback): real {
    var external := MaxDifference(g.external.position, f.external.position);
    match mode
    case JointMode => Max(Max(0.0, MaxDifference(g.joints.position, f.joints.position)), external)
    case PoseMode =>
      Max(Max(MaxDifference3(g.position, f.position), MaxDifference3(k.toEuler(g.quaternion), f.euler)), external)
  }

  function GoalMode(p: PointGoal): Mode { if p.cartesian.Some? then PoseMode else JointMode }

  function NormalGoal(k: Maths, s: MotionStep, last: bool): Reference {
    var p := s.point;
    var g := Transfer(k, AtRest(s.goal, s.feedback).(reach := p.reach), p);
    var settled := if last then AtRest(g, s.feedback).(reach := true) else g;
    if p.duration.Some? then
      settled.(duration := s.factor * p.duration.value)
    else
      AtRest(settled, s.feedback).(duration := s.factor * EstimateDuration(k, settled, GoalMode(p), s.feedback))
  }

  function PrepareNormal(k: Maths, s: MotionStep, last: bool): MotionStep {
    var g := NormalGoal(k, s, last);
    s.(mode := GoalMode(s.point), goal := g,
       conditions := s.conditions.(mode := GoalMode(s.point), duration := g.duration, operation := NormalOp,
           kind := s.kind))
  }

  function PrepareRampDown(s: MotionStep, stop: bool): MotionStep {
    s.(conditions := s.conditions.(
         mode := s.mode, operation := RampDownOp,
         duration := if stop then RAMP_DOWN_STOP_DURATION else RAMP_DOWN_STOP_DURATION / 2.0,
         rampDownFactor := if stop then 0.0 else 0.5))
  }

  function StaticConditions(s: MotionStep, mode: Mode, fast: bool, op: Operation): Conditions {
    s.conditions.(mode := mode, operation := op,
                  duration := if fast then STATIC_GOAL_DURATION_SHORT else STATIC_GOAL_DURATION)
  }

  function PreparePosition(k: Maths, s: MotionStep, g: StaticPositionGoal, fast: bool): MotionStep {
    var mode := if g.cartesian.Some? then PoseMode else JointMode;
    var r := s.references;
    var moved := r.(joints := r.joints.(position := Overlay(r.joints.position, g.joints)),
                    external := r.external.(position := Overlay(r.external.position, g.external)));
    s.(mode := mode,
       goal := if g.cartesian.None? then moved
               else moved.(position := OverlayVec(r.position, g.cartesian.value.position),
                           quaternion := OverlayPose(k, r.quaternion, g.cartesian.value)),
       conditions := StaticConditions(s, mode, fast, RampInPosition))
  }

  function PrepareVelocity(s: MotionStep, g: StaticVelocityGoal, fast: bool): MotionStep {
    var mode := if g.cartesian.Some? then PoseMode else JointMode;
    var r := s.references;
    var moved := r.(joints := r.joints.(velocity := Overlay(r.joints.velocity, g.joints)),
                    external := r.external.(velocity := Overlay(r.external.velocity, g.external)));
    s.(mode := mode,
       goal := if g.cartesian.None? then moved
               else moved.(linear := OverlayVec(r.linear, g.cartesian.value.linear),
                           angular := OverlayVec(r.angular, g.cartesian.value.angular)),
       conditions := StaticConditions(s, mode, fast, RampInVelocity))
  }

  predicate Close(a: real, b: real) { Abs(a - b) < CONDITION }

  predicate AllClose(a: seq<real>, b: seq<real>) {
    forall i :: 0 <= i < |a| && i < |b| ==> Close(a[i], b[i])
  }

  /** The prepared goal is already met by the feedback. */
  predicate ConditionMet(s: MotionStep) {
    var g, f := s.goal, s.feedback;
    && (s.mode.JointMode? ==> AllClose(g.joints.position, f.joints.position))
    && (s.mode.PoseMode? ==>
          && Close(g.position.x, f.position.x) && Close(g.position.y, f.position.y) && Close(g.position.z, f.position.z)
          && Abs(Dot(g.quaternion, f.quaternion)) >= 1.0)
    && AllClose(g.external.position, f.external.position)
  }

  predicate DurationReached(s: MotionStep) {
    s.interpolator.conditions.duration - s.timePassed < 0.5 * LOWEST_SAMPLE_TIME
  }

  function UpdateInterpolator(s: MotionStep): MotionStep {
    var r := s.references.(reach := s.goal.reach, duration := s.conditions.duration);
    s.(timePassed := 0.0, references := r, interpolator := Updated(s.interpolator, r, s.goal, s.conditions))
  }

  function EvaluateInterpolator(k: Maths, s: MotionStep): MotionStep {
    var t := s.timePassed + s.sampleTime;
    s.(timePassed := t, references := Evaluated(k, s.interpolator, s.references, s.sampleTime, t))
  }

  // ---------------------------------------------------------------- Controller

  datatype Controller = Controller(mode: Mode, initial: Reference, normal: bool, linear: bool)

  function UpdateController(state: State, s: MotionStep): Controller {
    Controller(s.mode, s.references, state.Normal?, s.kind.Linear?)
  }

  /** How a velocity reference is faded: untouched, faded out by a, or (linear interpolation)
      faded in from the start value by b and out by a. */
  function Faded(v: real, start: real, transition: bool, linear: bool, a: real, b: real): real {
    if !transition then v else if linear then a * Mix(start, v, b) else a * v
  }

  function Common(out: seq<real>, ref: seq<real>, fdb: seq<real>, start: seq<real>): int {
    Min(Min(|out|, |ref|), Min(|fdb|, |start|))
  }

  function FadedJoints(out: seq<real>, ref: seq<real>, fdb: seq<real>, start: seq<real>,
                       transition: bool, linear: bool, a: real, b: real): seq<real> {
    var n := Common(out, ref, fdb, start);
    seq(|ref|, i requires 0 <= i < |ref| => if i < n then Faded(ref[i], start[i], transition, linear, a, b) else ref[i])
  }

  /** The proportional law with gain 1: the output is the reference. */
  function Followed(fdb: real, ref: real): real { fdb + 1.0 * (ref - fdb) }

  function FollowedJoints(out: seq<real>, ref: seq<real>, fdb: seq<real>, start: seq<real>): seq<real> {
    var n := Common(out, ref, fdb, start);
    seq(|out|, i requires 0 <= i < |out| => if i < n then Followed(fdb[i], ref[i]) else out[i])
  }

  function Scaled(s: seq<real>, a: real): seq<real> { seq(|s|, i requires 0 <= i < |s| => s[i] * a) }

  function Faded3(v: Vec3, start: Vec3, transition: bool, linear: bool, a: real, b: real): Vec3 {
    Vec3(Faded(v.x, start.x, transition, linear, a, b), Faded(v.y, start.y, transition, linear, a, b),
         Faded(v.z, start.z, transition, linear, a, b))
  }

  function Followed3(fdb: Vec3, ref: Vec3): Vec3 {
    Vec3(Followed(fdb.x, ref.x), Followed(fdb.y, ref.y), Followed(fdb.z, ref.z))
  }

  predicate Transition(c: Controller, r: Reference) { c.normal && (r.reach || c.linear) }

  function FadeOut(k: Maths, s: MotionStep): real {
    if s.references.reach then k.RampOut(Progress(s.timePassed, s.references.duration)) else 1.0
  }

  function FadeIn(k: Maths, s: MotionStep): real { k.RampUp(Progress(s.timePassed, s.references.duration)) }

  /** The references after the controller has faded them in place. */
  function FadedReferences(k: Maths, c: Controller, out: Output, s: MotionStep): Reference {
    var r, f, i0 := s.references, s.feedback, c.initial;
    var go, a, b := Transition(c, r), FadeOut(k, s), FadeIn(k, s);
    var ramped :=
      if go then
        r.(joints := r.joints.(acceleration := Scaled(r.joints.acceleration, a)),
           external := r.external.(acceleration := Scaled(r.external.acceleration, a)),
           acceleration := Scale3(a, r.acceleration))
      else r;
    var outer := ramped.(external := ramped.external.(velocity :=
      FadedJoints(out.external.velocity, r.external.velocity, f.external.velocity, i0.external.velocity, go, c.linear,
          a, b)));
    match c.mode
    case JointMode =>
      outer.(joints := ramped.joints.(velocity :=
        FadedJoints(out.joints.velocity, r.joints.velocity, f.joints.velocity, i0.joints.velocity, go, c.linear, a, b)))
    case PoseMode =>
      outer.(linear := Faded3(r.linear, i0.linear, go, c.linear, a, b),
             angular := Faded3(r.angular, i0.angular, c.normal, true, a, b))
  }

  /** The outputs for the faded references r. */
  function FollowedOutputs(k: Maths, c: Controller, out: Output, f: Feedback, r: Reference): Output {
    var i0 := c.initial;
    var outer := out.(euler := None, external := JointSpace(
      FollowedJoints(out.external.position, r.external.position, f.external.position, i0.external.position),
      FollowedJoints(out.external.velocity, r.external.velocity, f.external.velocity, i0.external.velocity)));
    match c.mode
    case JointMode =>
      outer.(joints := JointSpace(
        FollowedJoints(out.joints.position, r.joints.position, f.joints.position, i0.joints.position),
        FollowedJoints(out.joints.velocity, r.joints.velocity, f.joints.velocity, i0.joints.velocity)))
    case PoseMode =>
      outer.(position := Followed3(f.position, r.position),
             quaternion := Normalize(k, MixQ(f.quaternion, r.quaternion, 1.0)),
             linear := Followed3(f.linear, r.linear),
             angular := Followed3(f.angular, r.angular))
  }

  // ---------------------------------------------------------------- The machine

  /** The points still to be dispatched. */
  type Trajectory = seq<PointGoal>

  datatype Motion = Motion(
    sm: StateManager,
    events: Events,
    hasNew: bool,
    hasActive: bool,
    step: MotionStep,
    controller: Controller,
    primary: seq<Trajectory>,
    temporary: seq<Trajectory>,
    current: Option<Trajectory>,
    outputs: Output)

  /** One message of the robot controller. */
  datatype Input = Input(first: bool, ok: bool, sampleTime: real, feedback: Feedback)

  // ---------------------------------------------------------------- Goal handling

  /** Pop points until one is not already met, or none is left. Returns the step prepared for the
      last popped point, the points left and whether that point is to be executed. */
  function Dispatch(k: Maths, s: MotionStep, rest: Trajectory, last: bool): (MotionStep, Trajectory, bool)
    decreases |rest|
  {
    var prepared := PrepareNormal(k, s, last);
    if !ConditionMet(prepared) then (prepared, rest, true)
    else if rest == [] then (prepared, rest, false)
    else Dispatch(k, prepared.(point := rest[0]), rest[1..], last)
  }

  /** A point that need not be reached is executed unconditionally. */
  function Advanced(k: Maths, s: MotionStep, points: Trajectory): (MotionStep, Trajectory, bool)
    requires points != []
  {
    var s' := s.(point := points[0]);
    var rest := points[1..];
    if points[0].reach then Dispatch(k, s', rest, rest == []) else (PrepareNormal(k, s', rest == []), rest, true)
  }

  function UpdateNormalGoal(k: Maths, m: Motion): Motion {
    if m.current.None? then m.(hasNew := false, hasActive := false)
    else if m.current.value == [] then m.(current := None, hasNew := false, hasActive := false)
    else
      var (s, rest, go) := Advanced(k, m.step, m.current.value);
      m.(step := s, current := if go || rest != [] then Some(rest) else None, hasNew := go, hasActive := go)
  }

  /** The point with its remaining duration. */
  function Remainder(s: MotionStep): PointGoal {
    s.point.(duration := Some(Max(LOWEST_SAMPLE_TIME, s.goal.duration - s.timePassed)))
  }

  function StoreNormalGoal(m: Motion): Motion {
    if m.current.None? then m
    else m.(step := m.step.(point := Remainder(m.step)), current := Some([Remainder(m.step)] + m.current.value))
  }

  // ---------------------------------------------------------------- States

  function Pend(m: Motion, to: Stage): Motion { m.(sm := SetPending(m.sm, to)) }

  function ProcessNormal(k: Maths, m: Motion): Motion {
    if !m.sm.current.sub.Running? then m
    else if m.events.run.rampDown then Pend(m, RAMP_START)
    else if m.current.Some? then
      if DurationReached(m.step) && (m.step.goal.reach ==> ConditionMet(m.step)) then UpdateNormalGoal(k, m) else m
    else if m.primary != [] then
      UpdateNormalGoal(k, m.(current := Some(m.primary[0]), primary := m.primary[1..]))
    else m
  }

  function BeginRampDown(m: Motion): Motion {
    var prepared := m.(step := PrepareRampDown(m.step, m.events.run.stop));
    var stored := if m.hasActive then StoreNormalGoal(prepared) else prepared;
    Pend(stored.(hasNew := true, hasActive := true), RAMPING)
  }

  function ApplyFactor(m: Motion): Motion {
    if m.events.factorUpdate
    then m.(step := m.step.(factor := m.events.factor), events := m.events.(factorUpdate := false))
    else m
  }

  function ApplyDiscard(m: Motion): Motion {
    if m.events.run.discard
    then m.(current := None, primary := m.temporary, temporary := [],
            events := m.events.(run := m.events.run.(discard := false)))
    else m
  }

  /** The flags once a stop has been resumed, or a mere slow-down has ended. */
  function Released(e: RunEvents): RunEvents {
    if e.stop then RunEvents(false, false, e.discard, false) else e.(rampDown := false)
  }

  function EndRampDown(k: Maths, m: Motion): Motion {
    var e := m.events;
    var released := m.(events := e.(run := Released(e.run)));
    if e.run.stop && !e.run.resume then m
    else if e.run.stop && e.still.start then Pend(released, STATIC_START)
    else Pend(UpdateNormalGoal(k, released), RUNNING)
  }

  function ProcessRampDown(k: Maths, m: Motion): Motion {
    match m.sm.current.sub
    case NoSub => BeginRampDown(m)
    case Running => if DurationReached(m.step) then Pend(m, STOPPED) else m
    case Finished => EndRampDown(k, ApplyDiscard(ApplyFactor(m)))
  }

  function BeginStatic(m: Motion): Motion {
    var parked := if m.current.Some? then m.(primary := [m.current.value] + m.primary, current := None) else m;
    Pend(parked.(hasActive := false), STATIC)
  }

  function ApplyStatic(k: Maths, m: Motion): Motion {
    var e := m.events;
    if e.still.position && !e.run.rampDown then
      m.(step := PreparePosition(k, m.step, e.positionGoal, e.still.fast),
         events := e.(positionGoal := NO_POSITION_GOAL, still := e.still.(position := false)),
         hasNew := true, hasActive := true)
    else if e.still.velocity && !e.run.rampDown then
      m.(step := PrepareVelocity(m.step, e.velocityGoal, e.still.fast),
         events := e.(velocityGoal := NO_VELOCITY_GOAL, still := e.still.(velocity := false)),
         hasNew := true, hasActive := true)
    else m
  }

  function RunStatic(k: Maths, m: Motion): Motion {
    var applied := ApplyStatic(k, m);
    if m.events.still.finish then Pend(applied, STATIC_END)
    else if m.events.run.rampDown then Pend(applied, RAMP_START)
    else applied
  }

  function EndStatic(m: Motion): Motion {
    var e := m.events;
    Pend(m.(events := e.(still := StaticEvents(false, e.still.fast, false, false, false),
                         run := e.run.(rampDown := true, stop := true))),
         RAMP_START)
  }

  function ProcessStatic(k: Maths, m: Motion): Motion {
    match m.sm.current.sub
    case NoSub => BeginStatic(m)
    case Running => RunStatic(k, m)
    case Finished => EndStatic(m)
  }

  function Process(k: Maths, m: Motion): Motion {
    match m.sm.current.state
    case Normal => ProcessNormal(k, m)
    case RampDown => ProcessRampDown(k, m)
    case StaticGoal => ProcessStatic(k, m)
  }

  // ---------------------------------------------------------------- Messages from the controller

  /** resetTrajectoryMotion, resetMotionStep and resetStateManager. Pending events survive. */
  function ResetMotion(m: Motion): Motion {
    var stored := StoreNormalGoal(m);
    var parked := if m.current.Some? then stored.(primary := [stored.current.value] + m.primary, current := None)
        else m;
    parked.(hasActive := false, hasNew := false, step := ResetStep(parked.step), sm := RESET_STATE)
  }

  /** prepareOutputs: the first message of a session makes the outputs the feedback, at rest. */
  function OpeningOutputs(f: Feedback): Output {
    Output(JointSpace(f.joints.position, Zeros(|f.joints.velocity|)), f.position, f.quaternion, Some(f.euler),
           ZERO3, ZERO3, JointSpace(f.external.position, Zeros(|f.external.velocity|)))
  }

  function Receive(m: Motion, i: Input): Motion {
    m.(step := m.step.(sampleTime := i.sampleTime, feedback := i.feedback),
       outputs := if i.first then OpeningOutputs(i.feedback) else m.outputs)
  }

  function Prepare(m: Motion, i: Input): Motion {
    var received := Receive(m, i);
    var begun := if i.first then ResetMotion(received) else received;
    var ready :=
      if i.ok then
        if begun.sm.current == IDLE then begun.(sm := begun.sm.(current := RUNNING)) else begun
      else
        if begun.sm.current != IDLE then ResetMotion(begun).(primary := [], temporary := []) else begun;
    ready.(hasNew := false)
  }

  /** Refit the interpolator for a new goal. */
  function Refit(m: Motion): Motion {
    if m.hasNew then
      var s := UpdateInterpolator(m.step);
      m.(step := s, controller := UpdateController(m.sm.current.state, s))
    else m
  }

  /** Evaluate the interpolator and write the outputs. */
  function Emit(k: Maths, m: Motion): Motion {
    if m.hasActive then
      var s := EvaluateInterpolator(k, m.step);
      var r := FadedReferences(k, m.controller, m.outputs, s);
      m.(step := s.(references := r), outputs := FollowedOutputs(k, m.controller, m.outputs, s.feedback, r))
    else m
  }

  function Advance1(m: Motion): Motion { m.(sm := UpdateState(m.sm)) }

  /** prepareOutputs and generateOutputs. */
  function Tick(k: Maths, m: Motion, i: Input): Motion {
    var p := Prepare(m, i);
    if i.ok then Emit(k, Refit(Process(k, Advance1(p)))) else p
  }

  // ---------------------------------------------------------------- User commands

  datatype Action =
    | Message(input: Input)
    | AddTrajectory(points: Trajectory, override: bool)
    | StopTrajectory(discard: bool)
    | ResumeTrajectory
    | UpdateDurationFactor(factor: real)
    | StartStaticGoal(discardAll: bool)
    | SetStaticPosition(position: StaticPositionGoal, fast: bool)
    | SetStaticVelocity(velocity: StaticVelocityGoal, fastVelocity: bool)
    | FinishStaticGoal(resume: bool)
    | Configure(kind: SplineMethod)

  /** The stage in which a command is accepted. */
  function AcceptingStage(a: Action): Option<Stage> {
    match a
    case AddTrajectory(_, _) => Some(RUNNING)
    case StopTrajectory(_) => Some(RUNNING)
    case UpdateDurationFactor(_) => Some(RUNNING)
    case StartStaticGoal(_) => Some(RUNNING)
    case ResumeTrajectory => Some(STOPPED)
    case SetStaticPosition(_, _) => Some(STATIC)
    case SetStaticVelocity(_, _) => Some(STATIC)
    case FinishStaticGoal(_) => Some(STATIC)
    case Message(_) => None
    case Configure(_) => None
  }

  predicate Accepted(m: Motion, a: Action) { AcceptingStage(a) == Some(m.sm.current) }

  function AddAccepted(m: Motion, points: Trajectory, override: bool): Motion {
    if override then m.(temporary := [points], events := m.events.(run := RunEvents(true, true, true, true)))
    else if m.events.run.discard then m.(temporary := m.temporary + [points])
    else m.(primary := m.primary + [points])
  }

  /** The effect of an accepted command. */
  function Command(m: Motion, a: Action): Motion {
    var e := m.events;
    match a
    case AddTrajectory(points, override) => AddAccepted(m, points, override)
    case StopTrajectory(discard) =>
      m.(events := e.(run := RunEvents(true, e.run.resume, discard, true)))
    case ResumeTrajectory =>
      m.(events := e.(run := e.run.(resume := true)))
    case UpdateDurationFactor(f) =>
      m.(events := e.(run := e.run.(rampDown := true), factorUpdate := true,
                      factor := Saturate(f, DURATION_FACTOR_MIN, DURATION_FACTOR_MAX)))
    case StartStaticGoal(discard) =>
      m.(events := e.(run := RunEvents(true, true, discard, true), still := e.still.(start := true)))
    case SetStaticPosition(g, fast) =>
      m.(events := e.(run := RunEvents(!fast, true, e.run.discard, !fast),
                      still := e.still.(fast := fast, position := true, velocity := false), positionGoal := g))
    case SetStaticVelocity(g, fast) =>
      m.(events := e.(run := RunEvents(!fast, true, e.run.discard, !fast),
                      still := e.still.(fast := fast, velocity := true, position := false), velocityGoal := g))
    case FinishStaticGoal(resume) =>
      m.(events := e.(still := e.still.(finish := true), run := e.run.(resume := resume)))
    case _ => m
  }

  /** One atomic step; a rejected command changes nothing. */
  function Do(k: Maths, m: Motion, a: Action): Motion {
    match a
    case Message(i) => Tick(k, m, i)
    case Configure(kind) => m.(step := m.step.(kind := kind))
    case _ => if Accepted(m, a) then Command(m, a) else m
  }

  function Run(k: Maths, m: Motion, acts: seq<Action>): Motion
    decreases |acts|
  {
    if acts == [] then m else Run(k, Do(k, m, acts[0]), acts[1..])
  }

  // ---------------------------------------------------------------- Start

  const NO_FEEDBACK: Feedback :=
    Feedback(JointSpace([], []), ZERO3, NO_ROTATION, ZERO3, ZERO3, ZERO3, JointSpace([], []))

  const NO_OUTPUT: Output :=
    Output(JointSpace([], []), ZERO3, NO_ROTATION, None, ZERO3, ZERO3, JointSpace([], []))

  function NewInterpolator(offset: int): Interpolator {
    Interpolator(
      seq(SPLINES, _ => FLAT), offset, Slerp(Quaternion(1.0, 0.0, 0.0, 0.0), Quaternion(1.0, 0.0, 0.0, 0.0), 0.0),
      SoftRamp(0.0, RampDownOp, EMPTY_REFERENCE, EMPTY_REFERENCE, ZERO3), NO_CONDITIONS)
  }

  /** The constructed machine. The source leaves the interpolator's offset uninitialised, so it is
      an arbitrary number here. */
  function Initial(kind: SplineMethod, offset: int): Motion {
    Motion(
      RESET_STATE, NO_EVENTS, false, false,
      MotionStep(JointMode, 0.0, LOWEST_SAMPLE_TIME, 1.0, NO_FEEDBACK, EMPTY_REFERENCE, EMPTY_POINT, EMPTY_REFERENCE,
                 NewInterpolator(offset), NO_CONDITIONS, kind),
      Controller(JointMode, EMPTY_REFERENCE, false, false), [], [], None, NO_OUTPUT)
  }

  lemma {:induction false} RunConcat(k: Maths, m: Motion, a: seq<Action>, b: seq<Action>)
    ensures Run(k, m, a + b) == Run(k, Run(k, m, a), b)
    decreases |a|
  {
    if a == [] {
      assert a + b == b;
    } else {
      assert (a + b)[1..] == a[1..] + b;
      RunConcat(k, Do(k, m, a[0]), a[1..], b);
    }
  }
}
