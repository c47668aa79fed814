/** The main results once more, from construction on: what holds in every run. */
module Guarantees {
  import opened Numeric
  import opened Quaternions
  import opened Splines
  import opened Interpolation
  import opened Machine
  import opened Soundness
  import opened Conservation
  import opened Stopping
  import opened Overrides
  import opened Sizing
  import opened Splicing
  import opened References

  /** A constructed machine after any commands, in any order, and any messages that keep a session's
      number of joints. */
  ghost predicate Reachable(k: Maths, m: Motion, kind: SplineMethod, offset: int, past: seq<Action>) {
    AllAcceptable(k, Initial(kind, offset), past) && m == Run(k, Initial(kind, offset), past)
  }

  lemma ReachableInv(k: Maths, m: Motion, kind: SplineMethod, offset: int, past: seq<Action>)
    requires Reachable(k, m, kind, offset, past)
    ensures Inv(m) && Sized(m.step) && Shaped(m.step.references)
  {
    hide Inv, Sized, Run, AllAcceptable, Shaped;
    InitialInv(kind, offset);
    InitialSized(kind, offset);
    RunInv(k, Initial(kind, offset), past);
    RunSized(k, Initial(kind, offset), past);
  }

  /** The state machine and its bookkeeping, for every interleaving and every message whatsoever:
      the stage that must not occur does not, a pending stage is a legal successor, a goal is active
      in the normal state exactly if there is a current trajectory, there is none in the static
      state, a new goal is active, the interpolator holds the active goal with all its slots, and the
      factor is within its limits. */
  lemma EveryRunIsSound(k: Maths, kind: SplineMethod, offset: int, acts: seq<Action>)
    ensures var m := Run(k, Initial(kind, offset), acts);
            && m.sm.current != Stage(Normal, Finished)
            && (m.sm.hasPending ==> Legal(m.sm.current, m.sm.pending))
            && (m.sm.current.state.Normal? ==> (m.hasActive <==> m.current.Some?))
            && (m.sm.current.state.StaticGoal? ==> m.current.None?)
            && (m.hasNew ==> m.hasActive)
            && (m.hasActive ==>
                  m.step.interpolator == Updated(m.step.interpolator, m.controller.initial, m.step.goal,
                      m.step.conditions))
            && (m.hasActive && UsesSplines(m.step.conditions.operation) ==>
                  m.step.interpolator.offset == |m.step.references.joints.position|)
            && 1.0 <= m.step.factor <= 5.0
  {
    hide Run, Clamped, Updated, OnCourse;
    InitialCourse(kind, offset);
    RunKeepsCourse(k, Initial(kind, offset), acts);
  }

  /** The branches marked as never occurring: whatever came before, an OK message is processed in a
      stage other than (Normal, None) and (Normal, Finished). */
  lemma EveryStageIsLive(k: Maths, kind: SplineMethod, offset: int, acts: seq<Action>, i: Input)
    requires i.ok
    ensures var e := Advance1(Prepare(Run(k, Initial(kind, offset), acts), i));
            e.sm.current.state.Normal? ==> e.sm.current.sub.Running?
  {
    hide Run, Prepare, Inv, FittedInv, FactorInv;
    var m := Run(k, Initial(kind, offset), acts);
    InitialInv(kind, offset);
    RunInv(k, Initial(kind, offset), acts);
    PrepareInv(m, i);
    EnterInv(Prepare(m, i));
    var s := Advance1(Prepare(m, i)).sm.current;
    assert s == Stage(s.state, s.sub);
  }

  // ---------------------------------------------------------------- What is sent

  /** As Reachable, with sessions that keep their joints. */
  ghost predicate ReachableSteadily(k: Maths, m: Motion, kind: SplineMethod, offset: int, past: seq<Action>) {
    AllSteady(k, Initial(kind, offset), past) && m == Run(k, Initial(kind, offset), past)
  }

  lemma SteadilyReachable(k: Maths, m: Motion, kind: SplineMethod, offset: int, past: seq<Action>)
    requires ReachableSteadily(k, m, kind, offset, past)
    ensures Reachable(k, m, kind, offset, past) && CourseInv(m) && Level(m) && Sent(m)
  {
    hide Run, AllSteady, AllAcceptable, CourseInv, Level, Sent;
    InitialCourse(kind, offset);
    SteadyIsAcceptable(k, Initial(kind, offset), past);
    RunSends(k, Initial(kind, offset), past);
  }

  /** In every run: while a joint goal is active, what is sent for each joint is the polynomial fitted
      from its start to its goal, at the time passed; from the end of its duration on, a normal goal's
      joints are sent exactly. */
  lemma EveryJointFollowsItsGoal(k: Maths, m: Motion, kind: SplineMethod, offset: int, past: seq<Action>)
    requires ReachableSteadily(k, m, kind, offset, past) && m.hasActive
    requires UsesSplines(m.step.conditions.operation) && m.step.conditions.mode.JointMode?
    ensures var c, g, start, o := m.step.conditions, m.step.goal, m.controller.initial, m.outputs;
            var t := Saturate(m.step.timePassed, 0.0, Clamped(c).duration);
            && |o.joints.position| == |start.joints.position| && |o.external.position| == |start.external.position|
            && (forall j :: 0 <= j < |o.joints.position| ==>
                  o.joints.position[j] == AxisFit(c, JointBoundary(start.joints, g.joints, j)).Position(t))
            && (forall j :: 0 <= j < |o.external.position| ==>
                  o.external.position[j] == AxisFit(c, JointBoundary(start.external, g.external, j)).Position(t))
            && (c.operation.NormalOp? && m.step.timePassed >= Clamped(c).duration ==>
                  o.joints.position == g.joints.position && o.external.position == g.external.position)
  {
    SteadilyReachable(k, m, kind, offset, past);
    ReachableInv(k, m, kind, offset, past);
    JointsFollowGoal(m);
    hide Inv, Sized, Shaped, Reachable, ReachableSteadily, Updated, AxisFit, OnCourse, Polynomial.Position;
  }

  /** In every run: a held stop holds what is sent. From the message that reaches the stop on, the
      joints (or the position) sent are the same, with all their velocities zero. */
  lemma EveryHeldStopIsSent(k: Maths, m: Motion, kind: SplineMethod, offset: int, past: seq<Action>, acts: seq<Action>)
    requires ReachableSteadily(k, m, kind, offset, past) && Held(m)
    requires Uninterrupted(acts) && Patient(k, m, acts) && AllSteady(k, m, acts)
    ensures var o, o' := m.outputs, Run(k, m, acts).outputs;
            && o'.external == o.external && Zero(o'.external.velocity)
            && (m.controller.mode.JointMode? ==> o'.joints == o.joints && Zero(o'.joints.velocity))
            && (m.controller.mode.PoseMode? ==> o'.position == o.position && o'.linear == ZERO3)
  {
    hide Run, AllSteady, Patient, Uninterrupted, Level, Inv, OnCourse, ReachableSteadily, Held, StillHeld, Sent,
         FitInv, Zero;
    SteadilyReachable(k, m, kind, offset, past);
    RunSends(k, m, acts);
    HeldRun(k, m, acts);
    HeldOutputs(m, Run(k, m, acts));
  }

  lemma HeldOutputs(m: Motion, m': Motion)
    requires Held(m) && StillHeld(m, m') && FitInv(m) && FitInv(m') && Sent(m) && Sent(m')
    ensures var o, o' := m.outputs, m'.outputs;
            && o'.external == o.external && Zero(o'.external.velocity)
            && (m.controller.mode.JointMode? ==> o'.joints == o.joints && Zero(o'.joints.velocity))
            && (m.controller.mode.PoseMode? ==> o'.position == o.position && o'.linear == ZERO3)
  {
    hide Updated, Inv, Ramping, Settled, SameLengths;
    HeldMode(m);
    HeldMode(m');
  }

  predicate Zero(v: seq<real>) { forall i :: 0 <= i < |v| ==> v[i] == 0.0 }

  lemma HeldMode(m: Motion)
    requires Held(m) && FitInv(m)
    ensures m.hasActive && m.controller.mode == m.step.interpolator.conditions.mode
  {
    hide Slot, Settled, StopsAll, Shaped, SameLengths;
  }

  // ---------------------------------------------------------------- Stops, splices, overrides

  /** In every run: an accepted stop is reached at rest within 253 regular messages and held, unless
      somebody asks for motion. */
  lemma EveryStopHolds(k: Maths, m: Motion, kind: SplineMethod, offset: int, past: seq<Action>, discard: bool,
                       acts: seq<Action>)
    returns (j: nat)
    requires Reachable(k, m, kind, offset, past)
    requires Accepted(m, StopTrajectory(discard)) && !m.events.run.resume
    requires Uninterrupted(acts) && MessageCount(acts) >= STOP_MESSAGES
    requires Patient(k, Do(k, m, StopTrajectory(discard)), acts)
    ensures j <= |acts| && MessageCount(acts[..j]) <= STOP_MESSAGES
    ensures var m0 := Do(k, m, StopTrajectory(discard));
            var stopped, final := Run(k, m0, acts[..j]), Run(k, m0, acts);
            && Held(stopped) && StillHeld(stopped, final)
            && Halted(final.step.references, final.step.interpolator.conditions.mode)
  {
    hide Inv, Sized, Shaped, Reachable, Run, Do, Held, StillHeld, Halted, Uninterrupted, Patient;
    ReachableInv(k, m, kind, offset, past);
    j := StopAndHold(k, m, discard, acts);
  }

  /** In every run: new joint polynomials start at the references the last message left. */
  lemma EverySpliceIsContinuous(k: Maths, m: Motion, kind: SplineMethod, offset: int, past: seq<Action>, i: Input)
    requires Reachable(k, m, kind, offset, past) && i.ok && !i.first
    ensures var p := Process(k, Advance1(Prepare(m, i)));
            var s := Refit(p).step;
            p.hasNew && UsesSplines(p.step.conditions.operation) && p.step.conditions.mode.JointMode? ==>
              && StartsAt(s.interpolator.splines, 0, m.step.references.joints, s.conditions)
              && StartsAt(s.interpolator.splines, s.interpolator.offset, m.step.references.external, s.conditions)
  {
    hide Inv, Sized, Shaped, Reachable, Process, Prepare, Refit, StartsAt;
    ReachableInv(k, m, kind, offset, past);
    SpliceIsContinuous(k, m, i);
  }

  /** In every run: after an accepted override nothing earlier is started, and the work is the
      override followed by what was accepted since, first in, first out. */
  lemma EveryOverrideTakesOver(k: Maths, m: Motion, kind: SplineMethod, offset: int, past: seq<Action>,
                               points: Trajectory, acts: seq<Action>, more: seq<Action>)
    returns (j: nat, r: nat)
    requires Reachable(k, m, kind, offset, past) && Accepted(m, AddTrajectory(points, true))
    requires Uninterrupted(acts) && MessageCount(acts) >= STOP_MESSAGES
    requires NoneCancels(k, Do(k, m, AddTrajectory(points, true)), acts)
    ensures j <= |acts| && MessageCount(acts[..j]) <= STOP_MESSAGES
    ensures var m0 := Do(k, m, AddTrajectory(points, true));
            var s := Run(k, m0, acts[..j]);
            var work := points + AddedIn(k, m0, acts[..j]) + AddedIn(k, s, more);
            && (forall i :: 0 <= i <= j ==> NothingStarted(m0, Run(k, m0, acts[..i])))
            && (AllHarmless(k, s, more) ==> r <= |work| && SameButHead(Pipeline(Run(k, s, more)), work[r..]))
  {
    hide Inv, Sized, Shaped, Reachable, Run, Do, NothingStarted, AddedIn, Pipeline, SameButHead, AllHarmless,
         NoneCancels;
    ReachableInv(k, m, kind, offset, past);
    j, r := OverrideOrder(k, m, points, acts, more);
  }
}
