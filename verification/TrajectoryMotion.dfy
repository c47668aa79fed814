/** TrajectoryMotion as the source runs it: objects updated in place behind one lock. Every public
    method is one step of the machine, so whatever is proved of runs of Machine holds of any
    interleaving of calls. */
module TrajectoryMotionObject {
  import opened Numeric
  import opened Quaternions
  import opened Splines
  import opened Messages
  import opened Interpolation
  import opened Components
  import opened Stopping
  import opened Sizing
  import Soundness
  import M = Machine

  /** The points of every queued trajectory. */
  ghost function Contents(q: seq<Trajectory>): seq<M.Trajectory>
    reads q
  {
    seq(|q|, i requires 0 <= i < |q| reads q => q[i].points)
  }

  ghost predicate Distinct(q: seq<Trajectory>) {
    forall i, j :: 0 <= i < j < |q| ==> q[i] != q[j]
  }

  class TrajectoryMotion {
    const k: Maths
    const sm: StateManager
    const step: MotionStep
    const controller: Controller
    var events: M.Events
    var hasNew: bool
    var hasActive: bool
    var primary: seq<Trajectory>
    var temporary: seq<Trajectory>
    var current: Trajectory?

    /** No trajectory is held in two places. */
    ghost predicate Valid()
      reads this, step, step.interpolator
    {
      && step.Valid()
      && Distinct(primary + temporary)
      && (current != null ==> current !in primary && current !in temporary)
    }

    /** The trajectories held. */
    ghost function Owned(): set<Trajectory>
      reads this`primary, this`temporary, this`current
    {
      (set t <- primary) + (set t <- temporary) + if current == null then {} else {current}
    }

    ghost function View(out: Output): M.Motion
      reads this, sm, step, step.interpolator, step.interpolator.splines, controller, primary, temporary, current
    {
      M.Motion(sm.View(), events, hasNew, hasActive, step.View(), controller.View(),
               Contents(primary), Contents(temporary), if current == null then None else Some(current.points), out)
    }

    /** What every public method finds and leaves. */
    ghost predicate Sound()
      reads this, sm, step, step.interpolator, step.interpolator.splines, controller, primary, temporary, current
    {
      Valid() && Soundness.Inv(View(M.NO_OUTPUT)) && Sized(step.View())
    }

    constructor (maths: Maths, kind: SplineMethod, memory: int)
      ensures Sound() && k == maths && View(M.NO_OUTPUT) == M.Initial(kind, memory)
      ensures fresh({sm, step, step.interpolator, step.interpolator.splines, controller})
    {
      k := maths;
      sm := new StateManager();
      step := new MotionStep(kind, memory);
      controller := new Controller();
      events, hasNew, hasActive := M.NO_EVENTS, false, false;
      primary, temporary, current := [], [], null;
      new;
      assert View(M.NO_OUTPUT) == M.Initial(kind, memory);
      Soundness.InitialInv(kind, memory);
      InitialSized(kind, memory);
    }

    // -------------------------------------------------------------- Goals

    /** The skip loop: prepare points until one is not met or none is left. */
    method SkipMetPoints(t: Trajectory, last: bool) returns (success: bool)
      modifies step`mode, step`goal, step`point, step`conditions, t
      ensures M.Dispatch(k, old(step.View()), old(t.points), last) == (step.View(), t.points, success)
    {
      hide M.PrepareNormal, M.ConditionMet;
      success := false;
      var more := true;
      while more
        invariant more ==>
                    M.Dispatch(k, step.View(), t.points, last) == M.Dispatch(k, old(step.View()), old(t.points), last)
        invariant !more ==> M.Dispatch(k, old(step.View()), old(t.points), last) == (step.View(), t.points, success)
        decreases |t.points|, more
      {
        step.PrepareNormalGoal(k, last);
        var met := step.ConditionMet();
        success := !met;
        more := false;
        if !success {
          var found, p := t.RetrieveNext(step.point);
          step.point := p;
          more := found;
        }
      }
    }

    /** Take the next point of a trajectory that is to be executed. */
    method NextPoint(t: Trajectory) returns (success: bool)
      modifies step`mode, step`goal, step`point, step`conditions, t
      ensures old(t.points) == [] ==> !success && t.points == [] && step.View() == old(step.View())
      ensures old(t.points) != [] ==>
                (step.View(), t.points, success) == M.Advanced(k, old(step.View()), old(t.points))
    {
      hide M.PrepareNormal, M.ConditionMet, M.Dispatch;
      success := false;
      var found, p := t.RetrieveNext(step.point);
      step.point := p;
      if found {
        assert t.points == old(t.points)[1..];
        var last := |t.points| == 0;
        if step.point.reach {
          success := SkipMetPoints(t, last);
        } else {
          step.PrepareNormalGoal(k, last);
          success := true;
        }
      }
    }

    method UpdateNormalGoal(ghost out: Output)
      requires Valid()
      modifies this`hasNew, this`hasActive, this`current, step`mode, step`goal, step`point, step`conditions, current
      ensures Valid() && View(out) == M.UpdateNormalGoal(k, old(View(out)))
      ensures current == null || current == old(current)
    {
      hide M.Advanced;
      var success := false;
      if current != null {
        success := NextPoint(current);
        if !success && |current.points| == 0 {
          current := null;
        }
      }
      hasNew := success;
      hasActive := success;
    }

    method StoreNormalGoal(ghost out: Output)
      requires Valid()
      modifies step`point, current
      ensures Valid() && View(out) == M.StoreNormalGoal(old(View(out)))
    {
      if current != null {
        step.point := step.point.(duration := Some(Max(LOWEST_SAMPLE_TIME, step.goal.duration - step.timePassed)));
        current.AddFront(step.point);
      }
    }

    // -------------------------------------------------------------- States

    method Pend(to: M.Stage, ghost out: Output)
      requires Valid()
      modifies sm
      ensures Valid() && View(out) == M.Pend(old(View(out)), to)
    {
      sm.SetPendingState(to);
    }

    /** Take the front of the primary queue. */
    method TakeNext(ghost out: Output)
      requires Valid() && current == null && primary != []
      modifies this`current, this`primary
      ensures Valid() && current in old(primary)
      ensures var m := old(View(out)); View(out) == m.(current := Some(m.primary[0]), primary := m.primary[1..])
    {
      DropFront(primary, temporary);
      current := primary[0];
      primary := primary[1..];
      assert Contents(primary) == old(Contents(primary))[1..];
    }

    /** Put the current trajectory back in front of the primary queue. */
    method Park(ghost out: Output)
      requires Valid() && current != null
      modifies this`current, this`primary
      ensures Valid() && current == null && Owned() == old(Owned())
      ensures var m := old(View(out)); View(out) == m.(primary := [m.current.value] + m.primary, current := None)
    {
      PushFront(current, primary, temporary);
      primary := [current] + primary;
      current := null;
      assert Contents(primary) == [old(current).points] + old(Contents(primary));
    }

    method ProcessNormalState(ghost out: Output)
      requires Valid()
      modifies this`hasNew, this`hasActive, this`current, this`primary, sm,
               step`mode, step`goal, step`point, step`conditions, current, primary
      ensures Valid() && View(out) == M.ProcessNormal(k, old(View(out)))
    {
      hide M.UpdateNormalGoal, M.ConditionMet, M.SetPending, Distinct;
      if sm.current.sub.Running? {
        if events.run.rampDown {
          Pend(M.RAMP_START, out);
        } else if current != null {
          var reached := step.InterpolationDurationReached();
          if reached {
            if step.goal.reach {
              var met := step.ConditionMet();
              if met { UpdateNormalGoal(out); }
            } else {
              UpdateNormalGoal(out);
            }
          }
        } else if primary != [] {
          TakeNext(out);
          UpdateNormalGoal(out);
        }
      }
    }

    method BeginRampDown(ghost out: Output)
      requires Valid()
      modifies this`hasNew, this`hasActive, sm, step`point, step`conditions, current
      ensures Valid() && View(out) == M.BeginRampDown(old(View(out)))
    {
      hide M.PrepareRampDown, M.StoreNormalGoal, M.SetPending, Contents, Distinct;
      PrepareRamp(out);
      ghost var prepared := View(out);
      if hasActive { StoreNormalGoal(out); }
      assert View(out) == if prepared.hasActive then M.StoreNormalGoal(prepared) else prepared;
      StartRamp(out);
    }

    method PrepareRamp(ghost out: Output)
      requires Valid()
      modifies step`conditions
      ensures Valid() && View(out) == old(View(out)).(step := M.PrepareRampDown(old(View(out)).step, events.run.stop))
    {
      hide M.PrepareRampDown, Contents, Distinct;
      step.PrepareRampDownGoal(events.run.stop);
    }

    method StartRamp(ghost out: Output)
      requires Valid()
      modifies this`hasNew, this`hasActive, sm
      ensures Valid() && View(out) == M.Pend(old(View(out)).(hasNew := true, hasActive := true), M.RAMPING)
    {
      hide M.SetPending, Contents, Distinct;
      hasNew, hasActive := true, true;
      Pend(M.RAMPING, out);
    }

    method ApplyFactor(ghost out: Output)
      requires Valid()
      modifies this`events, step`factor
      ensures Valid() && View(out) == M.ApplyFactor(old(View(out)))
    {
      if events.factorUpdate {
        step.factor := events.factor;
        events := events.(factorUpdate := false);
      }
    }

    method ApplyDiscard(ghost out: Output)
      requires Valid()
      modifies this`events, this`current, this`primary, this`temporary
      ensures Valid() && View(out) == M.ApplyDiscard(old(View(out)))
      ensures current == null || current == old(current)
    {
      if events.run.discard {
        assert forall i :: 0 <= i < |temporary| ==> temporary[i] == (primary + temporary)[|primary| + i];
        current := null;
        primary := [];
        primary, temporary := temporary, primary;
        events := events.(run := events.run.(discard := false));
      }
    }

    method EndRampDown(ghost out: Output)
      requires Valid()
      modifies this`events, this`hasNew, this`hasActive, this`current, sm,
               step`mode, step`goal, step`point, step`conditions, current
      ensures Valid() && View(out) == M.EndRampDown(k, old(View(out)))
    {
      hide M.UpdateNormalGoal, M.Pend, Contents, Distinct;
      if events.run.stop {
        if events.run.resume {
          events := events.(run := events.run.(rampDown := false, stop := false, resume := false));
          if events.still.start {
            Pend(M.STATIC_START, out);
          } else {
            ResumeNormal(out);
          }
        }
      } else {
        events := events.(run := events.run.(rampDown := false));
        ResumeNormal(out);
      }
    }

    /** Back to the normal state, with the next point. */
    method ResumeNormal(ghost out: Output)
      requires Valid()
      modifies this`hasNew, this`hasActive, this`current, sm,
               step`mode, step`goal, step`point, step`conditions, current
      ensures Valid() && View(out) == M.Pend(M.UpdateNormalGoal(k, old(View(out))), M.RUNNING)
    {
      hide M.UpdateNormalGoal, M.SetPending, Contents, Distinct;
      UpdateNormalGoal(out);
      Pend(M.RUNNING, out);
    }

    method ProcessRampDownState(ghost out: Output)
      requires Valid()
      modifies this`events, this`hasNew, this`hasActive, this`current, this`primary, this`temporary, sm,
               step`mode, step`goal, step`point, step`conditions, step`factor, current
      ensures Valid() && View(out) == M.ProcessRampDown(k, old(View(out)))
    {
      hide M.BeginRampDown, M.ApplyFactor, M.ApplyDiscard, M.EndRampDown, M.SetPending, Contents, Distinct;
      match sm.current.sub {
        case NoSub =>
          BeginRampDown(out);
        case Running =>
          var reached := step.InterpolationDurationReached();
          if reached { Pend(M.STOPPED, out); }
        case Finished =>
          ApplyFactor(out);
          ApplyDiscard(out);
          EndRampDown(out);
      }
    }

    method ApplyStatic(ghost out: Output)
      requires Valid()
      modifies this`events, this`hasNew, this`hasActive, step`mode, step`goal, step`conditions
      ensures Valid() && View(out) == M.ApplyStatic(k, old(View(out)))
    {
      hide M.PreparePosition, M.PrepareVelocity, Contents, Distinct;
      if events.still.position && !events.run.rampDown {
        step.PrepareStaticPosition(k, events.positionGoal, events.still.fast);
        events := events.(positionGoal := M.NO_POSITION_GOAL, still := events.still.(position := false));
        hasNew, hasActive := true, true;
      } else if events.still.velocity && !events.run.rampDown {
        step.PrepareStaticVelocity(events.velocityGoal, events.still.fast);
        events := events.(velocityGoal := M.NO_VELOCITY_GOAL, still := events.still.(velocity := false));
        hasNew, hasActive := true, true;
      }
    }

    method BeginStatic(ghost out: Output)
      requires Valid()
      modifies this`hasActive, this`current, this`primary, sm
      ensures Valid() && View(out) == M.BeginStatic(old(View(out)))
    {
      hide M.Pend, Contents, Distinct;
      if current != null { Park(out); }
      hasActive := false;
      Pend(M.STATIC, out);
    }

    method RunStatic(ghost out: Output)
      requires Valid()
      modifies this`events, this`hasNew, this`hasActive, sm, step`mode, step`goal, step`conditions
      ensures Valid() && View(out) == M.RunStatic(k, old(View(out)))
    {
      hide M.Pend, M.PreparePosition, M.PrepareVelocity, Contents, Distinct;
      ApplyStatic(out);
      if events.still.finish {
        Pend(M.STATIC_END, out);
      } else if events.run.rampDown {
        Pend(M.RAMP_START, out);
      }
    }

    method EndStatic(ghost out: Output)
      requires Valid()
      modifies this`events, sm
      ensures Valid() && View(out) == M.EndStatic(old(View(out)))
    {
      hide M.Pend, Contents, Distinct;
      events := events.(still := M.StaticEvents(false, events.still.fast, false, false, false),
                        run := events.run.(rampDown := true, stop := true));
      Pend(M.RAMP_START, out);
    }

    method ProcessStaticGoalState(ghost out: Output)
      requires Valid()
      modifies this`events, this`hasNew, this`hasActive, this`current, this`primary, sm,
               step`mode, step`goal, step`conditions
      ensures Valid() && View(out) == M.ProcessStatic(k, old(View(out)))
    {
      hide M.BeginStatic, M.RunStatic, M.EndStatic, Contents, Distinct;
      match sm.current.sub {
        case NoSub => BeginStatic(out);
        case Running => RunStatic(out);
        case Finished => EndStatic(out);
      }
    }

    // -------------------------------------------------------------- Messages from the controller

    /** Put the active point back, and the trajectory with it. */
    method ParkActive(ghost out: Output)
      requires Valid() && current != null
      modifies this`current, this`primary, step`point, current
      ensures Valid() && current == null && Owned() == old(Owned())
      ensures var stored := M.StoreNormalGoal(old(View(out)));
              View(out) == stored.(primary := [stored.current.value] + stored.primary, current := None)
    {
      hide M.Remainder, M.StoreNormalGoal, Contents, Distinct;
      StoreNormalGoal(out);
      Park(out);
    }

    method Reset(ghost out: Output)
      requires Valid()
      modifies this`hasNew, this`hasActive, this`current, this`primary, sm, step, current
      ensures Valid() && current == null && Owned() == old(Owned()) && View(out) == M.ResetMotion(old(View(out)))
    {
      hide M.ResetStep, M.Remainder, Contents, Distinct, Owned;
      if current != null { ParkActive(out); }
      hasActive := false;
      hasNew := false;
      step.ResetMotionStep();
      sm.Reset();
    }

    method Receive(i: M.Input, ghost out: Output)
      requires Valid() && (i.first ==> out == M.OpeningOutputs(i.feedback))
      modifies this`hasNew, this`hasActive, this`current, this`primary, sm, step, current
      ensures Valid() && Owned() == old(Owned()) && (current == null || current == old(current))
      ensures var received := M.Receive(old(View(out)), i);
              View(out) == if i.first then M.ResetMotion(received) else received
    {
      hide M.ResetMotion, Contents, Distinct, Owned;
      step.sampleTime := i.sampleTime;
      step.feedback := i.feedback;
      if i.first { Reset(out); }
    }

    method Prepare(i: M.Input, ghost out: Output)
      requires Valid() && (i.first ==> out == M.OpeningOutputs(i.feedback))
      modifies this`hasNew, this`hasActive, this`current, this`primary, this`temporary, sm, step, current
      ensures Valid() && Owned() <= old(Owned()) && View(out) == M.Prepare(old(View(out)), i)
    {
      hide M.ResetMotion, M.Receive, Contents, Distinct, Owned;
      Receive(i, out);
      if i.ok {
        if sm.current == M.IDLE { sm.Activate(); }
      } else if sm.current != M.IDLE {
        ResetAll(out);
      }
      hasNew := false;
    }

    /** A fault also empties both queues. */
    method ResetAll(ghost out: Output)
      requires Valid()
      modifies this`hasNew, this`hasActive, this`current, this`primary, this`temporary, sm, step, current
      ensures Valid() && View(out) == M.ResetMotion(old(View(out))).(primary := [], temporary := [])
      ensures Owned() <= old(Owned())
    {
      hide M.ResetMotion;
      Reset(out);
      primary := [];
      temporary := [];
    }

    method ProcessState(ghost out: Output)
      requires Valid()
      modifies this`events, this`hasNew, this`hasActive, this`current, this`primary, this`temporary, sm,
               step`mode, step`goal, step`point, step`conditions, step`factor, current, primary
      ensures Valid() && View(out) == M.Process(k, old(View(out)))
    {
      hide M.ProcessNormal, M.ProcessRampDown, M.ProcessStatic, Contents, Distinct;
      match sm.current.state {
        case Normal => ProcessNormalState(out);
        case RampDown => ProcessRampDownState(out);
        case StaticGoal => ProcessStaticGoalState(out);
      }
    }

    /** Fit the interpolator to a new goal. */
    method Refit(ghost out: Output)
      requires Valid() && Sized(step.View())
      modifies step`timePassed, step`references, step.interpolator, step.interpolator.splines, controller
      ensures Valid() && View(out) == M.Refit(old(View(out)))
    {
      hide M.UpdateInterpolator, M.UpdateController, Sized, Contents, Distinct;
      if hasNew {
        step.UpdateInterpolator();
        controller.Update(sm.current.state, step);
      }
    }

    /** Evaluate an active goal and follow it in the outputs. */
    method Emit(outputs: Output) returns (outputs': Output)
      requires Valid() && Shaped(step.references)
      requires hasActive && UsesSplines(step.interpolator.conditions.operation) ==>
                 0 <= step.interpolator.offset
                     && step.interpolator.offset + |step.references.external.position| <= SPLINES
      modifies step`timePassed, step`references, controller`transition
      ensures Valid() && View(outputs') == M.Emit(k, old(View(outputs)))
    {
      hide M.EvaluateInterpolator, M.FadedReferences, M.FollowedOutputs, Shaped, Contents, Distinct;
      outputs' := outputs;
      if hasActive {
        step.EvaluateInterpolator(k);
        outputs' := controller.Calculate(k, outputs, step);
      }
    }

    /** One message of the robot controller, from the outputs prepared for it. */
    method GenerateOutputs(outputs: Output, i: M.Input) returns (outputs': Output)
      requires Sound() && Acceptable(View(outputs), i) && (i.first ==> outputs == M.OpeningOutputs(i.feedback))
      modifies this`events, this`hasNew, this`hasActive, this`current, this`primary, this`temporary,
               sm, step, step.interpolator, step.interpolator.splines, controller, Owned()
      ensures Sound() && View(outputs') == M.Tick(k, old(View(outputs)), i)
    {
      hide M.Prepare, M.Process, M.Refit, M.Emit, M.Advance1, Contents, Distinct, Sized, Soundness.Inv, Acceptable;
      ghost var m := View(outputs);
      OutputsAside(View(M.NO_OUTPUT), outputs);
      StepsFit(k, m, i);
      outputs' := outputs;
      Prepare(i, outputs);
      if i.ok {
        Update(outputs);
        ProcessState(outputs);
        Refit(outputs);
        Ready(View(outputs));
        outputs' := Emit(outputs);
      }
      OutputsAside(View(outputs'), M.NO_OUTPUT);
    }

    /** The part of the callback that concerns the machine: prepare the outputs, then generate them. */
    method Callback(outputs: Output, i: M.Input) returns (outputs': Output)
      requires Sound() && Acceptable(View(outputs), i)
      modifies this`events, this`hasNew, this`hasActive, this`current, this`primary, this`temporary,
               sm, step, step.interpolator, step.interpolator.splines, controller, Owned()
      ensures Sound() && View(outputs') == M.Tick(k, old(View(outputs)), i)
    {
      hide M.Prepare, M.Process, M.Refit, M.Emit, M.Advance1, Contents, Distinct, Sized, Soundness.Inv, Shaped;
      var prepared := if i.first then M.OpeningOutputs(i.feedback) else outputs;
      Reopened(k, View(outputs), i);
      outputs' := GenerateOutputs(prepared, i);
    }

    method Update(ghost out: Output)
      requires Valid()
      modifies sm
      ensures Valid() && View(out) == M.Advance1(old(View(out)))
    {
      sm.UpdateState();
    }

    // -------------------------------------------------------------- User commands

    method AddTrajectory(points: seq<PointGoal>, override: bool, ghost out: Output) returns (accepted: bool)
      requires Sound()
      modifies this`events, this`primary, this`temporary
      ensures Sound() && View(out) == M.Do(k, old(View(out)), M.AddTrajectory(points, override))
      ensures accepted == M.Accepted(old(View(out)), M.AddTrajectory(points, override))
    {
      hide Contents, Distinct, Sized, Soundness.Inv, M.AddAccepted;
      Kept(k, View(M.NO_OUTPUT), M.AddTrajectory(points, override));
      var t := new Trajectory(points);
      accepted := sm.current == M.RUNNING;
      if accepted { Enqueue(t, override, out); }
    }

    /** A trajectory added while a discard is pending waits in the temporary queue. */
    method Enqueue(t: Trajectory, override: bool, ghost out: Output)
      requires Valid() && t !in Owned()
      modifies this`events, this`primary, this`temporary
      ensures Valid() && View(out) == M.AddAccepted(old(View(out)), t.points, override)
      ensures View(M.NO_OUTPUT) == M.AddAccepted(old(View(M.NO_OUTPUT)), t.points, override)
    {
      hide Distinct;
      PushBack(primary, temporary, t);
      if override {
        temporary := [t];
        events := events.(run := M.RunEvents(true, true, true, true));
      } else if events.run.discard {
        temporary := temporary + [t];
        assert Contents(temporary) == old(Contents(temporary)) + [t.points];
      } else {
        primary := primary + [t];
        assert Contents(primary) == old(Contents(primary)) + [t.points];
      }
    }

    method StopTrajectory(discard: bool, ghost out: Output) returns (accepted: bool)
      requires Sound()
      modifies this`events
      ensures Sound() && View(out) == M.Do(k, old(View(out)), M.StopTrajectory(discard))
      ensures accepted == M.Accepted(old(View(out)), M.StopTrajectory(discard))
    {
      hide Contents, Distinct, Sized, Soundness.Inv;
      Kept(k, View(M.NO_OUTPUT), M.StopTrajectory(discard));
      accepted := sm.current == M.RUNNING;
      if accepted {
        events := events.(run := events.run.(rampDown := true, stop := true, discard := discard));
      }
    }

    method ResumeTrajectory(ghost out: Output) returns (accepted: bool)
      requires Sound()
      modifies this`events
      ensures Sound() && View(out) == M.Do(k, old(View(out)), M.ResumeTrajectory)
      ensures accepted == M.Accepted(old(View(out)), M.ResumeTrajectory)
    {
      hide Contents, Distinct, Sized, Soundness.Inv;
      Kept(k, View(M.NO_OUTPUT), M.ResumeTrajectory);
      accepted := sm.current == M.STOPPED;
      if accepted {
        events := events.(run := events.run.(resume := true));
      }
    }

    method UpdateDurationFactor(factor: real, ghost out: Output) returns (accepted: bool)
      requires Sound()
      modifies this`events
      ensures Sound() && View(out) == M.Do(k, old(View(out)), M.UpdateDurationFactor(factor))
      ensures accepted == M.Accepted(old(View(out)), M.UpdateDurationFactor(factor))
    {
      hide Contents, Distinct, Sized, Soundness.Inv;
      Kept(k, View(M.NO_OUTPUT), M.UpdateDurationFactor(factor));
      accepted := sm.current == M.RUNNING;
      if accepted {
        events := events.(run := events.run.(rampDown := true), factorUpdate := true,
                          factor := Saturate(factor, M.DURATION_FACTOR_MIN, M.DURATION_FACTOR_MAX));
      }
    }

    method StartStaticGoal(discard: bool, ghost out: Output) returns (accepted: bool)
      requires Sound()
      modifies this`events
      ensures Sound() && View(out) == M.Do(k, old(View(out)), M.StartStaticGoal(discard))
      ensures accepted == M.Accepted(old(View(out)), M.StartStaticGoal(discard))
    {
      hide Contents, Distinct, Sized, Soundness.Inv;
      Kept(k, View(M.NO_OUTPUT), M.StartStaticGoal(discard));
      accepted := sm.current == M.RUNNING;
      if accepted {
        events := events.(run := M.RunEvents(true, true, discard, true), still := events.still.(start := true));
      }
    }

    method SetStaticPosition(goal: StaticPositionGoal, fast: bool, ghost out: Output) returns (accepted: bool)
      requires Sound()
      modifies this`events
      ensures Sound() && View(out) == M.Do(k, old(View(out)), M.SetStaticPosition(goal, fast))
      ensures accepted == M.Accepted(old(View(out)), M.SetStaticPosition(goal, fast))
    {
      hide Contents, Distinct, Sized, Soundness.Inv;
      Kept(k, View(M.NO_OUTPUT), M.SetStaticPosition(goal, fast));
      accepted := sm.current == M.STATIC;
      if accepted {
        events := events.(run := events.run.(rampDown := !fast, stop := !fast, resume := true),
                          still := events.still.(fast := fast, position := true, velocity := false),
                              positionGoal := goal);
      }
    }

    method SetStaticVelocity(goal: StaticVelocityGoal, fast: bool, ghost out: Output) returns (accepted: bool)
      requires Sound()
      modifies this`events
      ensures Sound() && View(out) == M.Do(k, old(View(out)), M.SetStaticVelocity(goal, fast))
      ensures accepted == M.Accepted(old(View(out)), M.SetStaticVelocity(goal, fast))
    {
      hide Contents, Distinct, Sized, Soundness.Inv;
      Kept(k, View(M.NO_OUTPUT), M.SetStaticVelocity(goal, fast));
      accepted := sm.current == M.STATIC;
      if accepted {
        events := events.(run := events.run.(rampDown := !fast, stop := !fast, resume := true),
                          still := events.still.(fast := fast, velocity := true, position := false),
                              velocityGoal := goal);
      }
    }

    method FinishStaticGoal(resume: bool, ghost out: Output) returns (accepted: bool)
      requires Sound()
      modifies this`events
      ensures Sound() && View(out) == M.Do(k, old(View(out)), M.FinishStaticGoal(resume))
      ensures accepted == M.Accepted(old(View(out)), M.FinishStaticGoal(resume))
    {
      hide Contents, Distinct, Sized, Soundness.Inv;
      Kept(k, View(M.NO_OUTPUT), M.FinishStaticGoal(resume));
      accepted := sm.current == M.STATIC;
      if accepted {
        events := events.(still := events.still.(finish := true), run := events.run.(resume := resume));
      }
    }

    method Configure(kind: SplineMethod, ghost out: Output)
      requires Sound()
      modifies step`kind
      ensures Sound() && View(out) == M.Do(k, old(View(out)), M.Configure(kind))
    {
      hide Contents, Distinct, Sized, Soundness.Inv;
      Kept(k, View(M.NO_OUTPUT), M.Configure(kind));
      step.kind := kind;
    }
  }

  lemma Kept(k: Maths, m: M.Motion, a: M.Action)
    requires Soundness.Inv(m) && Sized(m.step) && !a.Message?
    ensures Soundness.Inv(M.Do(k, m, a)) && Sized(M.Do(k, m, a).step)
  {
    hide Soundness.Inv, Sized, M.Do;
    Soundness.DoInv(k, m, a);
    DoSized(k, m, a);
  }

  /** Lengths match and the invariant holds whenever the interpolator is fitted or evaluated. */
  lemma StepsFit(k: Maths, m: M.Motion, i: M.Input)
    requires Soundness.Inv(m) && Sized(m.step) && Acceptable(m, i)
    ensures var p := M.Process(k, M.Advance1(M.Prepare(m, i)));
            i.ok ==> Sized(p.step) && Soundness.Inv(M.Refit(p)) && Sized(M.Refit(p).step)
    ensures Soundness.Inv(M.Tick(k, m, i)) && Sized(M.Tick(k, m, i).step)
  {
    Soundness.TickInv(k, m, i);
    TickSized(k, m, i);
    Soundness.PrepareInv(m, i);
    PrepareSized(m, i);
    hide M.Prepare, M.Process, M.Refit, M.Emit, M.Tick, Sized, Acceptable;
    var p := M.Prepare(m, i);
    if i.ok {
      Soundness.EnterInv(p);
      Soundness.ProcessInv(k, M.Advance1(p));
      Soundness.RefitInv(M.Process(k, M.Advance1(p)));
      ProcessSized(k, M.Advance1(p));
      RefitSized(M.Process(k, M.Advance1(p)));
    }
  }

  /** What evaluating an active goal asks for. */
  lemma Ready(m: M.Motion)
    requires Soundness.Inv(m) && Sized(m.step)
    ensures Shaped(m.step.references)
    ensures m.hasActive && UsesSplines(m.step.interpolator.conditions.operation) ==>
              0 <= m.step.interpolator.offset
                  && m.step.interpolator.offset + |m.step.references.external.position| <= SPLINES
  {
  }

  /** Preparing the outputs twice changes nothing. */
  lemma Reopened(k: Maths, m: M.Motion, i: M.Input)
    ensures i.first ==> M.Tick(k, m.(outputs := M.OpeningOutputs(i.feedback)), i) == M.Tick(k, m, i)
  {
    hide M.Process, M.Refit, M.Emit, M.ResetMotion;
    assert i.first ==> M.Receive(m.(outputs := M.OpeningOutputs(i.feedback)), i) == M.Receive(m, i);
  }

  /** Inv does not look at the outputs. */
  lemma OutputsAside(m: M.Motion, out: Output)
    ensures Soundness.Inv(m) <==> Soundness.Inv(m.(outputs := out))
  {
    hide M.Legal, M.DurationReached;
  }

  lemma DropFront(p: seq<Trajectory>, t: seq<Trajectory>)
    requires Distinct(p + t) && p != []
    ensures Distinct(p[1..] + t) && p[0] !in p[1..] && p[0] !in t
  {
    var q := p + t;
    assert p[1..] + t == q[1..];
    assert forall i :: 0 < i < |q| ==> q[0] != q[i];
    assert forall i :: 0 <= i < |p[1..]| ==> p[1..][i] == q[i + 1];
    assert forall i :: 0 <= i < |t| ==> t[i] == q[|p| + i];
  }

  lemma PushBack(p: seq<Trajectory>, t: seq<Trajectory>, c: Trajectory)
    requires Distinct(p + t) && c !in p && c !in t
    ensures Distinct(p + [c]) && Distinct(p + (t + [c])) && Distinct((p + [c]) + t)
  {
    PushFront(c, p, t);
    var q := [c] + p + t;
    assert forall i :: 0 <= i < |p| ==> p[i] == q[1 + i];
    assert forall i :: 0 <= i < |t| ==> t[i] == q[1 + |p| + i];
  }

  lemma PushFront(c: Trajectory, p: seq<Trajectory>, t: seq<Trajectory>)
    requires Distinct(p + t) && c !in p && c !in t
    ensures Distinct([c] + p + t)
  {
    var q := [c] + p + t;
    assert q[1..] == p + t;
    forall i, j | 0 <= i < j < |q| ensures q[i] != q[j] {
      assert q[j] == (p + t)[j - 1];
      if i > 0 { assert q[i] == (p + t)[i - 1]; }
    }
  }
}
