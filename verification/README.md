# abb_libegm: a verified model of EGM trajectory execution

abb_libegm lets a user program steer an ABB robot over Externally Guided Motion (EGM). Every few
milliseconds the robot controller sends its feedback and expects a reply with references. The
trajectory interface turns user commands (add, stop, resume, override trajectories, change the
duration factor, static goals) and these messages into references, one sample at a time.

This project models that logic in Dafny and proves what the library is meant to guarantee over whole
runs. `dafny verify dfyconfig.toml` checks all of it.

## How it is laid out

Two layers. The **machine** is made of functions on values, so that runs can be reasoned about:
`Machine` (state manager, goals, controller, messages, commands), `Interpolation` and `Splines` (the
interpolator), `Quaternions`, `Messages`. The **objects** are classes updated in place, in the source's
own form: `TrajectoryMotionObject`, `Components`, `InterpolatorObject`, `OutputContainer` in `Wire`,
`ControllerMotion` in `Handshake`. Every method of the trajectory objects is proved to compute the
machine's function of the old state. The user commands and the generation of outputs hold the data
lock as long as they touch shared state; a configuration is taken over without it, but in the callback
that also generates the outputs. So any interleaving of calls is a sequence of machine steps, and a
theorem about `Run` is a theorem about every interleaving.

The theorems, by module:

- `Soundness`, `Dispatching`, `Sizing`, `Uninitialised`: the state machine, the choice of the next point,
  vector lengths, and the field the source does not initialise.
- `Conservation`, `Timing`, `Progressing`, `Overrides`, `Ledgers`, `Faults`: what happens to accepted points
  and to their time.
- `Stopping`, `StaticGoals`, `StaticEntries`, `Pursuits`, `SlowGoals`, `Splicing`, `References`, with `Splines`
  and `Quaternions` below them: what the references and the outputs do.
- `Wire`, `SampleTime`, `Handshake`: the reply, the clock and the second interface.
- `Pitfalls`, `Races`, `FirstMessages`, `Aftermaths`, `Forgetting`: properties one would expect and the code does not have, each with
  the exact condition under which it holds and a run in which it fails.
- `Guarantees`: the main results again, from construction on.

The pipeline of a machine is the point in hand, the rest of its trajectory and the queued
trajectories, in this order. An interrupted point goes back to its head with the duration that
remained, which is why the order results speak of equality but for the duration of the first point.

Numbers are reals; `std::pow` is a product; cosine, sine, square root, the Euler conversions and Slerp
are arbitrary functions in a record `Maths`, so results hold whatever they compute, and the few that
need the cosine's values at pi and two pi say so (`RampEndpoints`). Unsigned 64-bit and 32-bit
arithmetic is written out with its wrap-around. A clock, a time-out or a received message is a
parameter.

## What the code does not do

Seven expectations turned out false and are stated as such.

- A session restart during a ramp down stores the interrupted point a second time
  (`Pitfalls.RestartConservesIff`, `Pitfalls.DuplicatingRun`).
- A second resume leaves a flag behind that makes the next stop resume by itself
  (`Races.StopAfterSecondResume`); a stop holds iff no such flag is set (`Races.StopHoldsIff`).
- A plain stop calls off a pending override, and the next discarding stop brings it back, however much
  later (`Ledgers.CancelledOverrideReturns`); `Ledgers.StopSettles` says which work a stop leaves after
  any commands.
- A fast static goal is accepted but not taken up while a transition is pending, and only then
  (`Races.FastGoalTakenUpIff`). One pending transition leads out of the static stage altogether
  (`Races.FastGoalAbandonsStatic`), the other drops the goal and resumes a stop that should wait
  (`Races.FastGoalAfterFinish`).
- The first reply of a session is not the feedback if work is left over from the last one
  (`FirstMessages.FirstReplyRuns`). `FirstMessages.FirstMessageIff` says exactly when the outputs are left
  alone, and `FirstMessages.FirstJointsIff` exactly when the joints commanded are those reported.
- A fault wipes the work but not the pending commands, and a session restart keeps them too. A stop or a
  static goal accepted before a fault acts in the session after it (`Forgetting.OldStopActs`,
  `Forgetting.OldStaticGoalActs`), an old fast goal is pursued by the next static stage
  (`Forgetting.OldGoalIsPursued`), an old resume flag undoes the next stop, an old start flag turns its
  resume into a static stage (`Forgetting.FirstStop`, `Forgetting.FirstResume`). Every run after a fault is
  the run of a machine that was never asked anything iff no flag was up and the duration factor was not
  about to change (`Forgetting.FaultIsForgottenIff`); for every flag there is a run that shows it.
- A fast static position goal is missed by one sample of the velocity the joint had when it was given,
  because the position case of the ramp runs on into the velocity case; it is reached iff the joints were
  at rest (`Pursuits.FastGoalReachedIff`, and `StaticEntries.MissedGoalRun` for a run that misses). A slow
  one stops first and is reached unless the stage was told to end (`SlowGoals.EverySlowGoalIsReached`).

Smaller ones: the last point of a trajectory is not recognised as the last after points were skipped
(`Pitfalls.LastFlagIff`), a ramp down that should only slow a rotation stops it
(`Stopping.OrientationStops`), and a clock that goes backwards gives an enormous sample time
(`SampleTime.BackwardsClock`).

## Model

| member | source | states |
|---|---|---|
| Guarantees.EveryRunIsSound | src/egm_trajectory_interface.cpp:62-135 | in every run of any commands and messages: (Normal, Finished) never occurs, a pending stage is a legal successor, in the normal state a goal is active iff there is a current trajectory, the static state has none, a new goal is active, the interpolator holds the active goal in all its slots, ramps and conditions, the duration factor is in [1, 5] |
| Guarantees.EveryStageIsLive | src/egm_trajectory_interface.cpp:899-949 | in every run an OK message in the normal state is processed as Running; the branches marked as never occurring are not reached |
| Guarantees.EveryJointFollowsItsGoal | src/egm_interpolator.cpp:694-857 | in every run, while a joint goal is active, each joint sent is the polynomial fitted from its start to its goal at the time passed, and from the end of a normal goal's duration on it is the goal |
| Guarantees.EveryHeldStopIsSent | src/egm_trajectory_interface.cpp:994-1013 | in every run a held stop sends the same joints (or position) with zero velocities until somebody resumes |
| Guarantees.EveryStopHolds | src/egm_trajectory_interface.cpp:1186-1200 | in every run an accepted stop, with no resume flag set and no request for motion accepted afterwards, is reached at rest within 253 messages of at least 4 ms and then held, joints unchanged |
| Guarantees.EverySpliceIsContinuous | include/abb_libegm/egm_trajectory_interface.h:901-916 | in every run, polynomials fitted for a new joint goal start at the references the last message left |
| Guarantees.EveryOverrideTakesOver | src/egm_trajectory_interface.cpp:1149-1184 | in every run, after an accepted override nothing earlier is started and the work is the override followed by what was accepted since, in order |
| Guarantees.ReachableInv | src/egm_trajectory_interface.cpp:769-838 | every reachable machine satisfies the invariant and has matching vector lengths |
| Soundness.RunInv | src/egm_trajectory_interface.cpp:844-1095 | the invariant (state manager, goal flags, fitted interpolator, factor) is kept by every run |
| Soundness.GuardNeverRejects | src/egm_trajectory_interface.cpp:62-135 | whatever transition the processing of a stage asks for, read off the events alone, is legal and becomes pending; nothing else does |
| Soundness.ProcessEvents | src/egm_trajectory_interface.cpp:951-1095 | exactly which pending events the processing of each stage consumes |
| Soundness.ProcessMovesNothing | src/egm_trajectory_interface.cpp:899-1095 | processing prepares goals but changes no reference, output, clock or polynomial |
| Soundness.ProcessInv | src/egm_trajectory_interface.cpp:899-1095 | from an entered stage, processing leaves a consistent machine whose transitions are pending and legal |
| Dispatching.UpdateNormalGoalRefines | src/egm_trajectory_interface.cpp:1097-1132 | either the first point not already met (or the first, if not marked reach) becomes active and new, or nothing does and the trajectory is dropped, which happens iff no point is left to execute; nothing else changes |
| Dispatching.DispatchFinds | src/egm_trajectory_interface.cpp:1107-1115 | the skip loop ends at the first point whose prepared goal the feedback does not meet, every earlier one being met |
| Dispatching.LastFlagIsSound | src/egm_trajectory_interface.cpp:1105 | a point flagged as last leaves an empty trajectory |
| Dispatching.PreparedFacts | src/egm_trajectory_interface.cpp:243-295 | preparing any number of points touches neither references nor clock, and the last one decides mode, operation and duration (factor times the given duration) |
| Conservation.FirstInFirstOut | src/egm_trajectory_interface.cpp:899-1143 | from construction, over any run without override, discard, fault or restart over a stored point: the pipeline is a suffix of all accepted points in order of acceptance, exact but for the duration of the head, and every point that left was completed or already met |
| Conservation.RunConserves | src/egm_trajectory_interface.cpp:899-1143 | the same from any machine with the invariant, whatever it already had to do |
| Conservation.TickConserves | src/egm_trajectory_interface.cpp:769-838 | one message removes points from the front only: the point in hand if its time is up and (if required) it is reached, and points met when their turn came |
| Conservation.UpdateNormalGoalConserves | src/egm_trajectory_interface.cpp:1097-1132 | the dropped points were all met; the next point and the rest are what remains |
| Timing.TimeIsConserved | src/egm_trajectory_interface.cpp:1134-1143 | at factor 1, over any number of stops, resumes, static detours and restarts, time left plus time executed is the time there was, while at least one sample is left |
| Timing.TickCarries | src/egm_trajectory_interface.cpp:769-838 | one message takes one sample off the head's time if the head is in hand afterwards, nothing otherwise |
| Timing.ResumeScales | src/egm_trajectory_interface.cpp:982-1019 | the point taken up by a resume gets the factor, including one that was pending, times the time it had left |
| Timing.ProcessCarries | src/egm_trajectory_interface.cpp:899-1143 | a point put back keeps max(0.004, d - elapsed), a point taken up gets factor times its duration, all else keeps its time |
| Progressing.PointIsCompleted | src/egm_trajectory_interface.cpp:912-933 | the point in hand leaves after a message for every 4 ms of its remaining time and two more, provided that, if it must be reached, the robot is within 0.005 of it when its time is over |
| Progressing.WorkIsDone | src/egm_trajectory_interface.cpp:899-949 | a queue of joint points with durations is worked off within a message for every 4 ms of its budget (each scaled duration plus two samples, one sample per trajectory), if every point that must be reached is within 0.005 when its time is over |
| Progressing.EveryQueueIsWorkedOff | src/egm_trajectory_interface.cpp:899-949 | the same for what a running machine holds after any run of a joint session from construction |
| Progressing.FollowingArrives | src/egm_trajectory_interface.cpp:443-449 | a robot within 0.005 of its references is within 0.005 of its goal in time |
| Overrides.OverrideTakesOver | src/egm_trajectory_interface.cpp:989-1023 | within 253 messages of an override the earlier work is gone and the pipeline is the override plus what was appended meanwhile; until then nothing is started |
| Overrides.OverrideOrder | src/egm_trajectory_interface.cpp:1149-1184 | from then on the replacement is worked off first in, first out |
| Overrides.StopCancelsOverride | src/egm_trajectory_interface.cpp:1196 | a stop without discard after an override clears the discard: the work is what it was, and the override stays in the temporary queue |
| Ledgers.StopSettles | src/egm_trajectory_interface.cpp:989-1023 | whatever commands arrive on the way to a stop, in any order, when it is reached the work is the spare column of the books if they say discard, and the old work (less points already met, if resumed at once) otherwise |
| Ledgers.OverrideSettles | src/egm_trajectory_interface.cpp:1149-1200 | in particular an override is the work at its stop iff the commands accepted since leave the discard standing |
| Ledgers.CancelledOverrideReturns | src/egm_trajectory_interface.cpp:989-996 | a called-off override replaces the work at the next discarding stop, after any run in between that discards nothing |
| Ledgers.SpareIsKept | src/egm_trajectory_interface.cpp:989-996 | a run that discards nothing leaves the temporary queue as it is |
| Faults.FaultWipes | src/egm_trajectory_interface.cpp:864-878 | a fault leaves the machine idle, without goal, with both queues empty and the outputs as they were |
| Faults.NotReadyKeepsOutputs | src/egm_trajectory_interface.cpp:778 | a message that is not OK changes no output, except that a first one makes them the feedback, and leaves no active goal |
| Faults.FaultIsolation | src/egm_trajectory_interface.cpp:844-897 | after a fault every point held or executed in any later run stems from a trajectory accepted after it |
| Forgetting.FaultIsForgottenIff | src/egm_trajectory_interface.cpp:864-897 | every run after a fault is, but for the events, the run of a machine without any, iff no run or static flag was up and no other duration factor was due |
| Forgetting.ForgottenIff | src/egm_trajectory_interface.cpp:884-897 | the same for any machine between sessions, so also after a restart that is not OK |
| Forgetting.FirstStop | src/egm_trajectory_interface.cpp:994-1013 | the first plain stop after waking up with old flags waits iff there was no resume flag, and otherwise goes on to the static stage iff there was a start flag |
| Forgetting.FirstResume | src/egm_trajectory_interface.cpp:994-1013 | a stop that waits is resumed into the static stage iff there is a start flag |
| Forgetting.BehindDoor | src/egm_trajectory_interface.cpp:1047-1076 | the first message of a static stage takes an old goal up iff a position or velocity flag was left, and ends the stage at once iff a finish flag was |
| Forgetting.OldGoalIsPursued | src/egm_trajectory_interface.cpp:1250-1268 | a fast goal overtaken by a fault is pursued by the next static stage, within 256 messages of its start |
| Aftermaths.EventsSurvive | src/egm_trajectory_interface.cpp:844-897 | neither a fault nor a restart changes an event |
| Aftermaths.RunTwins | src/egm_trajectory_interface.cpp:769-838 | two machines that differ only in events nobody looks at stay so in every run |
| Forgetting.OldStopActs | src/egm_trajectory_interface.cpp:884-897 | a stop accepted before a fault stops the machine after it, within 252 messages |
| Forgetting.OldStaticGoalActs | src/egm_trajectory_interface.cpp:884-897 | a static goal started before a fault is entered after it |
| Faults.RunStems | src/egm_trajectory_interface.cpp:1149-1184 | no run, without any condition, holds a point that it neither held nor was given |
| Stopping.StopAndHold | src/egm_trajectory_interface.cpp:951-1024 | an accepted stop is reached at rest within 253 messages and held with the joints frozen |
| Stopping.StopIsReached | src/egm_trajectory_interface.cpp:951-1024 | whatever commands interleave, a braking machine reaches (RampDown, Finished) within its bound |
| Stopping.BrakeTick | src/egm_trajectory_interface.cpp:899-1024 | one message brings the stop one message closer or reaches it |
| Stopping.BrakeCommand | src/egm_trajectory_interface.cpp:1186-1303 | no command calls a stop off while the ramp lasts |
| Stopping.HeldRun | src/egm_trajectory_interface.cpp:994-1013 | a held stop stays held, with velocities and accelerations zero and joints unchanged, until a resume |
| Stopping.StopFit | src/egm_interpolator.cpp:694-769 | fitting a stop leaves every axis in use with a polynomial that ends with zero velocity and acceleration |
| Stopping.StopEvaluation | src/egm_interpolator.cpp:771-857 | evaluated past its end, a stop gives zero rates and positions that do not change any more |
| Stopping.OrientationStops | src/egm_interpolator.cpp:567-592 | in pose mode every ramp down ends with zero angular velocity and an orientation that is only normalised from then on |
| Stopping.NoFade | src/egm_trajectory_interface.cpp:664-703 | outside the normal state the controller leaves the references alone |
| StaticGoals.StaticStageIsStill | src/egm_trajectory_interface.cpp:1047-1067 | in every run of a joint session, from a moment outside the static stage with no velocity goal pending until the next velocity goal, all joint velocities in the static stage are exactly zero, in spite of fast updates, faults and restarts |
| Pursuits.PositionTakenUp | src/egm_trajectory_interface.cpp:316-330 | the message that takes a position goal up starts its pursuit from the present references, moving or not, with 5 s or 0.1 s to go |
| Pursuits.PursuitRun | src/egm_interpolator.cpp:494-550 | followed for its duration, a pursuit lands at the goal plus one sample of the start velocity, and stays there with every message |
| Pursuits.FastGoalLands | src/egm_trajectory_interface.cpp:1250-1268 | from command to arrival: within 25 messages of a fast position goal given in any open static stage each joint is at its goal plus sample time times the velocity it had, and keeps that velocity |
| Pursuits.FastGoalReachedIff | src/egm_trajectory_interface.cpp:1250-1268 | so the goal is reached iff all joint velocities were zero when the command was given |
| Pursuits.FastGoalIsReached | src/egm_trajectory_interface.cpp:1250-1268 | in a static stage at rest the goal is reached exactly and held at rest |
| Pursuits.FastGoalMisses | src/egm_interpolator.cpp:522-524 | from any open static stage: a velocity goal followed by a position goal passes the position by sample time times that velocity |
| StaticEntries.MissedGoalRun | src/egm_interpolator.cpp:522-524 | a run from construction that misses its goal |
| StaticEntries.StaticStageIsEntered | src/egm_trajectory_interface.cpp:1232-1248 | an accepted startStaticGoal leads to the static stage, open to goals, within 255 messages |
| Pursuits.FastVelocityIsReached | src/egm_trajectory_interface.cpp:1270-1288 | from command to speed: within 25 messages of a fast velocity goal each joint it names has the given velocity |
| Pursuits.CruiseTick | src/egm_interpolator.cpp:524-550 | each message of a velocity goal advances every position by sample time times the new velocity |
| Pursuits.CruiseDistance | src/egm_interpolator.cpp:524-550 | once up to speed, the distance covered in a run is exactly speed times time |
| SlowGoals.SlowGoalIsReached | src/egm_trajectory_interface.cpp:1250-1268 | from command to arrival: a slow position goal given in a static stage not told to end, even one that moves after a velocity goal or already stops for an earlier goal, is reached exactly, in every joint it names, within 1504 messages (stop, new entry, 5 s) and held at rest |
| SlowGoals.EverySlowGoalIsReached | src/egm_trajectory_interface.cpp:1029-1095 | the same in every run of a joint session, whatever it has done before |
| StaticGoals.PositionRampLaw | src/egm_interpolator.cpp:494-550 | at every time a position ramp gives the eased position plus one sample of the start velocity, and keeps that velocity |
| StaticGoals.PositionRampEnd | src/egm_interpolator.cpp:494-550 | at its end a position ramp is at goal + sample time times start velocity |
| StaticGoals.GoalReachedIffStill | src/egm_interpolator.cpp:522-524 | one evaluation of a position ramp past its end gives the goal iff the start velocities are zero |
| Splicing.OwnSlots | src/egm_interpolator.cpp:694-857 | each robot joint, external joint and Cartesian axis is evaluated at every time from the polynomial fitted to it |
| Splicing.SlotClash | src/egm_interpolator.cpp:706-755 | in pose mode with fewer than three robot joints an external joint takes the slot of a Cartesian axis; otherwise none does |
| Splicing.GoalIsMet | src/egm_interpolator.cpp:694-857 | from its duration on a normal goal is met exactly in position, in velocity for Cubic and Quintic, in acceleration for Quintic |
| Splicing.SpliceIsContinuous | include/abb_libegm/egm_trajectory_interface.h:901-916 | a new fit starts at the last references in position, but for Linear in velocity, for Quintic in acceleration, also after the controller has faded them |
| Splicing.UpdatedStarts | src/egm_interpolator.cpp:156-274 | the same for one update of the interpolator |
| References.RunKeepsCourse | include/abb_libegm/egm_trajectory_interface.h:901-916 | in every run the interpolator holds the active goal and the positions are its polynomials at the time passed |
| References.RunSends | src/egm_trajectory_interface.cpp:572-703 | in every run whose sessions keep their joints, the outputs of an active goal are the references |
| References.JointsFollowGoal | src/egm_interpolator.cpp:771-857 | each joint reference follows the fit from its own start to its own goal, and is the goal from the end of its duration on |
| References.ProcessKeepsGoals | src/egm_trajectory_interface.cpp:899-1095 | a goal that stays active without being new is the goal that was active before |
| Splines.FitStart | src/egm_interpolator.cpp:164-274 | every method starts at the start position; Square, Cubic and Quintic also at the start velocity, Quintic at the start acceleration |
| Splines.FitEnd | src/egm_interpolator.cpp:164-274 | every method ends at the goal position; Cubic and Quintic at the goal velocity, Quintic at the goal acceleration |
| Splines.RampDownStart | src/egm_interpolator.cpp:136-162 | a ramp down starts at the start position and velocity |
| Splines.RampDownEnd | src/egm_interpolator.cpp:136-162 | a ramp down ends with K times the start velocity and zero acceleration |
| Splines.RampDownLaw | src/egm_interpolator.cpp:136-162 | the closed form of velocity and acceleration at every fraction of the ramp |
| Splines.RampDownEnvelope | include/abb_libegm/egm_interpolator.h:308-335 | on [0, T] the velocity stays between v0 and K v0, never reverses and shrinks monotonically |
| Quaternions.NormIsMultiplicative | src/egm_common_auxiliary.cpp:100-115 | the squared norm of a product is the product of the squared norms |
| Quaternions.DerivativeIsOrthogonal | src/egm_common_auxiliary.cpp:214-227 | the derivative for an angular velocity is orthogonal to the orientation |
| Quaternions.AdvanceNeverShrinks | src/egm_interpolator.cpp:581-590 | a ramp step adds the squared length of the step to the squared norm, so normalisation never divides by zero |
| Quaternions.EstimateInvertsAdvance | src/egm_common_auxiliary.cpp:259-288 | estimating from an un-normalised step of a unit quaternion returns the angular velocity it was made with |
| Uninitialised.OffsetIsNeverObserved | include/abb_libegm/egm_interpolator.h:534 | two machines that differ in the uninitialised offset behave alike in every run |
| Sizing.RunSized | src/egm_interpolator.cpp:694-769 | in every run whose sessions keep their number of joints no goal is read past its end, and the goal has exactly one position per joint |
| Sizing.TickSized | src/egm_trajectory_interface.cpp:769-838 | the same for one message |
| Pitfalls.RestartConservesIff | src/egm_trajectory_interface.cpp:884-897 | a first message preserves the work iff there is no current trajectory or its point is in hand |
| Pitfalls.RestartDuplicates | src/egm_trajectory_interface.cpp:884-897 | otherwise the stored point is there twice |
| Pitfalls.DuplicatingRun | src/egm_trajectory_interface.cpp:884-897 | a run of six steps from construction after which a restart duplicates the only point |
| Races.SecondResumeIsStale | src/egm_trajectory_interface.cpp:1202-1214 | a second resume is accepted while the first is carried out, and its flag is still set in the running stage |
| Races.StopIsGivenUp | src/egm_trajectory_interface.cpp:994-1013 | with a resume flag set, whatever commands arrive, a stop is reached within its bound and given up at once |
| Races.StopAfterSecondResume | src/egm_trajectory_interface.cpp:1202-1214 | the whole run: resume twice, and the next accepted stop does not hold |
| Races.StopHoldsIff | src/egm_trajectory_interface.cpp:994-1013 | a stop, when reached, waits iff no resume flag was set, and is otherwise left with the next message |
| Races.FastGoalTakenUpIff | src/egm_trajectory_interface.cpp:1250-1268 | a fast position goal accepted in the static stage is taken up by the next message iff no transition was pending |
| Races.FastGoalAbandonsStatic | src/egm_trajectory_interface.cpp:1258-1259 | given while a ramp down is pending, it turns the stop into a half ramp; within 128 messages, under any commands, the machine is in the normal state with the goal still pending |
| Races.FastGoalAfterFinish | src/egm_trajectory_interface.cpp:1080-1092 | given while the end of the static stage is pending, it is dropped and makes the closing stop resume by itself |
| Pitfalls.LastFlagIff | src/egm_trajectory_interface.cpp:1105-1115 | the executed point is forced to be reached iff it asks for it or was alone in its trajectory |
| Pitfalls.ResumedPointIsNotFaded | src/egm_trajectory_interface.cpp:784-799 | the point taken up by a resume is followed with the controller set for a ramp down |
| Messages.CopyPresent | src/egm_common_auxiliary.cpp:358-367 | the source's values over the target's, the length unchanged |
| Messages.MaxDifferenceIsMaximum | src/egm_common_auxiliary.cpp:321-331 | the result bounds every difference and is one of them unless zero |
| Messages.FindMaxDifference | src/egm_common_auxiliary.cpp:321-331 | the loop computes that maximum |
| InterpolatorObject.EGMInterpolator.Update | src/egm_interpolator.cpp:694-769 | the twelve slots, offset, Slerp, ramp and clamped conditions after an update in place |
| InterpolatorObject.EGMInterpolator.FitJoints | src/egm_interpolator.cpp:713-725 | the loop fits one slot per joint and leaves all others alone |
| InterpolatorObject.EGMInterpolator.Evaluate | src/egm_interpolator.cpp:771-857 | the evaluated reference, over every operation and mode |
| InterpolatorObject.EGMInterpolator.RampPositions | src/egm_interpolator.cpp:496-522 | the position loop of the joint ramp |
| InterpolatorObject.EGMInterpolator.RampVelocities | src/egm_interpolator.cpp:524-550 | the velocity loop of the joint ramp, entered by fall-through too |
| Components.StateManager.SetPendingState | src/egm_trajectory_interface.cpp:62-135 | the guard, state by state, is the table of legal successors |
| Components.StateManager.UpdateState | include/abb_libegm/egm_trajectory_interface.h:633-769 | a pending stage becomes current |
| Components.Trajectory.RetrieveNext | include/abb_libegm/egm_trajectory_interface.h:222-317 | pops the front point, or leaves the target alone |
| Components.MotionStep.PrepareNormalGoal | src/egm_trajectory_interface.cpp:243-295 | the prepared goal, mode and conditions |
| Components.MotionStep.EstimateDuration | src/egm_trajectory_interface.cpp:387-441 | the estimate of a missing duration, and the goal at rest |
| Components.MotionStep.PrepareRampDownGoal | src/egm_trajectory_interface.cpp:297-314 | 1 s to zero for a stop, 0.5 s to half otherwise |
| Components.MotionStep.PrepareStaticPosition | src/egm_trajectory_interface.cpp:316-330 | the references with the given positions laid over them |
| Components.MotionStep.PrepareStaticVelocity | src/egm_trajectory_interface.cpp:332-346 | the references with the given velocities laid over them |
| Components.MotionStep.ConditionMet | src/egm_trajectory_interface.cpp:348-381 | whether the feedback meets the prepared goal |
| Components.MotionStep.CheckJoints | src/egm_trajectory_interface.cpp:443-449 | the early-exit loop decides whether all common joints are close |
| Components.Controller.Calculate | src/egm_trajectory_interface.cpp:572-662 | outputs that follow the references, which are faded in place |
| Components.Controller.CalculateJoints | src/egm_trajectory_interface.cpp:680-703 | the joint loop over the common prefix |
| TrajectoryMotionObject.TrajectoryMotion.Callback | src/egm_trajectory_interface.cpp:1348-1382 | preparing the outputs and generating them is one step of the machine, and keeps all invariants |
| TrajectoryMotionObject.TrajectoryMotion.GenerateOutputs | src/egm_trajectory_interface.cpp:769-838 | from outputs prepared for the message, one step of the machine |
| TrajectoryMotionObject.TrajectoryMotion.Prepare | src/egm_trajectory_interface.cpp:844-882 | restart, activation and fault handling on the objects |
| TrajectoryMotionObject.TrajectoryMotion.Reset | src/egm_trajectory_interface.cpp:884-897 | the current trajectory goes back to the queue with its point; events survive |
| TrajectoryMotionObject.TrajectoryMotion.ProcessNormalState | src/egm_trajectory_interface.cpp:899-949 | the normal state |
| TrajectoryMotionObject.TrajectoryMotion.ProcessRampDownState | src/egm_trajectory_interface.cpp:951-1027 | the ramp-down state, with factor and discard |
| TrajectoryMotionObject.TrajectoryMotion.ProcessStaticGoalState | src/egm_trajectory_interface.cpp:1029-1095 | the static state |
| TrajectoryMotionObject.TrajectoryMotion.UpdateNormalGoal | src/egm_trajectory_interface.cpp:1097-1132 | the current trajectory object after taking the next point, no other trajectory touched |
| TrajectoryMotionObject.TrajectoryMotion.SkipMetPoints | src/egm_trajectory_interface.cpp:1110-1115 | the skip loop terminates and finds the point to execute |
| TrajectoryMotionObject.TrajectoryMotion.StoreNormalGoal | src/egm_trajectory_interface.cpp:1134-1143 | the active point goes back with its remaining duration |
| TrajectoryMotionObject.TrajectoryMotion.AddTrajectory | src/egm_trajectory_interface.cpp:1149-1184 | accepted iff running; then queued, or kept for an override |
| TrajectoryMotionObject.TrajectoryMotion.StopTrajectory | src/egm_trajectory_interface.cpp:1186-1200 | accepted iff running; a rejected call changes nothing |
| TrajectoryMotionObject.TrajectoryMotion.ResumeTrajectory | src/egm_trajectory_interface.cpp:1202-1214 | accepted iff stopped |
| TrajectoryMotionObject.TrajectoryMotion.UpdateDurationFactor | src/egm_trajectory_interface.cpp:1216-1230 | accepted iff running; the factor is clamped to [1, 5] |
| TrajectoryMotionObject.TrajectoryMotion.StartStaticGoal | src/egm_trajectory_interface.cpp:1232-1248 | accepted iff running |
| TrajectoryMotionObject.TrajectoryMotion.SetStaticPosition | src/egm_trajectory_interface.cpp:1250-1268 | accepted iff static; replaces a pending velocity goal |
| TrajectoryMotionObject.TrajectoryMotion.SetStaticVelocity | src/egm_trajectory_interface.cpp:1270-1288 | accepted iff static; replaces a pending position goal |
| TrajectoryMotionObject.TrajectoryMotion.FinishStaticGoal | src/egm_trajectory_interface.cpp:1290-1303 | accepted iff static |
| TrajectoryMotionObject.TrajectoryMotion.Configure | include/abb_libegm/egm_trajectory_interface.h:343-347 | a new spline method takes effect with the next fit, nothing else changes |
| Wire.ParseThenReply | src/egm_common_auxiliary.cpp:716-791 | controller joints parsed and sent back are unchanged iff at most six are external |
| Wire.ReplyThenParse | src/egm_base_interface.cpp:501-584 | robot joints sent and parsed back are unchanged iff the wire has room for the external ones |
| Wire.Parse | src/egm_common_auxiliary.cpp:716-791 | the parser for no, six and seven axes, with its error cases |
| Wire.Map | src/egm_base_interface.cpp:523-582 | the mapping of one kind of joint values into a reply |
| Wire.Verify | src/egm_common_auxiliary.cpp:983-994 | true iff no value is NaN or infinite |
| Wire.OutputContainer.ConstructReply | src/egm_base_interface.cpp:399-418 | a reply exists iff everything it needs is present and finite, and is then new in every configured part; the persistent message never holds NaN or infinity |
| Wire.OutputContainer.ConstructJointBody | src/egm_base_interface.cpp:501-664 | when the joint half succeeds, what it writes and what it leaves |
| Wire.OutputContainer.ConstructCartesianBody | src/egm_base_interface.cpp:666-756 | the same for the Cartesian half |
| Wire.OutputContainer.PrepareOutputs | src/egm_base_interface.cpp:274-312 | a first message makes the outputs the feedback at rest; the sequence number wraps at 2^32 |
| Wire.ReplyShape | src/egm_base_interface.cpp:501-584 | a reply has no or exactly six robot joints as configured, and at most six external ones |
| Wire.FirstReply | src/egm_trajectory_interface.cpp:1348-1382 | the callback for a first message: if the machine leaves the prepared outputs alone the reply commands exactly the feedback joints, and exists iff values are finite and, with velocity outputs, there is one velocity per robot joint; otherwise what was generated is sent |
| FirstMessages.FirstMessageIff | src/egm_trajectory_interface.cpp:844-949 | a first message starts a point, and so writes the outputs, iff it is OK, no ramp down is pending and the front of the parked work has a point left to execute; otherwise they are the feedback, Euler angles included |
| FirstMessages.FirstJointsIff | src/egm_trajectory_interface.cpp:844-949 | the joints commanded by a first message are those reported iff nothing is started, or a pose is, or every fitted polynomial is at its start after one sample |
| FirstMessages.StillThereIff | src/egm_interpolator.cpp:164-274 | the latter means that every joint is already at its goal: for the linear and square methods always, for cubic and quintic if the goal is at rest |
| FirstMessages.FirstMessageMoves | src/egm_trajectory_interface.cpp:769-809 | otherwise a joint point is started and each joint sent is its polynomial one sample on the way |
| FirstMessages.FirstReplyRuns | src/egm_trajectory_interface.cpp:1348-1382 | a run from construction whose restart sends 0.004 for a joint at 0 |
| FirstMessages.FirstReplyIsFeedback | src/egm_base_interface.cpp:274-312 | a first message that starts nothing is answered with exactly the joints on the wire |
| Wire.StaleSpeeds | src/egm_base_interface.cpp:586-664 | with velocity outputs off a reply still carries the last speeds |
| SampleTime.EstimateSampleTime | src/egm_base_interface.cpp:178-203 | the estimate for all clocks, absent or not: whole milliseconds of the wrapped difference, at least 0.004 s |
| SampleTime.BorrowIsRepaid | src/egm_base_interface.cpp:187-192 | subtracting fields modulo 2^64 and adding the seconds is subtracting the clocks modulo 2^64 |
| SampleTime.ElapsedIff | src/egm_base_interface.cpp:187-192 | that is the true elapsed time iff the clock did not go backwards |
| SampleTime.BackwardsClock | src/egm_base_interface.cpp:187-192 | one microsecond backwards gives an estimate of more than 18 million million seconds |
| Handshake.ControllerMotion.Initialize | src/egm_controller_interface.cpp:57-67 | a new session forgets what either side had put up |
| Handshake.ControllerMotion.WriteOutputs | src/egm_controller_interface.cpp:126-134 | a write replaces an output nobody has fetched |
| Handshake.ControllerMotion.ReadOutputs | src/egm_controller_interface.cpp:79-95 | a fetched output is the latest write, newer than all fetched before; a time-out changes nothing |
| Handshake.ConsumedIsSubsequence | src/egm_controller_interface.cpp:57-134 | the outputs consumed in a session are a subsequence of its writes, none used twice |

## Left out

- UDP server, sockets, threads and connection time-outs: input and output, outside the logic.
- Protobuf encoding: messages are datatypes with optional fields; encoding is taken to succeed.
- EGMLogger and the demo outputs: no rule that spans operations.
- Header, status and version parsing, and the estimate of feedback velocities for joints and poses: easy members; the resulting feedback is an arbitrary input of a message.
- Execution progress: a copy of the state for display, never read back by the machine. The output pointer of generateOutputs is not null, as in its only call.
- Slerp and the Euler conversions: arbitrary functions, so nothing is proved about the orientation between start and goal of a normal pose goal.
- Floating-point rounding: motion is modelled over reals; NaN and infinity occur only where the reply is verified.
- Division by a zero duration: for an elapsed time above zero the source's quotient is plus infinity and saturates to one, as modelled; the derivative of a ramp of zero length, which no static goal has, is given the value zero. Signed zeros are not modelled.
- Configuration changes other than the spline method: they take effect at the next session and do not reach the machine.
- waitForMessage: only timing; the flag it waits for is in the model.
- Stopping.StopAndHold: in pose mode the robot's own joint references are not controlled and not covered; the orientation is covered by Stopping.OrientationStops, up to normalisation.
- StaticGoals.StaticStageIsStill: joint sessions only; a pose goal has the fall-through offset in the orientation too, through functions that are arbitrary here.
- Splicing.SpliceIsContinuous: joint mode only; in pose mode the external joints and axes are covered by Splicing.OwnSlots and Splines.FitStart.
- TrajectoryMotionObject.TrajectoryMotion.GenerateOutputs: requires that a session has at most twelve joints and never fewer than it started with; the source reads past the end of a message otherwise. The same holds for TrajectoryMotionObject.TrajectoryMotion.Callback.
- Guarantees.EveryJointFollowsItsGoal: positions only; velocities are scaled by the controller as Components.Controller.Calculate states. It requires one velocity per joint in the feedback, which the library estimates itself.
- Timing.TimeIsConserved: for duration factor 1; other factors are covered per resume by Timing.ResumeScales.
- Progressing.WorkIsDone: joint points with a given duration; the estimated duration of a point without one depends on the feedback when its turn comes, and a pose point needs an exact orientation.
- FirstMessages.StillThereIff: a cubic or quintic whose goal has a velocity or acceleration may pass its start on the way, so for these FirstMessages.FirstJointsIff stands as it is.
- Pursuits.FastGoalReachedIff: joint goals only, for the same reason as StaticGoals.StaticStageIsStill.
