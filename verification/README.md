# Verified model of the owner-side layer of the Waddle SDK

This project models the part of the SDK that stands between a remote policy and a robot: the
owner's envelope around every arm, the e-stop latch, the lock on a site, and the bounded data
structures that feed both. It is written in Dafny 4.11; `dafny verify dfyconfig.toml` checks all of it.
Paths in the table below are relative to the root of the SDK's repository.

## What is modelled

* **The envelope and its twin** — `Rotation`, `Kinematics`, `Quaternion`, `Turns`, `Solids`, `Envelope`, `Caps`,
  `Recovery`, `Admission`, `Drift`, `Twin`, `TwinSafety`, `Unit`. `Arm.check` is a method proved to admit exactly the rows
  that one predicate, `Envelope.Admissible`, allows. Forward kinematics and body geometry are
  arbitrary functions, so every statement holds for any robot; `Admission` states the whole rule over a
  part's declared fields and over points, and `Turns` says where rotations, chains and quaternions take points. What the geometric tests mean is
  proved in terms of points: a sphere test says something about every point of two solid balls. The
  twin is a class; a run of it is a sequence of driver calls, which is what any interleaving of
  threads amounts to because each call holds the driver's own lock. Square root, sine and cosine are
  arbitrary functions of which only `sqrt(x)^2 = x` and `cos^2 + sin^2 = 1` are used.
* **Decisions across parts** — `CrossPart`, `Decision`. `apply_decision` is a method over a class with
  one history of all driver calls; what each call returns, and whether it raises, is an arbitrary
  function of that history.
* **The latch of a whole cell** — `Console`: stop-all, scene reset, console gestures and the park gate
  over every run, with other threads' calls landing inside a reset, and with any driver call, reading of
  the latches or line of report raising.
* **Ownership** — `Calls` is the history of all calls made for a site, the reports of failed closes among
  them, each of which may return, raise or be interrupted, and what such a history leaves behind.
  `Lifecycle` says which calls are made, as functions of what the calls do; `Ownership` holds the session,
  assembly and rig classes, proved to make exactly those. `Releases`, `Outcomes`, `SiteSafety` and `Order` are
  the theorems, `Mishaps` the inputs on which a teardown falls short. `Administration`: trusted reset of a
  simulated site.
* **Streams** — `Pairing` (RGB-D), `EventLog`, `Pump` (deadlines), `CanBus` (reply matching). Each
  class carries its simple specification as ghost state and is proved to agree with it.
* **Graphs, trees and rows** — `Frames`, `Bodies`, `Randomized`, `Layout`.

`Wrappers` holds what several modules share. *Interrupted* means ended by an exception that
`except Exception` lets through, as Ctrl-C is. Numbers are reals and unbounded integers; a commanded or
measured number, and a step cap, may also be a NaN or an infinity (`Envelope.Scalar`).

## What was found false, and when it holds

* A target outside the workspace box is meant to be admitted only while it leads back towards the
  box. The tolerance is granted anew at each command: over a run a face can get worse by one
  tolerance a command (`Drift.DriftAttained`) and by no more (`Recovery.RunExcessBound`). Exactly which
  starts allow it: an accepted command can make some face of some part worse if and only if the largest
  excess measured is above the tolerance (`Drift.DriftsIff`). From a milder start every accepted target
  is inside (`Recovery.RunStaysInside`), and a run that is inside never leaves (`Recovery.RunNeverLeaves`).
* A cap is meant to bound how far from its measured position a joint is sent. No comparison with a NaN
  holds, so a joint measured as one passes: on a part without further rules it may be sent anywhere within
  its limits (`Caps.AnywhereAdmitted`). A joint of an admitted command is within its cap if and only if it was
  not measured as a NaN and its cap is a number (`Caps.BoundedIff`); over all parts with such caps and all
  commands the caps hold exactly from measurements with no NaN, or with an infinity, from which nothing is
  admitted (`Caps.CapsHoldIff`).
* The site lock is meant to be released only with everything closed. A failed build closes what it had
  opened, and the session keeps the lock if it hears that such a close is not confirmed. It does not hear of
  it in four cases: that close was interrupted; it raised and the report of that failed; it raised, and the
  rig's announcement that it could not open failed; or it was that of the authorization probe, which raises an
  ordinary exception. Then the lock is released with the unit live. A release is safe if and only if none of
  these happened under that lock (`SiteSafety.ReleasesSafeIff`, with `Calls.Loses` for the four cases). The
  inputs: `Mishaps.LostArmIff`, where one arm's close goes wrong in each of the first three ways and no other
  call of the opening does, and `Mishaps.LostProbe`.
* A teardown is meant to give a close to everything. A stretch of closings is cut short by an interrupt, or
  by a report that fails. Past the service thread, a unit has had no close tried if and only if some stretch
  was cut while it still had that unit to close: nothing else leaves a unit out, and nothing closes it later
  (`SiteSafety.UntriedIff`, with `Calls.Spares` for what a cut leaves out). A cut at the last unit of its stretch
  leaves out nothing; one at a camera leaves out the core and the arms, with no interrupt at all
  (`Mishaps.CutAtCamera`). The service thread comes before all that: made and never run, or not stopped in
  time, it ends the teardown there (`SiteSafety.StuckIff`, with `SiteSafety.Unstartable` and
  `SiteSafety.Unjoinable` for the two inputs).
* A trusted reset is meant to be fail-stop, and a snapshot to count the resets that returned. An
  interrupt passes the handler that records a failure. After a reset that began and did not return,
  nothing more can succeed if and only if it was not interrupted (`Administration.FailStopIff`; the input
  is `Administration.ResetThenSnapshot`). A snapshot counts the resets returned since its bind if and only
  if no reset since then was interrupted in the reads that follow its counting
  (`Administration.RevisionCountsIff`; the input is `Administration.CountThenSnapshot`).
* The decisions a resolved scene records are keyed by a dotted path, and the schema allows dots in names,
  so `m` inside `n` and a key `n.m` beside it share one record (`Randomized.DottedKeysCollide`). A scene
  can hold such a pair in its free-form `backend_extensions`. Any one resolution replays if and only if its
  record still holds, at the path of each outermost distribution, what that one resolved to
  (`Randomized.KeptIff`). A document whose outermost distributions are well-formed uniform ones replays whatever
  is drawn if and only if those that share a path are constants of one value (`Randomized.ReplaysIff`), so that
  ranges of more than one number need pairwise distinct paths. With choices too, it replays whatever is
  drawn if no distribution may record at the path of an earlier one (`Randomized.DecisionsReplay`), and distinct
  keys without `.` and `[` are enough for that (`Randomized.PlainUndisturbed`).
* A refused decision is meant to hold every addressed part. It is counted and reported before the first
  hold, so a report that raises leaves every part unheld, walking to its earlier target. Every addressed part
  is asked to hold if and only if the report returned and no hold but the last was interrupted
  (`Decision.Rig.AllAsked`, tied to the calls made by `Decision.Rig.Refusing` in the contract of
  `Decision.Rig.ApplyDecision`).
* Every part is meant to be asked to stop, to resume or to close even if an earlier one fails. An interrupt
  ends each of these loops, and so does a report that raises inside it (`Console.Cell.StopAll`,
  `Console.Cell.Gesture`, `Ownership.Ledger.CloseAll` say exactly how far they get).
* The window bound of the robot's loop cannot be improved: `Pump.WindowBoundTight` meets it.

## Model

| member | source | states |
|---|---|---|
| Rotation.RpyRotation | sdk/python/waddle_sdk/robots/base.py:128-136 | roll, pitch and yaw always give an orthonormal matrix of determinant one |
| Rotation.TimesRotation | sdk/python/waddle_sdk/robots/base.py:139-166 | rotations are closed under the product a chain is folded with |
| Rotation.RotationColumns | sdk/python/waddle_sdk/robots/base.py:128-136 | rows orthonormal with determinant one imply columns orthonormal |
| Rotation.RotationRightHanded | sdk/python/waddle_sdk/robots/base.py:128-136 | the rows of a rotation form a right-handed frame: each is the cross product of the other two |
| Turns.RpyAxes | sdk/python/waddle_sdk/robots/base.py:128-136 | where roll, pitch and yaw take the three axes, in cosines and sines: +X to (cos y cos p, sin y cos p, -sin p) whatever the roll, and the last row is (-sin p, cos p sin r, cos p cos r) |
| Turns.PureTurns | sdk/python/waddle_sdk/robots/base.py:128-136 | a pure roll, pitch or yaw fixes its own axis and turns the next axis towards the one after |
| Kinematics.ChainFk | sdk/python/waddle_sdk/robots/base.py:139-166 | the base-outwards accumulation equals the composition of the joints read from the tip, for every chain |
| Kinematics.ChainRotation | sdk/python/waddle_sdk/robots/base.py:139-166 | a chain of any length ends in a rotation |
| Kinematics.ComposeAssociative | sdk/python/waddle_sdk/robots/base.py:139-166 | composing poses is associative, so the fold order does not matter |
| Turns.JointAxes | sdk/python/waddle_sdk/robots/base.py:139-166 | a joint stands at its origin, its own +Z does not move with its angle, and its +X turns by that angle towards +Y |
| Turns.ComposeSeen | sdk/python/waddle_sdk/robots/base.py:139-166 | the composed pose of two frames carries a point as the inner one and then the outer one does |
| Turns.ChainSeen | sdk/python/waddle_sdk/robots/base.py:139-166 | what the end of a chain of any length sees, the base sees where the joints carry it: each turns it about its +Z by its angle, then by its roll, pitch and yaw, and moves it to its origin |
| Quaternion.DivisorAtLeastTwo | sdk/python/waddle_sdk/robots/base.py:169-206 | for every 3x3 matrix at all, whichever branch is taken, the divisor is at least two |
| Quaternion.QuaternionProducts | sdk/python/waddle_sdk/robots/base.py:169-206 | for a rotation, all ten products of the four components are the entries of one table read off the matrix, in every branch |
| Quaternion.MatrixRoundTrip | sdk/python/waddle_sdk/robots/base.py:169-206 | the quaternion of a rotation is a unit one and its pose matrix is that rotation again |
| Quaternion.PoseRotation | sdk/python/waddle_sdk/robots/mujoco_scene.py:58-72 | the pose matrix of every unit quaternion is a rotation |
| Quaternion.PoseInjective | sdk/python/waddle_sdk/robots/mujoco_scene.py:58-72 | two unit quaternions with one matrix differ at most in sign |
| Quaternion.QuaternionRoundTrip | sdk/python/waddle_sdk/robots/mujoco_scene.py:58-72 | matrix and back gives a unit quaternion, the same up to sign |
| Quaternion.MultiplyMatches | sdk/python/waddle_sdk/robots/mujoco_scene.py:113-121 | the product of unit quaternions is a unit one and stands for the product of their rotations |
| Turns.HalfTurns | sdk/python/waddle_sdk/robots/mujoco_scene.py:58-72 | the quaternion (c, s along an axis) turns by twice the angle of (c, s) about that axis, from the next axis towards the one after |
| Turns.LeadingPositive | sdk/python/waddle_sdk/robots/base.py:169-206 | of the two quaternions of a rotation the one with a leading component of at least one half is returned |
| Solids.OverlapMeaning | sdk/python/waddle_sdk/robots/base.py:574-586 | two spheres are reported as overlapping exactly when some point of one solid ball is within the margin of some point of the other |
| Solids.HitsBoxMeaning | sdk/python/waddle_sdk/robots/base.py:589-604 | a box keep-out is hit exactly when some point of the ball is within the margin of some point of the box |
| Solids.NoExcessMeaning | sdk/python/waddle_sdk/robots/base.py:607-616 | no face is exceeded exactly when every point of the ball lies in the box |
| Solids.ExcessBounds | sdk/python/waddle_sdk/robots/base.py:607-616 | no point of a ball is further beyond a face of the box than that face's excess |
| Solids.ExcessReached | sdk/python/waddle_sdk/robots/base.py:607-616 | and where an excess is positive some point of the ball is exactly that far beyond the face |
| Envelope.Check | sdk/python/waddle_sdk/robots/base.py:922-1055 | a row is admitted exactly when it is admissible: widths, finiteness, limits, the cap test against the measured row as the source computes it, NaNs and infinities included, workspace or recovery, keep-outs, self-collision; the refusal names the first joint at fault, and it raises exactly when the kinematics does on a row let through so far |
| Envelope.CheckWorkspace | sdk/python/waddle_sdk/robots/base.py:982-1051 | the workspace part admits exactly rows that are inside or recover, and raises exactly when the kinematics does |
| Envelope.CheckRecovery | sdk/python/waddle_sdk/robots/base.py:1016-1051 | an outside target is admitted exactly when the same bodies were measured, no face is worse and one is better, beyond the tolerance |
| Envelope.EarlierExcesses | sdk/python/waddle_sdk/robots/base.py:1017-1040 | the table built from the measured pose is that pose's own table of excesses, or the refusal is one of missing or changed geometry |
| Envelope.CheckBodies | sdk/python/waddle_sdk/robots/base.py:862-893 | keep-outs and self-collision admit exactly rows whose bodies are clear of both |
| Admission.AdmissibleIff | sdk/python/waddle_sdk/robots/base.py:922-1055 | a row is admissible exactly when, over the declared fields: widths agree, every number is finite and within its limits, every measured joint is within its position error cap where the part has any and within its step cap otherwise, NaNs and infinities included, and the workspace and body rules below hold |
| Admission.StepCapsIdle | sdk/python/waddle_sdk/robots/base.py:958-960 | two parts with position error caps that differ only in step caps admit the same rows |
| Admission.GeometryMeans | sdk/python/waddle_sdk/robots/base.py:834-860 | kinematics and bodies are asked about the first `arm_dof` joints; a body's name without a slash gets the part's before it; repeated names are no geometry |
| Admission.HandIrrelevant | sdk/python/waddle_sdk/robots/base.py:834-860 | rows that agree on the arm's joints meet the geometric rules alike |
| Admission.InsideIff | sdk/python/waddle_sdk/robots/base.py:982-1015 | inside means, by coordinates, that the tool point and every point of every body lie between the corners of the box |
| Admission.ClearIff | sdk/python/waddle_sdk/robots/base.py:862-893 | clear means, by points, that nothing comes within any keep-out's margin and no two bodies not ignored come within the part's; a part with neither rule is bound by nothing |
| Admission.RecoversIff | sdk/python/waddle_sdk/robots/base.py:1016-1051 | a recovery compares tool point with tool point and body with body of one name and size: every face at most 1e-9 further out, and some face at least 1e-9 further in |
| Caps.BoundedIff | sdk/python/waddle_sdk/robots/base.py:958-981 | a joint of an admitted command is told to be within its cap of where it was measured, if and only if it was not measured as a NaN and its cap is a number |
| Caps.WithinCapsIff | sdk/python/waddle_sdk/robots/base.py:958-981 | the same of the whole command |
| Caps.CapsHoldIff | sdk/python/waddle_sdk/robots/base.py:958-981 | the measurements from which every part with numeric caps admits only rows within them are exactly those without a NaN, and those with an infinity |
| Caps.AnywhereAdmitted | sdk/python/waddle_sdk/robots/base.py:958-981 | the input: a joint measured as a NaN, on a part without further rules, may be sent anywhere within its limits |
| Recovery.InsideMeaning | sdk/python/waddle_sdk/robots/base.py:607-616 | the workspace test holds exactly when the tool point and every point of every body are in the box |
| Recovery.KeepoutMeaning | sdk/python/waddle_sdk/robots/base.py:589-604 | a body passes a keep-out exactly when no point of it comes within the margin |
| Recovery.ClearMeaning | sdk/python/waddle_sdk/robots/base.py:862-893 | the static rules hold exactly when, as solids, all bodies keep all margins |
| Recovery.MildAdmitsInside | sdk/python/waddle_sdk/robots/base.py:982-1051 | measured outside by at most the tolerance, only targets fully inside are admitted |
| Recovery.RunStaysInside | sdk/python/waddle_sdk/robots/base.py:982-1051 | over any run from such a start, every accepted target is fully inside |
| Recovery.RunExcessBound | sdk/python/waddle_sdk/robots/base.py:982-1051 | from any start, after k accepted commands each face's excess is at most its first value plus k tolerances |
| Drift.DriftAttained | sdk/python/waddle_sdk/robots/base.py:1041-1051 | that bound is attained: for every length there is a part and a run of accepted commands along which one face gets worse by one tolerance each time |
| Drift.DriftsIff | sdk/python/waddle_sdk/robots/base.py:1016-1051 | an accepted command can make some face of some part worse, from a start of largest excess e, if and only if e is above the tolerance |
| Recovery.RunNeverLeaves | sdk/python/waddle_sdk/robots/base.py:982-1051 | a run that was inside once stays inside |
| Twin.LatchFreezes | sdk/python/waddle_sdk/robots/base.py:419-477 | while latched, no sequence of calls without a re-enable changes anything |
| Twin.LatchOverRun | sdk/python/waddle_sdk/robots/base.py:432-477 | from a stop, however it falls among other calls, to the re-enable: position constant, target equal to it, velocity zero |
| Twin.ResumeForgets | sdk/python/waddle_sdk/robots/base.py:443-453 | after the re-enable the target is the pose the stop found; nothing commanded earlier, or while latched, survives |
| Twin.HoldStands | sdk/python/waddle_sdk/robots/base.py:432-435 | from a hold, latched or not, over any run of periods, holds, stops and resumes, the twin stays where the hold found it |
| Twin.QuietStands | sdk/python/waddle_sdk/robots/base.py:432-477 | a twin that is stopped or told to be where it is does not move over any such run |
| Twin.RunBounded | sdk/python/waddle_sdk/robots/base.py:419-477 | positions and targets never leave the limits, whatever is written |
| Twin.RunTravel | sdk/python/waddle_sdk/robots/base.py:469-477 | without a homing, a joint moves at most its cap times the periods elapsed, over any run |
| Twin.StepSpeed | sdk/python/waddle_sdk/robots/base.py:469-477 | the reported velocity is at most the cap times the rate |
| Twin.StepMoves | sdk/python/waddle_sdk/robots/base.py:469-477 | one period takes a joint to its target if that is within the period's travel and otherwise exactly that far towards it; the velocity is the distance covered over the time |
| TwinSafety.ClipIsNoOp | sdk/python/waddle_sdk/robots/base.py:419-430 | for a row inside the limits the driver's clip changes nothing |
| TwinSafety.EventKeepsSafe | sdk/python/waddle_sdk/robots/mock.py:145-168 | one legal call keeps position and target safe and within caps of each other |
| TwinSafety.RunKeepsSafe | sdk/python/waddle_sdk/robots/mock.py:145-168 | every run of commands, periods, holds, homings, stops and resumes keeps it |
| TwinSafety.ReachableSafe | sdk/python/waddle_sdk/robots/mock.py:145-168 | in every reachable state position and target are inside the limits and, as solids, inside the workspace, clear of keep-outs and of each other, with the target within the caps |
| TwinSafety.AcceptedIsReached | sdk/python/waddle_sdk/robots/base.py:469-477 | in every reachable state an accepted target is where the twin stands one full period later |
| Unit.MakeSimDriver | sdk/python/waddle_sdk/robots/base.py:384-408 | a twin is built exactly when its four rows have one width, standing at its home |
| Unit.SimDriver.Write | sdk/python/waddle_sdk/robots/base.py:419-430 | ignored while latched or for an empty row; else each target is the number commanded, clipped to its limits; nothing else changes |
| Unit.SimDriver.Hold | sdk/python/waddle_sdk/robots/base.py:432-435 | the target becomes the position, the velocity zero, the latch stays as it was |
| Unit.SimDriver.Estop | sdk/python/waddle_sdk/robots/base.py:437-441 | latched, target at the position, no velocity |
| Unit.SimDriver.ReEnable | sdk/python/waddle_sdk/robots/base.py:443-453 | unlatched, target at the position, no velocity |
| Unit.SimDriver.Home | sdk/python/waddle_sdk/robots/base.py:455-467 | unless latched, position and target become the pose and the velocity zero; it says so; else nothing changes |
| Unit.SimDriver.Step | sdk/python/waddle_sdk/robots/base.py:469-477 | one period moves each joint by its clipped delta, and not at all while latched |
| Unit.ArmUnit.Command | sdk/python/waddle_sdk/robots/base.py:1057-1092 | a non-empty row is applied, unmodified, exactly when not latched and admissible at the measured pose; a refusal counts once, also when its report raises, and from it the twin stands over every run of periods, holds, stops and resumes; it raises otherwise exactly when the kinematics does; the safe state is kept on every exit |
| Unit.ArmUnit.Stop | sdk/python/waddle_sdk/robots/base.py:1097-1098 | a stop keeps the unit safe and latches its twin |
| Unit.ArmUnit.Resume | sdk/python/waddle_sdk/robots/base.py:1100-1101 | clearing the latch keeps the unit safe |
| Unit.ArmUnit.GoHome | sdk/python/waddle_sdk/robots/base.py:1106-1113 | homing keeps the unit safe and succeeds exactly when not latched |
| Unit.ArmUnit.Period | sdk/python/waddle_sdk/robots/base.py:1103-1104 | a full period keeps the unit safe and, unless latched, reaches the target |
| CrossPart.CrossArmRefusal | sdk/python/waddle_sdk/robots/base.py:1146-1196 | refuses exactly when some enabled part's geometry is malformed, frames differ, or some pair that is not ignored overlaps at the larger margin; the part named is the first at fault |
| CrossPart.PairRefusal | sdk/python/waddle_sdk/robots/base.py:1168-1195 | two parts are refused exactly when they are not clear of each other |
| CrossPart.CrossClearMeaning | sdk/python/waddle_sdk/robots/base.py:1146-1196 | acceptance means no two points of two bodies of different parts, unless ignored, are within the larger margin |
| CrossPart.CrossClearIff | sdk/python/waddle_sdk/robots/base.py:1146-1196 | over rows, arms and points: accepted exactly when every placement that moves and checks collisions has bodies and any two of them share a frame and are apart, but for pairs either ignores, by the larger margin |
| CrossPart.FaultMeans | sdk/python/waddle_sdk/robots/base.py:1146-1196 | a refusal names a placement that moves and checks collisions, and that has no bodies or is not apart from a later one |
| CrossPart.OrderIrrelevant | sdk/python/waddle_sdk/robots/base.py:1146-1196 | the verdict is the same for every order of the parts |
| Decision.ModifiersIff | sdk/python/waddle_sdk/robots/base.py:1224-1262 | forces and velocities name addressed parts only; a force is a number that is zero or within the part's force limits; velocities are as many numbers as the row holds |
| Decision.Rig.Preflight | sdk/python/waddle_sdk/robots/base.py:1264-1297 | only reads happen; it raises exactly for an undeclared part, velocities that do not fit, a read that raised or a part's own kinematics; else every row passed at its own measurement, or the part named is the first that objects |
| Decision.Rig.ReadNeighbours | sdk/python/waddle_sdk/robots/base.py:1299-1310 | exactly the unaddressed parts that take part in cross-part checks are read, each at a fresh measurement; it raises exactly when a read did |
| Decision.Rig.Judge | sdk/python/waddle_sdk/robots/base.py:1264-1310 | the verdict on the whole decision is reached by reading alone, and parts that are not addressed are read only if neighbours are to be checked and both they and some addressed part take part in cross-part checks; it raises exactly for one of the reasons above, and a refusal names the first row that objects or the first part at fault among all |
| Decision.Rig.AdmittedApart | sdk/python/waddle_sdk/robots/base.py:1299-1310 | of an admitted decision: any two moving parts that check collisions are apart where they are told to be, and if neighbours are checked every other declared part that checks collisions was measured in this call and is apart there from each of them |
| Decision.Rig.HoldAll | sdk/python/waddle_sdk/robots/base.py:1345-1350 | every addressed part is asked to hold once, also after one has raised, up to the first whose hold is interrupted |
| Decision.Rig.RefuseWhole | sdk/python/waddle_sdk/robots/base.py:1343-1363 | counted, then reported, then held, then called back: which of these raised decides the exit, and a report that raised leaves every part unheld |
| Decision.Rig.WriteAll | sdk/python/waddle_sdk/robots/base.py:1364-1379 | rows are written in order, one call each with the row itself, until one raises; each returned write counts one accepted |
| Decision.WriteCall | sdk/python/waddle_sdk/robots/base.py:1367-1377 | the one call a row makes is a write, and it carries the unmodified target |
| Decision.Rig.ApplyDecision | sdk/python/waddle_sdk/robots/base.py:1199-1379 | on every exit: no write before every addressed part passed, nor before moving parts and, if asked for, all measured neighbours were found apart; unaddressed parts are read only then; it raises early exactly for disallowed modifiers or one of the reasons of the preflight; a refusal writes nothing, bumps the rejected count of the part at fault by one and, if its report returns, holds every addressed part up to an interrupt, then calls back; success makes exactly one write of each non-empty row, its own numbers, within the part's limits, with the force or velocities given and supported, and counts one accepted each; a raising write leaves the rows before it applied and counted |
| Console.ByName | sdk/python/waddle_sdk/robots/base.py:1658-1662 | the latched parts in the order of their names: each of them and no other, sorted |
| Console.LineMeans | sdk/python/waddle_sdk/robots/base.py:1619-1668 | a line is read without the white space around it and in lower case, and resumes or parks exactly if it is then one of the listed words |
| Console.Cell.Gesture | sdk/python/waddle_sdk/robots/base.py:1619-1668 | a latch clears exactly on a resuming word, for latched parts that get their turn, in the order of their names, and whose driver does not refuse; the line stops, and raises, at the first part whose report raises or whose driver is interrupted; a parking word is honoured only during a hold; any other line changes nothing |
| Console.Cell.StopAll | sdk/python/waddle_sdk/robots/base.py:1494-1516 | every part is stopped whatever the others do, unless a stop is interrupted, which spares the parts after it; the call raises exactly when some stop did, or reading the latches, or the report |
| Console.Cell.SceneReset | sdk/python/waddle_sdk/robots/base.py:1931-1953 | refused, with nothing moved, while any part is latched; vouched only with every homed twin at its home; refused otherwise only because of a stop, also one that lands inside the reset; raised exactly when one of its lines, its reading of the latches or a homing call is |
| Console.FrozenUntilResumed | sdk/python/waddle_sdk/robots/base.py:1435-1438 | over every run, a latched part stays exactly as it is until a line holding one of the resume words |
| Console.Operate | sdk/python/waddle_sdk/robots/base.py:1619-1668 | the same for every cell, every start and every sequence of acts, with the park gate as specified |
| Console.ReleaseIsCurrent | sdk/python/waddle_sdk/robots/base.py:1565-1596 | a released gate was confirmed during its present hold; a word typed earlier is never remembered |
| Console.HoldingIff | sdk/python/waddle_sdk/robots/base.py:1565-1596 | the gate holds exactly while some hold has begun and not ended |
| Console.ReleasedIff | sdk/python/waddle_sdk/robots/base.py:1565-1596 | it is released exactly if a parking line came during the hold that was the last to begin |
| Calls.LiveMeans | sdk/python/waddle_sdk/site.py:1133-1191 | what is still live under a lock is exactly what was opened since it was taken with no close since that returned |
| Calls.OwedMeans | sdk/python/waddle_sdk/site.py:1133-1191 | what is still owed a close is exactly what was opened since the lock was taken with no close tried since |
| Calls.SparedMeans | sdk/python/waddle_sdk/site.py:1133-1191 | what the account calls spared is exactly what some cut stretch of closings still had to close |
| Calls.ReleaseSafeIff | sdk/python/waddle_sdk/site.py:1185-1191 | at a release, everything opened since the lock was taken has had a close that returned, if and only if the session heard of everything a failed build could not close |
| Ownership.Ledger.CloseAll | sdk/python/waddle_sdk/robots/base.py:1519-1546 | every unit is asked to close in order, also after one has raised and that was reported, up to the first that is interrupted or whose report fails |
| Ownership.Assembly.Open | sdk/python/waddle_sdk/site.py:743-750 | makes exactly the described calls: each world is on the stack before its open, and a failure closes what was begun |
| Ownership.Assembly.Close | sdk/python/waddle_sdk/site.py:759-774 | worlds are closed newest first, including one whose open raised; an interrupt or a report that fails leaves the older ones on the stack |
| Ownership.RigSession.BuildCameras | sdk/python/waddle_sdk/site.py:663-675 | makes exactly the described calls, and hands on all cameras or none |
| Ownership.RigSession.TakePart | sdk/python/waddle_sdk/site.py:611-646 | a factory must hand back exactly one arm; one that hands back another number has all of them closed |
| Ownership.RigSession.BuildArms | sdk/python/waddle_sdk/site.py:611-661 | one arm a part, or everything built is closed, up to where that is cut short; a close that raised replaces the reason of the failure |
| Ownership.RigSession.Open | sdk/python/waddle_sdk/robots/base.py:2692-2757 | the described start; a failure is announced and followed by the whole teardown, which a failed announcement leaves to the owner |
| Ownership.RigSession.ClosePassive | sdk/python/waddle_sdk/robots/base.py:2785-2813 | each capture thread's camera and then the thread, the robot's loop, and the cameras that had no thread, in that order |
| Ownership.RigSession.Finish | sdk/python/waddle_sdk/robots/base.py:2778-2823 | makes exactly the described calls: the arms get their close also when the core does not shut down, and nothing from the core on when the closings before it are cut short; confirmed only if everything was |
| Ownership.SiteSession.Permit | sdk/python/waddle_sdk/site.py:999-1056 | the probe session is shut down whatever the authorization came to, and a shutdown that fails fails the opening |
| Ownership.SiteSession.Shut | sdk/python/waddle_sdk/site.py:1133-1191 | the described close: what it calls, in what order, how it ends and what the session holds then |
| Ownership.SiteSession.Enter | sdk/python/waddle_sdk/site.py:1058-1113 | the described entry, a failed opening, that of its last event included, going through the same teardown as a close |
| Ownership.SiteSession.Leave | sdk/python/waddle_sdk/site.py:1133-1191 | the described leaving: stuck for good, nothing to do, or a close |
| Ownership.Lifetime | sdk/python/waddle_sdk/site.py:1058-1191 | a session put through any operations makes exactly the calls and replies of the described life, on which the theorems below are proved |
| Releases.OpenWorldsKeep | sdk/python/waddle_sdk/site.py:743-750 | an assembly opens all its worlds, or is left answering for those its rollback did not reach; what it could not close is reported as such or torn |
| Releases.ClosingsKeep | sdk/python/waddle_sdk/robots/base.py:1519-1546 | after any stretch of closings exactly what it reached is no longer owed; cut short, what that does not spare is still answered for; nothing else is live unless a close failed or was torn |
| Releases.BuildArmsKeep | sdk/python/waddle_sdk/site.py:611-661 | one arm a part, or the failure says that a close is unconfirmed, or something was torn, or nothing of it is live |
| Releases.OpenRigKeep | sdk/python/waddle_sdk/robots/base.py:2692-2757 | everything opened is answered for, also by a rig whose announcement failed, or nothing of it is live unless a close failed or was torn |
| Releases.FinishKeep | sdk/python/waddle_sdk/robots/base.py:2778-2823 | a finished rig answers for nothing; confirmed means that nothing it answered for is live, and what had no close tried was spared by a cut |
| Releases.OpenAllKeep | sdk/python/waddle_sdk/site.py:1073-1113 | whatever fails, the session answers for everything that is live, or a close is known to be unconfirmed, or something was torn |
| Outcomes.EnteredIff | sdk/python/waddle_sdk/site.py:1058-1113 | a site is entered exactly when it was free and every call made for it returned, the count of each factory's arms and the opening event included |
| Outcomes.ReleasedIff | sdk/python/waddle_sdk/site.py:1133-1191 | a close releases the lock exactly when every call it makes returns, no service thread was made that never ran, and neither the exception nor the rig says that a close is unconfirmed |
| Order.EnteredCalls | sdk/python/waddle_sdk/site.py:1058-1113 | an entry makes exactly these calls, in this order, and each returns: lock, assembly, the host's authorization, worlds, cameras, one counted and checked arm a part, core, loops, capture threads, administration, service, event |
| Order.ReleasedCalls | sdk/python/waddle_sdk/site.py:1133-1191 | a close that releases makes exactly these calls, in this order, and each returns: the run, the service thread, the wait until parked, the closings before the core, the core, the arms, the worlds newest first, the lock |
| Order.PassiveMeans | sdk/python/waddle_sdk/robots/base.py:2785-2813 | the closings before the core, by position: each capture thread's camera and then the thread, the robot's loop, the cameras without a thread |
| Order.TeardownInOrder | sdk/python/waddle_sdk/robots/base.py:2759-2823 | whatever fails, a close goes through those stages and never back; an active run is left and no other, a running service is joined and no other, and an unfinished rig that is reached is waited for until parked exactly when the close is not an interrupted one |
| Order.ParkedFirst | sdk/python/waddle_sdk/robots/base.py:2765-2771 | that wait comes before every close of a camera, capture thread, loop, core, arm or world |
| SiteSafety.ShutKeep | sdk/python/waddle_sdk/site.py:1133-1191 | a close ends with the lock free and nothing live unless something was torn, or with the lock kept; past the service thread, what had no close tried is exactly what was spared |
| SiteSafety.ReleasesSafeIff | sdk/python/waddle_sdk/site.py:1058-1191 | for every session, every sequence of operations and every pattern of failures and interrupts: each release is safe exactly when the session heard of all that a failed build could not close; the lock is held exactly while owned |
| SiteSafety.UntriedIff | sdk/python/waddle_sdk/site.py:1133-1191 | after a teardown that got past the service thread, a unit opened under the lock had no close tried if and only if some stretch of closings was cut short while it still had that unit to close |
| SiteSafety.TeardownKeeps | sdk/python/waddle_sdk/site.py:1133-1191 | an unconfirmed teardown keeps the lock and marks the session failed; a released one leaves it as new |
| SiteSafety.StuckIff | sdk/python/waddle_sdk/site.py:1150-1157 | a close is stuck exactly when the service thread never ran or cannot be joined, and then everything else is still owed a close |
| SiteSafety.Unstartable | sdk/python/waddle_sdk/site.py:1106-1111 | on every site whose devices all answer, a thread that cannot be started leaves the core and all else unclosed |
| SiteSafety.Unjoinable | sdk/python/waddle_sdk/site.py:1150-1157 | and so does one that ran and does not stop |
| SiteSafety.LostForever | sdk/python/waddle_sdk/site.py:1134-1138 | after one unconfirmed teardown every later operation fails without making a single call |
| Mishaps.LostArmIff | sdk/python/waddle_sdk/site.py:654-660 | the inputs that break the release: after a second factory that raises, the lock is given up with the first arm live exactly when its close was interrupted, or raised and the report or the announcement failed |
| Mishaps.LostProbe | sdk/python/waddle_sdk/site.py:1055-1056 | the input: on any site that asks for authorization, a probe that does not shut down is left live and the lock given up |
| Mishaps.CutAtCamera | sdk/python/waddle_sdk/robots/base.py:2211-2230 | the input, without any interrupt: on any open site whose first camera does not close and cannot report it, the teardown is unconfirmed and the core has had no close tried |
| Administration.Office.Bind | sdk/python/waddle_sdk/simulation.py:200-234 | bound exactly when unbound, never failed, fully simulated, with worlds, all of them administrable |
| Administration.Office.Unbind | sdk/python/waddle_sdk/simulation.py:236-239 | only the owner's unbind has an effect |
| Administration.Office.Read | sdk/python/waddle_sdk/simulation.py:253-269 | a snapshot holds what each bound world answered, in order; one that fails or is interrupted changes nothing |
| Administration.Office.Reset | sdk/python/waddle_sdk/simulation.py:271-329 | a returned reset was accepted by every world with the same options before any was read; one refused on its arguments reaches no world; a failed one sets the failure, an interrupted one does not |
| Administration.RevisionCountsIff | sdk/python/waddle_sdk/simulation.py:331-351 | a returned snapshot carries the number of resets that returned since its bind, if and only if no reset since then was interrupted after counting; otherwise it is ahead by the number of those |
| Administration.CountsAreSizes | sdk/python/waddle_sdk/simulation.py:331-351 | the counts are numbers of history entries since the last successful bind: resets that returned, and resets interrupted after counting |
| Administration.BoundIff | sdk/python/waddle_sdk/simulation.py:200-239 | the object is bound to these worlds and this owner exactly if some bind of them succeeded with no bind and no unbind by that owner since |
| Administration.FailStop | sdk/python/waddle_sdk/simulation.py:323-328 | after one reset that failed no snapshot, reset or bind succeeds, across any unbind |
| Administration.FailStopIff | sdk/python/waddle_sdk/simulation.py:304-329 | after a reset that began and did not return nothing more can succeed, if and only if it was not interrupted |
| Administration.ResetThenSnapshot | sdk/python/waddle_sdk/simulation.py:304-329 | the input: a reset interrupted in its first world is followed by a snapshot that is returned |
| Administration.CountThenSnapshot | sdk/python/waddle_sdk/simulation.py:317-329 | the input: a reset interrupted in the reads after it counted is followed by a snapshot one ahead |
| Administration.StrangersUnbindNothing | sdk/python/waddle_sdk/simulation.py:236-239 | an unbind by a stranger changes nothing any later reply depends on |
| Administration.Lifetime | sdk/python/waddle_sdk/simulation.py:194-351 | for every sequence of operations on a fresh object: one failed reset ends all success; if no reset was interrupted, so does every one that did not return, and every snapshot counts |
| Pairing.CameraDriver.OnRgb | sdk/python/waddle_sdk/robots/ros2.py:544-556 | the three queues agree with the full history of arrivals after the callback; a pair not yet taken gives way only when there would be more than two; nothing happens once closing |
| Pairing.CameraDriver.OnDepth | sdk/python/waddle_sdk/robots/ros2.py:558-570 | the same for the depth stream |
| Pairing.CameraDriver.Closest | sdk/python/waddle_sdk/robots/ros2.py:602-608 | the nested loop finds the closest buffered pair, the first one where several are equally close |
| Pairing.CameraDriver.Capture | sdk/python/waddle_sdk/robots/ros2.py:637-642 | pairs are handed out in emission order, oldest of those retained |
| Pairing.NextKeeps | sdk/python/waddle_sdk/robots/ros2.py:592-623 | a callback keeps: no buffered pair within tolerance, bounded buffers, emitted pairs within tolerance at strictly increasing positions; an emission empties the newest image's buffer |
| Pairing.CallbackMeans | sdk/python/waddle_sdk/robots/ros2.py:544-623 | a callback in stamps and positions: the oldest of nine buffered images leaves; a pair is emitted exactly when two buffered images are within tolerance, and it is the closest, the first among equals, taking with it only what is no newer; else the older of the two oldest leaves |
| Pairing.RunInv | sdk/python/waddle_sdk/robots/ros2.py:544-623 | all of it over every run of arrivals |
| Pairing.DroppedNeverMatches | sdk/python/waddle_sdk/robots/ros2.py:609-614 | with ordered stamps, an image dropped as too old could not be paired with any image buffered or still to come |
| EventLog.Store.Record | sdk/python/waddle_sdk/site.py:1254-1263 | recording in the two stores is appending to one log, with the next cursor |
| EventLog.Store.Events | sdk/python/waddle_sdk/site.py:1790-1798 | what is returned is the one log filtered: after the cursor, steps only if among the last 4096, in strictly increasing cursor order |
| EventLog.KeptAreNewest | sdk/python/waddle_sdk/site.py:988-988 | the bounded store holds exactly the newest 4096 steps |
| EventLog.VisibleIff | sdk/python/waddle_sdk/site.py:1790-1798 | an event is shown exactly if it was recorded after the cursor and is no step or has fewer than 4096 steps recorded after it |
| EventLog.PollCatchesUp | sdk/python/waddle_sdk/site.py:1790-1798 | the last cursor of a poll is always the end of the log |
| EventLog.PollsSeeOthersOnce | sdk/python/waddle_sdk/site.py:1790-1798 | a polling client sees every event but steps exactly once, in order, however its polls fall |
| EventLog.PollsSeeAll | sdk/python/waddle_sdk/site.py:1790-1798 | with at most 4096 steps between polls it sees the whole log once, in order |
| Pump.RunRobot | sdk/python/waddle_sdk/robots/base.py:2045-2056 | the loop follows the deadline rule for arbitrary work times and oversleeps: the next deadline is one period on, or one period from now if that has passed; the next start is the deadline or now, whichever is later, plus the oversleep |
| Pump.StartsSpread | sdk/python/waddle_sdk/robots/base.py:2045-2056 | two starts are apart by a period for each whole turn between them |
| Pump.WindowBound | sdk/python/waddle_sdk/robots/base.py:2045-2056 | any window holds at most length/period + 2 starts: no catch-up burst |
| Pump.WindowBoundTight | sdk/python/waddle_sdk/robots/base.py:2045-2056 | that bound is attained |
| Pump.RunCamera | sdk/python/waddle_sdk/robots/base.py:2136-2191 | every camera deadline is a slot of the grid, after a late frame the first one strictly after now; starts follow deadlines as for the robot |
| Pump.AdvanceCamera | sdk/python/waddle_sdk/robots/base.py:2184-2190 | the slot arithmetic lands on the next slot, or on the first one strictly after now when that has passed |
| CanBus.Bus.ReceiveBefore | sdk/python/waddle_sdk/robots/_i2rt_patches.py:139-168 | a returned frame answers and every frame consumed before it did not; none is returned only after a poll at or past the deadline |
| CanBus.Bus.TryOnce | sdk/python/waddle_sdk/robots/_i2rt_patches.py:190-201 | both deadlines of an attempt are fixed when the message went out, whatever arrives |
| CanBus.AttemptWindows | sdk/python/waddle_sdk/robots/_i2rt_patches.py:190-201 | no poll of an attempt waits past 10 ms, nor past 19 ms in the second window, counted from the send; the second is there exactly if the first found nothing |
| CanBus.Bus.Transact | sdk/python/waddle_sdk/robots/_i2rt_patches.py:174-212 | one sound attempt for each send the bus took, up to the one that answers, a millisecond or more apart; a reply carries the expected identifier and is the first that does; none means that every retry was used |
| CanBus.AtMostOneZeroWait | sdk/python/waddle_sdk/robots/_i2rt_patches.py:139-168 | one receive call makes at most one poll that does not wait, and never waits past its deadline |
| CanBus.TransactionZeroWaits | sdk/python/waddle_sdk/robots/_i2rt_patches.py:174-212 | a whole transaction makes at most two such polls an attempt |
| Frames.RelevantFrames | sdk/python/waddle_sdk/site.py:1351-1397 | for every graph, cyclic ones included, and every order of taking from the worklist, it ends with exactly the transforms on chains from the action frames, in their order |
| Frames.ReachableLeast | sdk/python/waddle_sdk/site.py:1351-1397 | the reachable frames are the least set with the action frames that is closed under going from an entry's child to its named parent |
| Frames.RelevantPositions | sdk/python/waddle_sdk/site.py:1351-1397 | the result is the entries at exactly the positions whose child is reachable, in order |
| Frames.UnrelatedInsert | sdk/python/waddle_sdk/site.py:1351-1397 | inserting, anywhere, a transform whose child no action frame reaches leaves the result unchanged |
| Bodies.Validate | sdk/python/waddle_sdk/scene.py:416-445 | accepted exactly when every parent is declared and every parent chain ends at a root; a reported cycle is exactly the bodies whose chain does not |
| Bodies.AddBodies | sdk/python/waddle_sdk/robots/mujoco_scene.py:643-699 | any accepted graph is compiled: each body exactly once, after its parent, and never before an earlier declared one that was ready; the loop always finds a ready one |
| Bodies.FirstReady | sdk/python/waddle_sdk/robots/mujoco_scene.py:645-650 | the body selected is the first pending one whose parent has been added |
| Bodies.OrderedMeansAccepted | sdk/python/waddle_sdk/scene.py:416-445 | only an accepted graph has a parents-first order |
| Randomized.ResolvesToInstance | sdk/python/waddle_sdk/scene.py:448-498 | whatever is drawn, the result is one of the documents described: each number in its range, each choice one of its values, all else in place |
| Randomized.ReachedIff | sdk/python/waddle_sdk/scene.py:448-498 | a document is among those described if and only if some generator resolves to it: every number of every range and every alternative is reached |
| Randomized.DescribedNumbers | sdk/python/waddle_sdk/scene.py:456-463 | a uniform describes exactly the numbers between its bounds |
| Randomized.DescribedChoices | sdk/python/waddle_sdk/scene.py:464-470 | a choice describes exactly what its alternatives describe |
| Randomized.ChoiceTaken | sdk/python/waddle_sdk/scene.py:464-478 | a generator that picks a position gives exactly that alternative, resolved on, and records it at the path |
| Randomized.InstanceNormal | sdk/python/waddle_sdk/scene.py:448-498 | no such document has, at any depth, a mapping with `uniform` or `choice` as its only key |
| Randomized.ResolveTwice | sdk/python/waddle_sdk/scene.py:448-498 | resolving the result again, with any generator, changes nothing, draws nothing and records nothing |
| Randomized.DrawsWhenRandomized | sdk/python/waddle_sdk/scene.py:448-498 | a resolution that succeeds draws nothing exactly when the document was already in normal form |
| Randomized.SoundResolves | sdk/python/waddle_sdk/scene.py:456-470 | a document whose distributions are all well formed resolves for every generator |
| Randomized.ResolveConfined | sdk/python/waddle_sdk/scene.py:448-498 | resolving a part of a document records only at its path and below |
| Randomized.SitesOfTwo | sdk/python/waddle_sdk/scene.py:479-498 | distributions below a list stand at `[0]`, `[1]`, those below a mapping at a dot and the key |
| Randomized.DecimalReads | sdk/python/waddle_sdk/scene.py:490-498 | an index is written as the decimal number it is |
| Randomized.DecisionsReplay | sdk/python/waddle_sdk/scene.py:448-498 | putting the recorded decisions back at their paths gives the resolved document, for every document in which no distribution may record at the path of an earlier one |
| Randomized.PlainUndisturbed | sdk/python/waddle_sdk/scene.py:479-497 | distinct keys without `.` and `[` keep all distributions apart in that sense |
| Randomized.KeptIff | sdk/python/waddle_sdk/scene.py:448-498 | for every document, choices included: putting a record back gives the resolved document if and only if the record holds, at each outermost distribution's path, what that one resolved to |
| Randomized.FairReplaysIff | sdk/python/waddle_sdk/scene.py:448-525 | one resolution of a document of well-formed uniform distributions replays from its record if and only if distributions that share a path drew the same |
| Randomized.ReplaysIff | sdk/python/waddle_sdk/scene.py:448-525 | a document whose outermost distributions are well-formed uniform ones replays from its record whatever is drawn, if and only if those that share a path are constants of one value |
| Randomized.DottedKeysCollide | sdk/python/waddle_sdk/scene.py:479-487 | `n.m` beside an `m` inside `n` share one record, and with ranges that do not meet replaying it always gives another document |
| Layout.SplitByPart | sdk/python/waddle_sdk/robots/base.py:1124-1143 | splits exactly rows of the declared width, into blocks of the declared widths whose concatenation is the row |
| Layout.LayoutOf | sdk/rust/src/convert.rs:88-103 | there is a layout exactly when every part has a width, and its total is the sum |
| Layout.Split | sdk/rust/src/convert.rs:107-123 | the same for the Rust splitter over its stored total |
| Layout.SplitUnique | sdk/rust/src/convert.rs:107-123 | a row has one split, so the two splitters agree on every layout and row |

## Left out

- Rounding of floating-point numbers: values, times and geometry are reals, stamps are integers.
- Declared joint limits that are a NaN, which refuse every row, or an infinity, which bounds nothing.
- The Rust core (claims, leases, gate, recording) and the chunk sender that hands its verdicts to `apply_decision`.
- Vendor drivers, SocketCAN set-up, physics and rendering, ROS graph set-up, transport, media, the hosted client and the command line.
- Schema, YAML, path and secret validation, descriptor compilation and the vendoring scripts.
- What a force or velocity write does in a driver; which single call an accepted row makes is modelled.
- Commands from two threads at one arm between one measuring and its write; the latch properties do cover a stop that lands there.
- A bus whose receive call raises; one whose send raises is modelled.
- RGB-D cameras with depth disabled, image decoding and the waiting inside `capture`.
- The search for `frameId` keys inside an action space: the action frames are an argument.
- Interrupts that arrive between two calls; one may arrive inside any call made for a site, a reset, a hold, a resume or a stop.
- `Rig.cameras` finding drivers that do not match the declaration, which a site's own camera factories exclude.
- A factory that raises after opening something itself: it is taken to have opened nothing.
- A core session and pumps whose constructors fail half-way: they are taken not to be open.
- JSON encoding and hashing of a snapshot: it is the list of the worlds' documents and a revision.
- The seed check of `resolve_scene`, the `resolution` entry it appends, and byte strings in documents.
- The second close a capture thread gives its own camera: its failure is taken as a failed close of that thread.
- The console's reader thread, which ends when a line's handling raises: later lines may still come here.
- A release of the lock file that raises.
- Layout.Split: machine-word overflow of the total, which a layout of real parts cannot reach, is not modelled.
- The payloads and timestamps of runtime events, and waiting for new ones.
