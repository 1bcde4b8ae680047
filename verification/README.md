# Pick-and-place motion core, modelled in Dafny

This project models the open-loop pick-and-place routine of the Sawyer demo
script `scripts/pick_place_demo.py`:

- `pose_to_dict_message` turns a pose tuple `((x, y, z), (w, x, y, z))` into a
  stamped pose message in the `base` frame, keyed by the arm name `right`
  (module `Poses`);
- `get_ik` builds a SolvePositionIK request with a user seed made of the
  seven joints `right_j0` … `right_j6`, calls the IK service and reads the
  reply back into a `JointResult` (modules `JointMaps` and `IkClient`);
- `pick_place` visits six Cartesian waypoints — pre-grasp, grasp, lift, over
  the destination, release, retreat — and seeds each IK call with the
  previous call's result. It moves the limb only when a result is valid. It
  closes the gripper after the grasp and opens it after the release, each
  followed by a pause (modules `WaypointPlan`, `PickPlaceDemo` and
  `PickPlaceProperties`).

The IK service is a parameter: a total function from the call number within
one run and the request to the reply. The reply is a caught fault or a
response with result codes and joint solutions. The limb, the gripper and
the pauses are not executed. A run is a `Trace` instead: the requests built and handed to the service call,
the results `get_ik` returned, the commands issued, and whether the routine
returned or raised, and at which waypoint.

Real numbers stand for Python floats: the model does no rounding.

## What a failed IK call does

One might expect a failed waypoint to be skipped and the last valid
configuration reused as the next seed; the code does something else:

- a failed `get_ik` returns a fresh `JointResult` whose `jangles` is the
  class-level default, the empty dictionary;
- `pick_place` passes `result.jangles` on as the next seed whether or not
  the result was valid;
- the next `get_ik` evaluates `q_initial['right_j0']` outside its `try`
  block, which raises `KeyError`.

So the code stops the transfer after the failed waypoint's own gripper
action. Only the sixth waypoint may fail without an exception. The model
does the same (`PickPlaceProperties.FailureRaisesAtNextSeed`).

An IndexError stops the routine earlier. The service may return no result
code, or a positive code with no joint solution. `get_ik` then raises at
that same waypoint, which can be any of the six. This happens before that
waypoint's move and gripper action, because `get_ik` reads those fields
outside its `try` block too (`PickPlaceProperties.RaisedAfterSeed`).

## Model

| member | source | states |
|---|---|---|
| Poses.PoseToDictMessage | scripts/pick_place_demo.py:34-61 | The dictionary has exactly the key `right`. Its message is in frame `base`. Position x, y, z are copied in order, and the quaternion tuple is read as (w, x, y, z). |
| Poses.MessageRoundTrip | scripts/pick_place_demo.py:49-60 | Reading the pose tuple back out of the built message gives the tuple it was built from. |
| Poses.PoseRoundTrip | scripts/pick_place_demo.py:49-60 | Every base-frame message is the one built from the pose it carries, so the conversion is onto the base-frame messages. |
| Poses.MessageInjective | scripts/pick_place_demo.py:34-61 | Different pose tuples give different messages. |
| JointMaps.FirstMissing | scripts/pick_place_demo.py:101-104 | The seed list is evaluated left to right. The index found is absent from the dictionary, and every joint before it is present. |
| JointMaps.SeedState | scripts/pick_place_demo.py:98-104 | The seed succeeds exactly when the dictionary has all seven joints. It then names `right_j0` … `right_j6` in order with position k equal to `q[name k]`. Otherwise it fails with the first joint missing, as the KeyError does. |
| JointMaps.SeedOfEmptyMap | scripts/pick_place_demo.py:29-31 | The class-default empty `jangles` fails the seed lookup at `right_j0`. |
| JointMaps.ZipPrefix | scripts/pick_place_demo.py:125-126 | Inserting the first n name/position pairs gives keys that are exactly those n names. A name's value is the position at its last occurrence. |
| JointMaps.ZipToMap | scripts/pick_place_demo.py:125-126 | `dict(zip(names, positions))` keeps the names up to the shorter list, and a later duplicate wins. |
| JointMaps.ZipDistinct | scripts/pick_place_demo.py:125-126 | With distinct names, each name maps to the position at its own index. |
| JointMaps.JointNamesDistinct | scripts/pick_place_demo.py:99-100 | The seven seed joint names are pairwise distinct. |
| JointMaps.ZipJointNames | scripts/pick_place_demo.py:125-126 | A solution naming the seven joints in seed order maps each joint to its own angle. |
| JointMaps.SeedOfAngles | scripts/pick_place_demo.py:101-104 | A dictionary holding seven given angles yields a seed with exactly those positions. |
| JointMaps.SeedRoundTrip | scripts/pick_place_demo.py:98-104 | The seed read back as a dictionary holds `q`'s seven angles and no other key. |
| JointMaps.ZipThenSeed | scripts/pick_place_demo.py:125-126 | A solution over the seven joints seeds the next request with exactly its own angles. |
| IkClient.BuildRequest | scripts/pick_place_demo.py:81-105 | A request is built exactly when the seed dictionary has all seven joints. It then has one stamped pose in `base` carrying the target, tip `right_hand`, user seed mode and the seven seed angles. Otherwise it raises on a joint the dictionary lacks. |
| IkClient.RequestDeterminedBy | scripts/pick_place_demo.py:90-105 | Two requests for the same pose and seed are equal. |
| IkClient.Interpret | scripts/pick_place_demo.py:107-135 | Reading raises exactly on an empty code list (`NoResultCode`), or on a positive code with no solution (`NoJointSolution`), and never with a seed error. The result is valid exactly when the first code is positive, and then holds the zipped first solution. A fault or a non-positive code gives the default `{}`/`False` result. |
| IkClient.GetIk | scripts/pick_place_demo.py:64-135 | The request is built and handed to the service call exactly when the seed is complete, and it targets the given pose with that seed. An incomplete seed raises before any call. A returned result is valid exactly when the service accepted, and then holds the solution's dictionary. Every other returned result is the empty default. |
| WaypointPlan.Plan | scripts/pick_place_demo.py:154-200 | There are six waypoints, and waypoint i equals the reference `TargetAt`: the first three over the start pose with its quaternion, the last three over the end pose with its quaternion. Only z changes, by +h or 0. The gripper closes after waypoint 1 and opens after waypoint 4. |
| WaypointPlan.PlanPhases | scripts/pick_place_demo.py:164-200 | In each phase x, y and the orientation are those of the phase's pose. The grasp and release targets are the poses themselves. The lift equals the pre-grasp target and the retreat equals the target over the destination. Each differs from its grasp/release by exactly h in z. |
| WaypointPlan.DemoCupOne | scripts/pick_place_demo.py:266-275 | For the first cup of the demo, the six targets are at heights 0.23, 0.03, 0.23 over the start and 0.22, 0.02, 0.22 over the end. |
| PickPlaceDemo.AdvanceConsistent | scripts/pick_place_demo.py:166-173 | Running one more waypoint with `Advance` (one `get_ik` call, the move if its result is valid, then the waypoint's gripper action, all recorded by `Record`) keeps a run consistent: one request per call that got past the seed, one result per call that returned, and events equal to the reference blocks. |
| PickPlaceDemo.Execute | scripts/pick_place_demo.py:164-203 | Running the first n waypoints gives a consistent run. It returned normally exactly when all n calls returned, otherwise it raised at the first call that did. |
| PickPlaceDemo.PickPlace | scripts/pick_place_demo.py:138-203 | At most six results. The routine returns normally exactly when all six calls returned, and each call that returned had its request built and handed to the service call. The run is consistent with the six-waypoint plan: requests built from the chained seeds, results read from the service's replies, commands equal to the reference blocks, and a raise only at the first call that raised. |
| PickPlaceProperties.SeedingChain | scripts/pick_place_demo.py:165-201 | The first request targets the pre-grasp pose seeded with `qinit`. Request i > 0 targets waypoint i seeded with the previous result's `jangles`, valid or not. |
| PickPlaceProperties.MovesAndGripper | scripts/pick_place_demo.py:164-203 | The limb is commanded with the angles of exactly the valid results, in order. The gripper gets close-to-opening and a pause once the grasp waypoint has returned, then open and a pause once the release waypoint has returned. |
| PickPlaceProperties.BlocksMoves | scripts/pick_place_demo.py:166-201 | The limb commands owed to a sequence of returned results are the angles of exactly the valid results, in order. |
| PickPlaceProperties.BlocksGripper | scripts/pick_place_demo.py:174-196 | The gripper commands owed to the first n returned waypoints are the actions scheduled after those waypoints, in order, each with its pause. |
| PickPlaceProperties.RoutineSchedule | scripts/pick_place_demo.py:174-196 | After the first n waypoints the gripper owes close/pause from n ≥ 2 on and open/pause from n ≥ 5 on. |
| PickPlaceProperties.IncompleteStartSeed | scripts/pick_place_demo.py:164-166 | A `qinit` that lacks a joint raises at the first seed lookup, naming the first missing joint. No request is built and nothing is commanded. |
| PickPlaceProperties.InvalidResultIsDefault | scripts/pick_place_demo.py:29-31 | An invalid result is the class default, whose empty `jangles` lacks the seed joints. |
| PickPlaceProperties.SentRequestSeeded | scripts/pick_place_demo.py:98-105 | A request was built and handed to the service call for a waypoint only if its seed held all seven joints. |
| PickPlaceProperties.InvalidEndsRun | scripts/pick_place_demo.py:166-201 | An invalid result before the last waypoint is the last result of a run. No request follows it, and the run raised at the next waypoint on `right_j0`. |
| PickPlaceProperties.FailureRaisesAtNextSeed | scripts/pick_place_demo.py:166-201 | If the result at waypoint i < 5 is invalid, exactly i + 1 requests and results exist and the run raises KeyError `right_j0` at waypoint i + 1. The events are those of the earlier waypoints plus the failed waypoint's gripper action only. |
| PickPlaceProperties.NormalReturnNeedsFirstFive | scripts/pick_place_demo.py:166-203 | A run that returns normally had six calls, and each of the first five gave a valid result naming all seven joints. |
| PickPlaceProperties.RaisedAfterSeed | scripts/pick_place_demo.py:107-135 | A run that raised at a waypoint whose seed was complete built that waypoint's request and handed it to the service call, and the reply to it is one whose reading raises. |
| PickPlaceProperties.SolvedRunCompletes | scripts/pick_place_demo.py:166-203 | In a run of the first n waypoints from a complete `qinit`, suppose every reply can be read and every reply before the last is a solution naming all seven joints. Then no call raises, n requests and n results exist, and every result before the last is valid. |
| PickPlaceProperties.RequestsFollowPlan | scripts/pick_place_demo.py:164-201 | Request i asks for waypoint i's target with the seed of call i. |
| PickPlaceProperties.FirstFiveSolvedRun | scripts/pick_place_demo.py:164-203 | For any six-waypoint plan with the routine's gripper schedule, under the same conditions as `FirstFiveSolvedTrace`, a consistent run returns normally with six requests and the same interleaving of limb and gripper commands. |
| PickPlaceProperties.FirstFiveSolvedTrace | scripts/pick_place_demo.py:164-203 | From a complete `qinit`, with every reply readable and the first five replies solutions naming all seven joints, `pick_place` returns normally after six requests. Its commands are move, move, close to g, pause, move, move, move, open, pause, then a move only if the last result is valid. |
| PickPlaceProperties.SolvedResults | scripts/pick_place_demo.py:116-135 | A result answering a solution is valid and holds that solution's names zipped with its positions. |
| PickPlaceProperties.AllSolvedTrace | scripts/pick_place_demo.py:164-203 | If every reply is a solution naming the seven joints, the run is exactly move, move, close to g, pause, move, move, move, open, pause, move. Each move carries the service's solution for that waypoint's request. |

## Left out

- ROS plumbing is not modelled: node setup, the service name string, the `ServiceProxy` object and `wait_for_service`. Its 5.0-second timeout and the ServiceException/ROSException it may raise collapse into the `Fault` reply. A run records the request of a call that faulted even when the timeout kept it from reaching the service.
- Exceptions other than ServiceException and ROSException raised by the service call are not modelled. The script does not catch them either.
- `rospy.Time.now()` in the message header is not modelled. A clock reading has no bearing on the routine's logic.
- Logging is not modelled, including the `seed_str` lookup table. That table only chooses a log text.
- The intera `Limb`, `Gripper` and `HeadDisplay` objects are not modelled. The routine's calls on them are recorded as trace events, and the durations of `rospy.sleep` are dropped.
- The `JointState` seed has a header, velocities and efforts. The model keeps only its names and positions, because the routine fills nothing else.
- `main()` is not modelled: gripper detection and calibration, the neutral pose, the head image and the six cup transfers. Only the first cup's plan is stated, in `WaypointPlan.DemoCupOne`.
- `quaternionFromAxisAngle` lives in `utils` and is not part of this model. Orientations are parameters.
- Floating-point rounding is not modelled. Coordinates are reals, so `zi + zpre_grasp` is exact.
