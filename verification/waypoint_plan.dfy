/**
 * The six Cartesian targets of one pick-and-place transfer, each tagged with
 * the gripper action that follows its motion.
 */
module WaypointPlan {
  import opened Poses

  /** What the gripper does after a waypoint's motion. */
  datatype GripperAction = NoAction | Close(opening: real) | Release

  /** One IK target and the gripper action that follows it. */
  datatype Waypoint = Waypoint(target: Pose, after: GripperAction)

  /** The number of IK targets of one transfer. */
  const PlanLength: nat := 6

  /** `p` raised by `h` along z; x, y and the orientation are kept. */
  function Above(p: Pose, h: real): Pose
  {
    ((p.0.0, p.0.1, p.0.2 + h), p.1)
  }

  /**
   * Reference description of waypoint `i`: the first three stand over the
   * start pose, the last three over the end pose, each raised by the
   * clearance except the grasp (`i == 1`) and the release (`i == 4`).
   */
  function TargetAt(initial: Pose, final: Pose, h: real, i: nat): Pose
    requires i < PlanLength
  {
    Above(if i < 3 then initial else final, if i % 3 == 1 then 0.0 else h)
  }

  /** Reference description of the gripper: close after the grasp, open after the release. */
  function ActionAt(opening: real, i: nat): GripperAction
    requires i < PlanLength
  {
    if i == 1 then Close(opening) else if i == 4 then Release else NoAction
  }

  /**
   * The waypoints `pick_place` visits for `pose_initial`, `pose_final`,
   * `zpre_grasp` and `gripper_opening`, in the order it visits them.
   */
  function Plan(initial: Pose, final: Pose, zpreGrasp: real, opening: real): (r: seq<Waypoint>)
    ensures |r| == PlanLength
    ensures forall i :: 0 <= i < PlanLength ==>
      r[i].target == TargetAt(initial, final, zpreGrasp, i) && r[i].after == ActionAt(opening, i)
  {
    var (xi, yi, zi) := initial.0;
    var quatI := initial.1;
    var (xf, yf, zf) := final.0;
    var quatF := final.1;
    [ Waypoint(((xi, yi, zi + zpreGrasp), quatI), NoAction),     // pre-grasp
      Waypoint(((xi, yi, zi), quatI), Close(opening)),           // grasp
      Waypoint(((xi, yi, zi + zpreGrasp), quatI), NoAction),     // lift
      Waypoint(((xf, yf, zf + zpreGrasp), quatF), NoAction),     // over the destination
      Waypoint(((xf, yf, zf), quatF), Release),                  // release
      Waypoint(((xf, yf, zf + zpreGrasp), quatF), NoAction) ]    // retreat
  }

  /**
   * Within each phase only z moves, by the clearance up or down; x, y and
   * the orientation are those of the phase's pose. The lift returns to the
   * pre-grasp target and the retreat to the target over the destination.
   */
  lemma PlanPhases(initial: Pose, final: Pose, h: real, g: real)
    ensures var r := Plan(initial, final, h, g);
      && (forall i :: 0 <= i < 3 ==>
            r[i].target.0.0 == initial.0.0 && r[i].target.0.1 == initial.0.1 && r[i].target.1 == initial.1)
      && (forall i :: 3 <= i < PlanLength ==>
            r[i].target.0.0 == final.0.0 && r[i].target.0.1 == final.0.1 && r[i].target.1 == final.1)
      && r[1].target == initial && r[4].target == final
      && r[0].target == r[2].target && r[3].target == r[5].target
      && r[0].target.0.2 - r[1].target.0.2 == h && r[2].target.0.2 - r[1].target.0.2 == h
      && r[3].target.0.2 - r[4].target.0.2 == h && r[5].target.0.2 - r[4].target.0.2 == h
  {
    var r := Plan(initial, final, h, g);
    assert r[1].target == TargetAt(initial, final, h, 1);
    assert r[4].target == TargetAt(initial, final, h, 4);
  }

  /**
   * The first cup of the demo: start (0.6, 0.5, 0.03), end (0.6, -0.5, 0.02)
   * and a clearance of 0.20 give targets at heights 0.23, 0.03, 0.23 over
   * the start and 0.22, 0.02, 0.22 over the end.
   */
  lemma DemoCupOne(q: Quat, opening: real)
    ensures var r := Plan(((0.6, 0.5, 0.03), q), ((0.6, -0.5, 0.02), q), 0.20, opening);
      && r[0].target == ((0.6, 0.5, 0.23), q)
      && r[1].target == ((0.6, 0.5, 0.03), q)
      && r[2].target == ((0.6, 0.5, 0.23), q)
      && r[3].target == ((0.6, -0.5, 0.22), q)
      && r[4].target == ((0.6, -0.5, 0.02), q)
      && r[5].target == ((0.6, -0.5, 0.22), q)
  {
  }
}
