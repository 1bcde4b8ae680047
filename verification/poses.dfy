/**
 * Pose tuples as the pick-and-place routine passes them around, and the
 * stamped pose message sent to the inverse-kinematics service.
 */
module Poses {

  /** A position tuple `(x, y, z)` in the robot's base frame. */
  type Vec3 = (real, real, real)

  /** An orientation quaternion tuple `(w, x, y, z)`: scalar part first. */
  type Quat = (real, real, real, real)

  /** A pose tuple `((x, y, z), (w, x, y, z))`. */
  type Pose = (Vec3, Quat)

  /** geometry_msgs Point. */
  datatype Point = Point(x: real, y: real, z: real)

  /** geometry_msgs Quaternion: vector part first, scalar part last. */
  datatype QuaternionMsg = QuaternionMsg(x: real, y: real, z: real, w: real)

  /** geometry_msgs Pose. */
  datatype PoseMsg = PoseMsg(position: Point, orientation: QuaternionMsg)

  /** geometry_msgs PoseStamped; of the header only the frame id is kept. */
  datatype PoseStamped = PoseStamped(frameId: string, pose: PoseMsg)

  /** The reference frame every target is expressed in. */
  const BaseFrame: string := "base"

  /** The arm the routine drives; also the key of the pose dictionary. */
  const Limb: string := "right"

  /**
   * `pose_to_dict_message`: a dictionary with the single key `Limb` holding a
   * pose message in the base frame, copying the position tuple field by field
   * and reading the quaternion tuple as `(w, x, y, z)`.
   */
  function PoseToDictMessage(position: Vec3, orientation: Quat): (r: map<string, PoseStamped>)
    ensures r.Keys == {Limb}
    ensures r[Limb].frameId == BaseFrame
    ensures r[Limb].pose.position.x == position.0
    ensures r[Limb].pose.position.y == position.1
    ensures r[Limb].pose.position.z == position.2
    ensures r[Limb].pose.orientation.w == orientation.0
    ensures r[Limb].pose.orientation.x == orientation.1
    ensures r[Limb].pose.orientation.y == orientation.2
    ensures r[Limb].pose.orientation.z == orientation.3
  {
    var point := Point(position.0, position.1, position.2);
    var quaternion := QuaternionMsg(orientation.1, orientation.2, orientation.3, orientation.0);
    map[Limb := PoseStamped(BaseFrame, PoseMsg(point, quaternion))]
  }

  /** Reads the pose tuple back out of a pose message. */
  function PoseOfMessage(m: PoseStamped): Pose
  {
    var p := m.pose.position;
    var o := m.pose.orientation;
    ((p.x, p.y, p.z), (o.w, o.x, o.y, o.z))
  }

  /** The message carries the pose tuple it was built from, unchanged. */
  lemma MessageRoundTrip(position: Vec3, orientation: Quat)
    ensures PoseOfMessage(PoseToDictMessage(position, orientation)[Limb]) == (position, orientation)
  {
  }

  /** Every base-frame message is the one built from the pose it carries. */
  lemma PoseRoundTrip(m: PoseStamped)
    requires m.frameId == BaseFrame
    ensures var p := PoseOfMessage(m); PoseToDictMessage(p.0, p.1)[Limb] == m
  {
  }

  /** Distinct pose tuples give distinct messages. */
  lemma MessageInjective(p1: Vec3, q1: Quat, p2: Vec3, q2: Quat)
    requires PoseToDictMessage(p1, q1) == PoseToDictMessage(p2, q2)
    ensures p1 == p2 && q1 == q2
  {
    MessageRoundTrip(p1, q1);
    MessageRoundTrip(p2, q2);
  }
}
