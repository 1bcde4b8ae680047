/**
 * `get_ik`: building the position-IK request from a target pose and a seed
 * configuration, and reading the service's reply back into a `JointResult`.
 * The ROS service itself is a parameter: a total function from the call
 * number and the request to the reply.
 */
module IkClient {
  import opened Results
  import opened Poses
  import opened JointMaps

  /** What `get_ik` returns: the joint angles and whether they are a solution. */
  datatype JointResult = JointResult(jangles: JointMap, valid: bool)

  /**
   * The class-level defaults of `JointResult`. A failed call returns an
   * instance that never assigned its own fields, so it reads these.
   */
  const DefaultResult: JointResult := JointResult(map[], false)

  /** The seed modes of a SolvePositionIK request; the routine always asks for a user seed. */
  datatype SeedMode = SeedAuto | SeedUser | SeedCurrent | SeedNullspace

  /** A SolvePositionIK request, with one entry per list for the single target. */
  datatype IkRequest = IkRequest(
    poseStamp: seq<PoseStamped>,
    tipNames: seq<string>,
    seedMode: SeedMode,
    seedAngles: seq<JointState>)

  /**
   * What the service call yields. `Fault` stands for the ServiceException or
   * ROSException caught around `wait_for_service` and the call itself
   * (including the availability timeout); `Response` carries the reply's
   * result codes and joint solutions.
   */
  datatype Reply = Fault | Response(resultType: seq<int>, joints: seq<JointState>)

  /** The IK service: the reply to the `k`-th request of one run. */
  type Service = (nat, IkRequest) -> Reply

  /** The exceptions `get_ik` does not catch. */
  datatype Crash =
    | MissingSeedJoint(name: string)   // KeyError while listing the seed angles
    | NoResultCode                     // IndexError on `result_type[0]`
    | NoJointSolution                  // IndexError on `joints[0]`

  /** The end-effector link the IK is solved for. */
  const TipName: string := "right_hand"

  /** The reply reports success: its first result code is positive. */
  predicate Accepted(reply: Reply)
  {
    reply.Response? && |reply.resultType| > 0 && reply.resultType[0] > 0
  }

  /** Reading the reply raises nothing: no empty code list, and a solution whenever the code is positive. */
  predicate Returns(reply: Reply)
  {
    reply.Fault? || (|reply.resultType| > 0 && (reply.resultType[0] <= 0 || |reply.joints| > 0))
  }

  /** The reply is a solution whose first joint list names all seven arm joints. */
  predicate Solves(reply: Reply)
  {
    && Accepted(reply)
    && |reply.joints| > 0
    && Covers(ZipToMap(reply.joints[0].name, reply.joints[0].position))
  }

  /** `req` asks for `pose` at the hand tip, seeded by the user with `q`'s seven angles. */
  predicate RequestFor(req: IkRequest, pose: Pose, q: JointMap)
  {
    && |req.poseStamp| == 1
    && req.poseStamp[0].frameId == BaseFrame
    && PoseOfMessage(req.poseStamp[0]) == pose
    && req.tipNames == [TipName]
    && req.seedMode == SeedUser
    && |req.seedAngles| == 1
    && req.seedAngles[0].name == JointNames
    && |req.seedAngles[0].position| == |JointNames|
    && forall k {:trigger req.seedAngles[0].position[k]} :: 0 <= k < |JointNames| ==>
         JointNames[k] in q && req.seedAngles[0].position[k] == q[JointNames[k]]
  }

  /**
   * The request part of `get_ik`. The pose is converted first; listing the
   * seed angles raises on the first of the seven joints `q` lacks, before
   * any service call.
   */
  function BuildRequest(pose: Pose, q: JointMap): (r: Result<IkRequest, Crash>)
    ensures r.Ok? <==> Covers(q)
    ensures r.Ok? ==> RequestFor(r.value, pose, q)
    ensures r.Err? ==> r.error.MissingSeedJoint? && r.error.name !in q
    ensures r.Err? ==> SeedState(q) == Err(r.error.name)
  {
    var poseMsg := PoseToDictMessage(pose.0, pose.1);
    MessageRoundTrip(pose.0, pose.1);
    match SeedState(q)
    case Err(missing) => Err(MissingSeedJoint(missing))
    case Ok(seed) => Ok(IkRequest([poseMsg[Limb]], [TipName], SeedUser, [seed]))
  }

  /**
   * The response part of `get_ik`. A caught fault or a non-positive first
   * result code gives the default (invalid, empty) result; a positive code
   * gives the first solution's names zipped with its positions. Indexing an
   * empty code list or an empty solution list raises.
   */
  function Interpret(reply: Reply): (r: Result<JointResult, Crash>)
    ensures r.Err? <==>
      reply.Response? && (|reply.resultType| == 0 || (reply.resultType[0] > 0 && |reply.joints| == 0))
    ensures r.Err? ==> r.error == (if |reply.resultType| == 0 then NoResultCode else NoJointSolution)
    ensures r.Ok? ==> (r.value.valid <==> Accepted(reply))
    ensures r.Ok? && !r.value.valid ==> r.value == DefaultResult
    ensures r.Ok? && r.value.valid ==>
      |reply.joints| > 0 && r.value.jangles == ZipToMap(reply.joints[0].name, reply.joints[0].position)
  {
    match reply
    case Fault => Ok(DefaultResult)
    case Response(codes, joints) =>
      if |codes| == 0 then Err(NoResultCode)
      else if codes[0] <= 0 then Ok(DefaultResult)
      else if |joints| == 0 then Err(NoJointSolution)
      else Ok(JointResult(ZipToMap(joints[0].name, joints[0].position), true))
  }

  /** One `get_ik` call: the request it sent, if any, and what it returned or raised. */
  datatype IkCall = IkCall(request: Option<IkRequest>, outcome: Result<JointResult, Crash>)

  /**
   * `get_ik(pose, q_initial)` as the `index`-th call of a run. The result is
   * valid exactly when the seed was complete, the call raised nothing and the
   * first result code is positive; it then maps the solution's names to its
   * positions. Every other returned result is the empty default.
   */
  function GetIk(pose: Pose, q: JointMap, service: Service, index: nat): (c: IkCall)
    ensures c.request.Some? <==> Covers(q)
    ensures c.request.Some? ==> RequestFor(c.request.value, pose, q)
    ensures c.request.Some? ==> BuildRequest(pose, q) == Ok(c.request.value)
    ensures c.request.None? ==> c.outcome == Err(MissingSeedJoint(SeedState(q).error))
    ensures c.outcome.Ok? ==> c.request.Some?
    ensures c.outcome.Ok? ==>
      (c.outcome.value.valid <==> Accepted(service(index, c.request.value)))
    ensures c.outcome.Ok? && !c.outcome.value.valid ==> c.outcome.value == DefaultResult
    ensures c.outcome.Ok? && c.outcome.value.valid ==>
      var reply := service(index, c.request.value);
      |reply.joints| > 0 && c.outcome.value.jangles == ZipToMap(reply.joints[0].name, reply.joints[0].position)
    ensures c.request.Some? ==> c.outcome == Interpret(service(index, c.request.value))
  {
    match BuildRequest(pose, q)
    case Err(e) => IkCall(None, Err(e))
    case Ok(req) => IkCall(Some(req), Interpret(service(index, req)))
  }

  /** Two requests for the same pose and seed are the same request. */
  lemma RequestDeterminedBy(req1: IkRequest, req2: IkRequest, pose: Pose, q: JointMap)
    requires RequestFor(req1, pose, q) && RequestFor(req2, pose, q)
    ensures req1 == req2
  {
    PoseRoundTrip(req1.poseStamp[0]);
    PoseRoundTrip(req2.poseStamp[0]);
    assert req1.seedAngles[0].position == req2.seedAngles[0].position;
    assert req1.seedAngles == req2.seedAngles;
    assert req1.poseStamp == req2.poseStamp;
  }
}
