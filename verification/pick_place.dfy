/**
 * `pick_place`: the open-loop sequencer. Each waypoint asks the IK service
 * with the previous call's result as seed, moves the arm when the result is
 * valid, and runs the gripper action that follows it. What the arm and the
 * gripper are told is recorded as a trace of events; an exception that
 * escapes `get_ik` ends the trace.
 */
module PickPlaceDemo {
  import opened Results
  import opened Poses
  import opened JointMaps
  import opened IkClient
  import opened WaypointPlan

  /** A command to the limb or the gripper, or a settle pause. */
  datatype Event = Move(config: JointMap) | GripSet(opening: real) | GripOpen | Sleep

  /** Whether the routine is still running (or returned), or raised at a waypoint. */
  datatype Status = Normal | Raised(waypoint: nat, error: Crash)

  /**
   * What one run did: the IK requests built and handed to the service call
   * (a timeout in `wait_for_service` keeps one from reaching the service but it
   * is still recorded), the results `get_ik` returned, the commands issued,
   * and how it ended.
   */
  datatype Trace = Trace(
    requests: seq<IkRequest>,
    results: seq<JointResult>,
    events: seq<Event>,
    status: Status)

  /** The limb is commanded only with a valid result, and then with its angles. */
  function MoveIf(r: JointResult): seq<Event>
  {
    if r.valid then [Move(r.jangles)] else []
  }

  /** The gripper command and the one-second settle pause that follows it. */
  function GripperEvents(a: GripperAction): seq<Event>
  {
    match a
    case NoAction => []
    case Close(opening) => [GripSet(opening), Sleep]
    case Release => [GripOpen, Sleep]
  }

  /**
   * The seed of the call at waypoint `i`: `qinit` for the first call and the
   * previous call's `result.jangles` after that, valid or not.
   */
  function SeedFor(qinit: JointMap, results: seq<JointResult>, i: nat): JointMap
    requires i <= |results|
  {
    if i == 0 then qinit else results[i - 1].jangles
  }

  /** Reference trace: the events owed to the waypoints whose `get_ik` returned `rs`. */
  function Blocks(plan: seq<Waypoint>, rs: seq<JointResult>): seq<Event>
    requires |rs| <= |plan|
    decreases |rs|
  {
    if |rs| == 0 then []
    else Blocks(plan, rs[..|rs| - 1]) + MoveIf(rs[|rs| - 1]) + GripperEvents(plan[|rs| - 1].after)
  }

  /** The initial trace: no request built, nothing done. */
  const Start: Trace := Trace([], [], [], Normal)

  /**
   * Appends one `get_ik` call for waypoint `w` to a running trace: the request
   * it built and handed to the service call, if any; then either the
   * exception it raised, or its result, the move a valid result commands and
   * the gripper action after the waypoint.
   */
  function Record(t: Trace, call: IkCall, w: Waypoint): Trace
  {
    var sent := t.requests + (if call.request.Some? then [call.request.value] else []);
    match call.outcome
    case Err(e) => Trace(sent, t.results, t.events, Raised(|t.results|, e))
    case Ok(r) => Trace(sent, t.results + [r], t.events + MoveIf(r) + GripperEvents(w.after), Normal)
  }

  /** Runs waypoint `w` as the next one, unless an earlier call raised. */
  function Advance(t: Trace, w: Waypoint, qinit: JointMap, service: Service): Trace
  {
    if t.status.Raised? then t
    else
      var i := |t.results|;
      Record(t, GetIk(w.target, SeedFor(qinit, t.results, i), service, i), w)
  }

  /** Request `i` is the one built for waypoint `i` with the seed of `SeedFor`. */
  predicate Requested(plan: seq<Waypoint>, qinit: JointMap, requests: seq<IkRequest>, results: seq<JointResult>)
    requires |requests| <= |plan| && |requests| <= |results| + 1
  {
    forall i {:trigger requests[i]} :: 0 <= i < |requests| ==>
      BuildRequest(plan[i].target, SeedFor(qinit, results, i)) == Ok(requests[i])
  }

  /** Result `i` is the service's reply to request `i`, read by `Interpret`. */
  predicate Answered(service: Service, requests: seq<IkRequest>, results: seq<JointResult>)
    requires |results| <= |requests|
  {
    forall i {:trigger requests[i]} :: 0 <= i < |results| ==> Interpret(service(i, requests[i])) == Ok(results[i])
  }

  /**
   * What a run of the first `n` waypoints of `plan` has done. It returned
   * normally exactly when all `n` calls returned; otherwise it stopped at the
   * first call that raised, and only a call that raised after the service
   * answered left a request without a result. The requests are `Requested`,
   * the results `Answered`, and the events are the reference `Blocks` of the
   * results.
   */
  predicate Consistent(plan: seq<Waypoint>, n: nat, qinit: JointMap, service: Service, t: Trace)
    requires n <= |plan|
  {
    && |t.results| <= n
    && (t.status.Normal? <==> |t.results| == n)
    && (t.status.Raised? ==> t.status.waypoint == |t.results|)
    && |t.requests| == |t.results| + (if t.status.Raised? && !t.status.error.MissingSeedJoint? then 1 else 0)
    && Requested(plan, qinit, t.requests, t.results)
    && Answered(service, t.requests, t.results)
    && t.events == Blocks(plan, t.results)
    && (t.status.Raised? ==>
          var w := t.status.waypoint;
          GetIk(plan[w].target, SeedFor(qinit, t.results, w), service, w).outcome == Err(t.status.error))
  }

  /** One more returned call adds its block to the reference trace. */
  lemma BlocksSnoc(plan: seq<Waypoint>, rs: seq<JointResult>, r: JointResult)
    requires |rs| < |plan|
    ensures Blocks(plan, rs + [r]) == Blocks(plan, rs) + MoveIf(r) + GripperEvents(plan[|rs|].after)
  {
    assert (rs + [r])[..|rs|] == rs;
  }

  /** A request built for the next waypoint keeps the requests `Requested`, with or without its result. */
  lemma RequestedSnoc(plan: seq<Waypoint>, qinit: JointMap, requests: seq<IkRequest>, results: seq<JointResult>,
                      req: IkRequest, more: seq<JointResult>)
    requires |requests| == |results| < |plan| && |more| <= 1
    requires Requested(plan, qinit, requests, results)
    requires BuildRequest(plan[|results|].target, SeedFor(qinit, results, |results|)) == Ok(req)
    ensures Requested(plan, qinit, requests + [req], results + more)
  {
    var reqs := requests + [req];
    var rs := results + more;
    assert forall i :: 0 <= i <= |results| ==> SeedFor(qinit, rs, i) == SeedFor(qinit, results, i);
    assert forall i :: 0 <= i < |requests| ==> reqs[i] == requests[i];
    assert reqs[|requests|] == req;
  }

  /** A request and its returned result keep the results `Answered`. */
  lemma AnsweredSnoc(service: Service, requests: seq<IkRequest>, results: seq<JointResult>,
                     req: IkRequest, r: JointResult)
    requires |requests| == |results|
    requires Answered(service, requests, results)
    requires Interpret(service(|results|, req)) == Ok(r)
    ensures Answered(service, requests + [req], results + [r])
  {
    var reqs := requests + [req];
    forall i | 0 <= i < |results| + 1 ensures Interpret(service(i, reqs[i])) == Ok((results + [r])[i]) {
      if i < |results| {
        assert reqs[i] == requests[i];
      }
    }
  }

  /** A request without a result leaves the results `Answered`. */
  lemma AnsweredPending(service: Service, requests: seq<IkRequest>, results: seq<JointResult>, extra: seq<IkRequest>)
    requires |results| <= |requests|
    requires Answered(service, requests, results)
    ensures Answered(service, requests + extra, results)
  {
    var reqs := requests + extra;
    forall i | 0 <= i < |results| ensures Interpret(service(i, reqs[i])) == Ok(results[i]) {
      assert reqs[i] == requests[i];
    }
  }

  /** A call that returns extends a consistent run by one result and its events. */
  lemma ReturnedConsistent(plan: seq<Waypoint>, n: nat, qinit: JointMap, service: Service, t: Trace, call: IkCall)
    requires n < |plan|
    requires Consistent(plan, n, qinit, service, t) && t.status.Normal?
    requires call.outcome.Ok? && call.request.Some?
    requires BuildRequest(plan[n].target, SeedFor(qinit, t.results, n)) == Ok(call.request.value)
    requires Interpret(service(n, call.request.value)) == call.outcome
    ensures Consistent(plan, n + 1, qinit, service, Record(t, call, plan[n]))
  {
    var r := call.outcome.value;
    var t' := Record(t, call, plan[n]);
    assert t' == Trace(t.requests + [call.request.value], t.results + [r],
                       t.events + MoveIf(r) + GripperEvents(plan[n].after), Normal);
    RequestedSnoc(plan, qinit, t.requests, t.results, call.request.value, [r]);
    AnsweredSnoc(service, t.requests, t.results, call.request.value, r);
    BlocksSnoc(plan, t.results, r);
  }

  /** A call that raises ends a consistent run at its waypoint. */
  lemma RaisedConsistent(plan: seq<Waypoint>, n: nat, qinit: JointMap, service: Service, t: Trace, call: IkCall)
    requires n < |plan|
    requires Consistent(plan, n, qinit, service, t) && t.status.Normal?
    requires call == GetIk(plan[n].target, SeedFor(qinit, t.results, n), service, n)
    requires call.outcome.Err?
    ensures Consistent(plan, n + 1, qinit, service, Record(t, call, plan[n]))
  {
    var sent := if call.request.Some? then [call.request.value] else [];
    var t' := Record(t, call, plan[n]);
    assert t' == Trace(t.requests + sent, t.results, t.events, Raised(n, call.outcome.error));
    if call.request.Some? {
      RequestedSnoc(plan, qinit, t.requests, t.results, call.request.value, []);
      assert t.results + [] == t.results;
    } else {
      assert t.requests + sent == t.requests;
    }
    AnsweredPending(service, t.requests, t.results, sent);
  }

  /** Running waypoint `n` after a consistent run of the first `n` keeps the run consistent. */
  lemma AdvanceConsistent(plan: seq<Waypoint>, n: nat, qinit: JointMap, service: Service, t: Trace)
    requires n < |plan|
    requires Consistent(plan, n, qinit, service, t)
    ensures Consistent(plan, n + 1, qinit, service, Advance(t, plan[n], qinit, service))
  {
    if t.status.Normal? {
      var call := GetIk(plan[n].target, SeedFor(qinit, t.results, n), service, n);
      if call.outcome.Ok? {
        ReturnedConsistent(plan, n, qinit, service, t, call);
      } else {
        RaisedConsistent(plan, n, qinit, service, t, call);
      }
    }
  }

  /** The first `n` waypoints of `plan`, run in order from the start. */
  function Execute(plan: seq<Waypoint>, n: nat, qinit: JointMap, service: Service): (t: Trace)
    requires n <= |plan|
    ensures Consistent(plan, n, qinit, service, t)
    decreases n
  {
    if n == 0 then Start
    else
      var t := Execute(plan, n - 1, qinit, service);
      AdvanceConsistent(plan, n - 1, qinit, service, t);
      Advance(t, plan[n - 1], qinit, service)
  }

  /**
   * `pick_place(limb, gripper, pose_initial, pose_final, gripper_opening,
   * zpre_grasp, qinit)`: the six waypoints of the plan, run in order. It
   * returns normally exactly when all six calls returned, every call that
   * returned had its request built and handed to the service call first, and
   * the run is consistent with the plan.
   */
  function PickPlace(initial: Pose, final: Pose, gripperOpening: real, zpreGrasp: real,
                     qinit: JointMap, service: Service): (t: Trace)
    ensures |t.results| <= PlanLength
    ensures t.status.Normal? <==> |t.results| == PlanLength
    ensures |t.results| <= |t.requests| <= |t.results| + 1
    ensures Consistent(Plan(initial, final, zpreGrasp, gripperOpening), PlanLength, qinit, service, t)
  {
    Execute(Plan(initial, final, zpreGrasp, gripperOpening), PlanLength, qinit, service)
  }
}
