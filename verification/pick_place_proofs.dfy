/**
 * Properties of whole `pick_place` runs: which commands a run issues, in
 * which order, and how a failed IK call ends it.
 */
module PickPlaceProperties {
  import opened Results
  import opened Poses
  import opened JointMaps
  import opened IkClient
  import opened WaypointPlan
  import opened PickPlaceDemo

  /** The configurations the limb is sent to, in order. */
  function Moves(events: seq<Event>): seq<JointMap>
    decreases |events|
  {
    if |events| == 0 then []
    else (if events[0].Move? then [events[0].config] else []) + Moves(events[1..])
  }

  /** The gripper commands and pauses, in order. */
  function GripperCommands(events: seq<Event>): seq<Event>
    decreases |events|
  {
    if |events| == 0 then []
    else (if events[0].Move? then [] else [events[0]]) + GripperCommands(events[1..])
  }

  /** The angles of the valid results, in order. */
  function ValidConfigs(rs: seq<JointResult>): seq<JointMap>
    decreases |rs|
  {
    if |rs| == 0 then []
    else ValidConfigs(rs[..|rs| - 1]) + (if rs[|rs| - 1].valid then [rs[|rs| - 1].jangles] else [])
  }

  /** The gripper events owed once the first `n` waypoints have returned. */
  function ScheduledGripper(plan: seq<Waypoint>, n: nat): seq<Event>
    requires n <= |plan|
  {
    if n == 0 then [] else ScheduledGripper(plan, n - 1) + GripperEvents(plan[n - 1].after)
  }

  /** The limb projection distributes over concatenation. */
  lemma {:induction false} MovesAppend(a: seq<Event>, b: seq<Event>)
    ensures Moves(a + b) == Moves(a) + Moves(b)
    decreases |a|
  {
    if |a| == 0 {
      assert a + b == b;
    } else {
      var head := if a[0].Move? then [a[0].config] else [];
      assert (a + b)[0] == a[0] && (a + b)[1..] == a[1..] + b;
      MovesAppend(a[1..], b);
      assert Moves(a + b) == head + (Moves(a[1..]) + Moves(b));
      assert head + (Moves(a[1..]) + Moves(b)) == (head + Moves(a[1..])) + Moves(b);
    }
  }

  /** The gripper projection distributes over concatenation. */
  lemma {:induction false} GripperAppend(a: seq<Event>, b: seq<Event>)
    ensures GripperCommands(a + b) == GripperCommands(a) + GripperCommands(b)
    decreases |a|
  {
    if |a| == 0 {
      assert a + b == b;
    } else {
      var head := if a[0].Move? then [] else [a[0]];
      assert (a + b)[0] == a[0] && (a + b)[1..] == a[1..] + b;
      GripperAppend(a[1..], b);
      assert GripperCommands(a + b) == head + (GripperCommands(a[1..]) + GripperCommands(b));
      assert head + (GripperCommands(a[1..]) + GripperCommands(b)) == (head + GripperCommands(a[1..])) + GripperCommands(b);
    }
  }

  /** One waypoint's block moves the limb at most once and holds that waypoint's gripper events. */
  lemma BlockProjections(r: JointResult, a: GripperAction)
    ensures Moves(MoveIf(r) + GripperEvents(a)) == (if r.valid then [r.jangles] else [])
    ensures GripperCommands(MoveIf(r) + GripperEvents(a)) == GripperEvents(a)
  {
    MovesAppend(MoveIf(r), GripperEvents(a));
    GripperAppend(MoveIf(r), GripperEvents(a));
    var gripper := GripperEvents(a);
    assert Moves(gripper) == [] && GripperCommands(gripper) == gripper by {
      if |gripper| == 2 {
        assert gripper[1..][1..] == [];
      }
    }
  }

  /** Over the reference trace, the limb is sent exactly to the angles of the valid results, in order. */
  lemma {:induction false} BlocksMoves(plan: seq<Waypoint>, rs: seq<JointResult>)
    requires |rs| <= |plan|
    ensures Moves(Blocks(plan, rs)) == ValidConfigs(rs)
    decreases |rs|
  {
    if |rs| > 0 {
      var last := rs[|rs| - 1];
      var front := rs[..|rs| - 1];
      var block := MoveIf(last) + GripperEvents(plan[|rs| - 1].after);
      BlocksMoves(plan, front);
      assert Blocks(plan, rs) == Blocks(plan, front) + block;
      MovesAppend(Blocks(plan, front), block);
      BlockProjections(last, plan[|rs| - 1].after);
    }
  }

  /** Over the reference trace, the gripper events are those of the waypoints that returned, in order. */
  lemma {:induction false} BlocksGripper(plan: seq<Waypoint>, rs: seq<JointResult>)
    requires |rs| <= |plan|
    ensures GripperCommands(Blocks(plan, rs)) == ScheduledGripper(plan, |rs|)
    decreases |rs|
  {
    if |rs| > 0 {
      var last := rs[|rs| - 1];
      var front := rs[..|rs| - 1];
      var block := MoveIf(last) + GripperEvents(plan[|rs| - 1].after);
      assert |front| == |rs| - 1;
      BlocksGripper(plan, front);
      assert Blocks(plan, rs) == Blocks(plan, front) + block;
      GripperAppend(Blocks(plan, front), block);
      BlockProjections(last, plan[|rs| - 1].after);
      assert GripperCommands(block) == GripperEvents(plan[|rs| - 1].after);
      assert ScheduledGripper(plan, |rs|) == ScheduledGripper(plan, |rs| - 1) + GripperEvents(plan[|rs| - 1].after);
    }
  }

  /**
   * In a `pick_place` run the limb is commanded once per valid result, with
   * that result's angles, and never otherwise; the gripper closes after the
   * grasp waypoint and opens after the release waypoint, each followed by a
   * pause, once those waypoints' calls have returned.
   */
  lemma MovesAndGripper(initial: Pose, final: Pose, g: real, h: real, qinit: JointMap, service: Service)
    ensures var t := PickPlace(initial, final, g, h, qinit, service);
      && Moves(t.events) == ValidConfigs(t.results)
      && GripperCommands(t.events)
         == (if |t.results| >= 2 then [GripSet(g), Sleep] else [])
            + (if |t.results| >= 5 then [GripOpen, Sleep] else [])
  {
    var plan := Plan(initial, final, h, g);
    var t := PickPlace(initial, final, g, h, qinit, service);
    assert t == Execute(plan, PlanLength, qinit, service);
    BlocksMoves(plan, t.results);
    BlocksGripper(plan, t.results);
    RoutineSchedule(plan, g, |t.results|);
  }

  /** Under the routine's gripper schedule, the gripper events owed after the first `n` waypoints. */
  lemma {:induction false} RoutineSchedule(plan: seq<Waypoint>, g: real, n: nat)
    requires |plan| == PlanLength && n <= PlanLength
    requires forall i :: 0 <= i < PlanLength ==> plan[i].after == ActionAt(g, i)
    ensures ScheduledGripper(plan, n)
            == (if n >= 2 then [GripSet(g), Sleep] else []) + (if n >= 5 then [GripOpen, Sleep] else [])
    decreases n
  {
    if n > 0 {
      RoutineSchedule(plan, g, n - 1);
      assert plan[n - 1].after == ActionAt(g, n - 1);
    }
  }

  /**
   * A `qinit` that lacks one of the seven joints raises at the very first
   * seed lookup, naming the first joint it lacks: no request is built for the
   * service and nothing is commanded.
   */
  lemma IncompleteStartSeed(initial: Pose, final: Pose, g: real, h: real, qinit: JointMap, service: Service)
    requires !Covers(qinit)
    ensures PickPlace(initial, final, g, h, qinit, service)
            == Trace([], [], [], Raised(0, MissingSeedJoint(JointNames[FirstMissing(qinit, 0)])))
  {
    var plan := Plan(initial, final, h, g);
    var t := PickPlace(initial, final, g, h, qinit, service);
    assert t == Execute(plan, PlanLength, qinit, service);
    SentRequestSeeded(plan, PlanLength, qinit, service, t, 0);
    assert |t.results| == 0;
    assert t.events == Blocks(plan, []) == [];
  }

  /** In a consistent run, a request was built and handed to the service call for a waypoint only if its seed held all seven joints. */
  lemma SentRequestSeeded(plan: seq<Waypoint>, n: nat, qinit: JointMap, service: Service, t: Trace, i: nat)
    requires n <= |plan|
    requires Consistent(plan, n, qinit, service, t)
    requires i <= |t.results|
    ensures i < |t.requests| ==> Covers(SeedFor(qinit, t.results, i))
  {
    if i < |t.requests| {
      assert BuildRequest(plan[i].target, SeedFor(qinit, t.results, i)) == Ok(t.requests[i]);
    }
  }

  /** In a consistent run, request `i` asks for waypoint `i`'s target, seeded as `SeedFor` says. */
  lemma RequestsFollowPlan(plan: seq<Waypoint>, n: nat, qinit: JointMap, service: Service, t: Trace)
    requires n <= |plan|
    requires Consistent(plan, n, qinit, service, t)
    ensures forall i :: 0 <= i < |t.requests| ==>
      RequestFor(t.requests[i], plan[i].target, SeedFor(qinit, t.results, i))
  {
    forall i | 0 <= i < |t.requests|
      ensures RequestFor(t.requests[i], plan[i].target, SeedFor(qinit, t.results, i))
    {
      assert BuildRequest(plan[i].target, SeedFor(qinit, t.results, i)) == Ok(t.requests[i]);
    }
  }

  /**
   * The seeding chain: the first request asks for the pre-grasp pose seeded
   * with `qinit`; every later request asks for its waypoint's pose seeded
   * with the angles of the previous call's result.
   */
  lemma SeedingChain(initial: Pose, final: Pose, g: real, h: real, qinit: JointMap, service: Service)
    ensures var t := PickPlace(initial, final, g, h, qinit, service);
      && (|t.requests| > 0 ==> RequestFor(t.requests[0], Above(initial, h), qinit))
      && forall i :: 0 < i < |t.requests| ==>
           RequestFor(t.requests[i], TargetAt(initial, final, h, i), t.results[i - 1].jangles)
  {
    var plan := Plan(initial, final, h, g);
    var t := PickPlace(initial, final, g, h, qinit, service);
    assert t == Execute(plan, PlanLength, qinit, service);
    RequestsFollowPlan(plan, PlanLength, qinit, service, t);
    assert plan[0].target == Above(initial, h);
  }

  /** An invalid result leaves the empty default angles, which fail the next seed lookup. */
  lemma InvalidResultIsDefault(service: Service, requests: seq<IkRequest>, results: seq<JointResult>, i: nat)
    requires |results| <= |requests| && i < |results|
    requires Answered(service, requests, results)
    requires !results[i].valid
    ensures results[i] == DefaultResult
    ensures !Covers(results[i].jangles)
  {
    assert Interpret(service(i, requests[i])) == Ok(results[i]);
    assert JointNames[0] !in DefaultResult.jangles;
  }

  /** In a consistent run, an invalid result before the last waypoint is the last result, and the run raised after it. */
  lemma InvalidEndsRun(plan: seq<Waypoint>, n: nat, qinit: JointMap, service: Service, t: Trace, i: nat)
    requires n <= |plan| && i + 1 < n
    requires Consistent(plan, n, qinit, service, t)
    requires i < |t.results| && !t.results[i].valid
    ensures |t.results| == i + 1 && |t.requests| == i + 1
    ensures t.status == Raised(i + 1, MissingSeedJoint(JointNames[0]))
  {
    InvalidResultIsDefault(service, t.requests, t.results, i);
    SentRequestSeeded(plan, n, qinit, service, t, i + 1);
    SeedOfEmptyMap();
    assert SeedFor(qinit, t.results, i + 1) == DefaultResult.jangles;
  }

  /** When the last result is invalid, its block is only the gripper action of its waypoint. */
  lemma BlocksEndInvalid(plan: seq<Waypoint>, rs: seq<JointResult>)
    requires 0 < |rs| <= |plan| && !rs[|rs| - 1].valid
    ensures Blocks(plan, rs) == Blocks(plan, rs[..|rs| - 1]) + GripperEvents(plan[|rs| - 1].after)
  {
  }

  /**
   * A call at waypoint `i` before the last that returns an invalid result
   * ends the run: the next call is seeded with the result's empty default
   * angles and raises at the lookup of `right_j0`, before any request is built.
   * So no request follows, and after the failed waypoint's own gripper
   * action nothing more is commanded.
   */
  lemma FailureRaisesAtNextSeed(initial: Pose, final: Pose, g: real, h: real, qinit: JointMap,
                                service: Service, i: nat)
    requires i + 1 < PlanLength
    requires var t := PickPlace(initial, final, g, h, qinit, service);
             i < |t.results| && !t.results[i].valid
    ensures var t := PickPlace(initial, final, g, h, qinit, service);
      && |t.results| == i + 1
      && |t.requests| == i + 1
      && t.status == Raised(i + 1, MissingSeedJoint("right_j0"))
      && t.events == Blocks(Plan(initial, final, h, g), t.results[..i]) + GripperEvents(ActionAt(g, i))
  {
    var plan := Plan(initial, final, h, g);
    var t := PickPlace(initial, final, g, h, qinit, service);
    assert t == Execute(plan, PlanLength, qinit, service);
    InvalidEndsRun(plan, PlanLength, qinit, service, t, i);
    BlocksEndInvalid(plan, t.results);
  }

  /**
   * A run that returns normally got a valid result naming all seven joints
   * from each of the first five calls; only the last call may have failed.
   */
  lemma NormalReturnNeedsFirstFive(initial: Pose, final: Pose, g: real, h: real, qinit: JointMap, service: Service)
    requires PickPlace(initial, final, g, h, qinit, service).status.Normal?
    ensures var t := PickPlace(initial, final, g, h, qinit, service);
      && |t.results| == PlanLength
      && forall i :: 0 <= i < PlanLength - 1 ==> t.results[i].valid && Covers(t.results[i].jangles)
  {
    var plan := Plan(initial, final, h, g);
    var t := PickPlace(initial, final, g, h, qinit, service);
    assert t == Execute(plan, PlanLength, qinit, service);
    forall i | 0 <= i < PlanLength - 1 ensures t.results[i].valid && Covers(t.results[i].jangles) {
      if !t.results[i].valid {
        InvalidEndsRun(plan, PlanLength, qinit, service, t, i);
      }
      assert BuildRequest(plan[i + 1].target, SeedFor(qinit, t.results, i + 1)) == Ok(t.requests[i + 1]);
    }
  }

  /**
   * In a consistent run that raised at a waypoint whose seed held all seven
   * joints, the request was built and handed to the service call, and the service's reply to it is one whose
   * reading raises.
   */
  lemma RaisedAfterSeed(plan: seq<Waypoint>, n: nat, qinit: JointMap, service: Service, t: Trace)
    requires n <= |plan|
    requires Consistent(plan, n, qinit, service, t)
    requires t.status.Raised?
    ensures var w := t.status.waypoint;
      Covers(SeedFor(qinit, t.results, w)) ==> |t.requests| == w + 1 && !Returns(service(w, t.requests[w]))
  {
    var w := t.status.waypoint;
    var call := GetIk(plan[w].target, SeedFor(qinit, t.results, w), service, w);
    if Covers(SeedFor(qinit, t.results, w)) {
      assert BuildRequest(plan[w].target, SeedFor(qinit, t.results, w)) == Ok(t.requests[w]);
    }
  }

  /** In a consistent run whose calls all return, with solutions naming all joints before the last, no call raised. */
  lemma SolvedRunCompletes(plan: seq<Waypoint>, n: nat, qinit: JointMap, service: Service, t: Trace)
    requires n <= |plan|
    requires Consistent(plan, n, qinit, service, t)
    requires Covers(qinit)
    requires forall k, req :: 0 <= k < n ==> Returns(service(k, req))
    requires forall k, req :: 0 <= k < n - 1 ==> Solves(service(k, req))
    ensures t.status == Normal && |t.results| == n && |t.requests| == n
    ensures forall i :: 0 <= i < n - 1 ==> t.results[i].valid
  {
    forall i | 0 <= i < |t.results| && i < n - 1 ensures t.results[i].valid && Covers(t.results[i].jangles) {
      var reply := service(i, t.requests[i]);
      assert Interpret(reply) == Ok(t.results[i]);
      assert Solves(reply);
    }
    if t.status.Raised? {
      RaisedAfterSeed(plan, n, qinit, service, t);
    }
  }

  /** The reference trace of six returned waypoints, the first five valid, under the routine's gripper schedule. */
  lemma BlocksOfFirstFiveValid(plan: seq<Waypoint>, g: real, rs: seq<JointResult>)
    requires |plan| == PlanLength == |rs|
    requires forall i :: 0 <= i < PlanLength ==> plan[i].after == ActionAt(g, i)
    requires forall i :: 0 <= i < PlanLength - 1 ==> rs[i].valid
    ensures Blocks(plan, rs)
            == [Move(rs[0].jangles), Move(rs[1].jangles), GripSet(g), Sleep,
                Move(rs[2].jangles), Move(rs[3].jangles), Move(rs[4].jangles),
                GripOpen, Sleep] + MoveIf(rs[5])
  {
    var m0, m1, m2, m3, m4 := Move(rs[0].jangles), Move(rs[1].jangles), Move(rs[2].jangles),
                              Move(rs[3].jangles), Move(rs[4].jangles);
    BlocksPrefix(plan, rs, 0);
    assert Blocks(plan, rs[..1]) == [m0];
    BlocksPrefix(plan, rs, 1);
    assert Blocks(plan, rs[..2]) == [m0, m1, GripSet(g), Sleep];
    BlocksPrefix(plan, rs, 2);
    assert Blocks(plan, rs[..3]) == [m0, m1, GripSet(g), Sleep, m2];
    BlocksPrefix(plan, rs, 3);
    assert Blocks(plan, rs[..4]) == [m0, m1, GripSet(g), Sleep, m2, m3];
    BlocksPrefix(plan, rs, 4);
    assert Blocks(plan, rs[..5]) == [m0, m1, GripSet(g), Sleep, m2, m3, m4, GripOpen, Sleep];
    BlocksPrefix(plan, rs, 5);
    assert rs[..6] == rs;
  }

  /** The reference trace of the first `k + 1` results extends that of the first `k` by result `k`'s block. */
  lemma BlocksPrefix(plan: seq<Waypoint>, rs: seq<JointResult>, k: nat)
    requires k < |rs| <= |plan|
    ensures Blocks(plan, rs[..k + 1]) == Blocks(plan, rs[..k]) + MoveIf(rs[k]) + GripperEvents(plan[k].after)
  {
    assert rs[..k + 1][..k] == rs[..k];
  }

  /** A consistent six-waypoint run under the routine's gripper schedule whose first five calls solve. */
  lemma FirstFiveSolvedRun(plan: seq<Waypoint>, g: real, qinit: JointMap, service: Service, t: Trace)
    requires |plan| == PlanLength
    requires forall i :: 0 <= i < PlanLength ==> plan[i].after == ActionAt(g, i)
    requires Consistent(plan, PlanLength, qinit, service, t)
    requires Covers(qinit)
    requires forall k, req :: 0 <= k < PlanLength ==> Returns(service(k, req))
    requires forall k, req :: 0 <= k < PlanLength - 1 ==> Solves(service(k, req))
    ensures t.status == Normal
    ensures |t.requests| == PlanLength && |t.results| == PlanLength
    ensures t.events == [Move(t.results[0].jangles), Move(t.results[1].jangles), GripSet(g), Sleep,
                         Move(t.results[2].jangles), Move(t.results[3].jangles), Move(t.results[4].jangles),
                         GripOpen, Sleep] + MoveIf(t.results[5])
  {
    SolvedRunCompletes(plan, PlanLength, qinit, service, t);
    BlocksOfFirstFiveValid(plan, g, t.results);
  }

  /**
   * When every call returns and the first five are solutions naming all
   * seven joints, the run returns normally after six calls, with the limb
   * commands and the gripper commands interleaved as the routine lists them;
   * the last waypoint's move depends on its own result alone.
   */
  lemma FirstFiveSolvedTrace(initial: Pose, final: Pose, g: real, h: real, qinit: JointMap, service: Service)
    requires Covers(qinit)
    requires forall k, req :: 0 <= k < PlanLength ==> Returns(service(k, req))
    requires forall k, req :: 0 <= k < PlanLength - 1 ==> Solves(service(k, req))
    ensures var t := PickPlace(initial, final, g, h, qinit, service);
      && t.status == Normal
      && |t.requests| == PlanLength && |t.results| == PlanLength
      && t.events == [Move(t.results[0].jangles), Move(t.results[1].jangles), GripSet(g), Sleep,
                      Move(t.results[2].jangles), Move(t.results[3].jangles), Move(t.results[4].jangles),
                      GripOpen, Sleep] + MoveIf(t.results[5])
  {
    var plan := Plan(initial, final, h, g);
    var t := PickPlace(initial, final, g, h, qinit, service);
    assert t == Execute(plan, PlanLength, qinit, service);
    FirstFiveSolvedRun(plan, g, qinit, service, t);
  }

  /** A service whose first `n` replies are solutions raises nothing when they are read. */
  lemma SolvedReplyReturns(service: Service, n: nat)
    requires forall k, req :: 0 <= k < n ==> Solves(service(k, req))
    ensures forall k, req :: 0 <= k < n ==> Returns(service(k, req))
  {
  }

  /** Results answered by solutions are valid and hold the angles of each solution. */
  lemma SolvedResults(service: Service, requests: seq<IkRequest>, results: seq<JointResult>)
    requires |results| <= |requests|
    requires Answered(service, requests, results)
    requires forall k, req :: 0 <= k < |results| ==> Solves(service(k, req))
    ensures forall i :: 0 <= i < |results| ==>
      var reply := service(i, requests[i]);
      Solves(reply) && results[i] == JointResult(ZipToMap(reply.joints[0].name, reply.joints[0].position), true)
  {
    forall i | 0 <= i < |results|
      ensures var reply := service(i, requests[i]);
        Solves(reply) && results[i] == JointResult(ZipToMap(reply.joints[0].name, reply.joints[0].position), true)
    {
      assert Interpret(service(i, requests[i])) == Ok(results[i]);
    }
  }

  /** A consistent six-waypoint run under the routine's gripper schedule whose six calls all solve. */
  lemma AllSolvedRun(plan: seq<Waypoint>, g: real, qinit: JointMap, service: Service, t: Trace)
    requires |plan| == PlanLength
    requires forall i :: 0 <= i < PlanLength ==> plan[i].after == ActionAt(g, i)
    requires Consistent(plan, PlanLength, qinit, service, t)
    requires Covers(qinit)
    requires forall k, req :: 0 <= k < PlanLength ==> Solves(service(k, req))
    ensures t.status == Normal
    ensures |t.requests| == PlanLength && |t.results| == PlanLength
    ensures forall i :: 0 <= i < PlanLength ==>
      var reply := service(i, t.requests[i]);
      Solves(reply) && t.results[i] == JointResult(ZipToMap(reply.joints[0].name, reply.joints[0].position), true)
    ensures t.events == [Move(t.results[0].jangles), Move(t.results[1].jangles), GripSet(g), Sleep,
                         Move(t.results[2].jangles), Move(t.results[3].jangles), Move(t.results[4].jangles),
                         GripOpen, Sleep, Move(t.results[5].jangles)]
  {
    SolvedReplyReturns(service, PlanLength);
    FirstFiveSolvedRun(plan, g, qinit, service, t);
    SolvedResults(service, t.requests, t.results);
    LastMoveValid(g, t.results, t.events);
  }

  /** With the last result valid too, the routine's trace ends with a move to that result's angles. */
  lemma LastMoveValid(g: real, rs: seq<JointResult>, events: seq<Event>)
    requires |rs| == PlanLength && rs[5].valid
    requires events == [Move(rs[0].jangles), Move(rs[1].jangles), GripSet(g), Sleep,
                        Move(rs[2].jangles), Move(rs[3].jangles), Move(rs[4].jangles),
                        GripOpen, Sleep] + MoveIf(rs[5])
    ensures events == [Move(rs[0].jangles), Move(rs[1].jangles), GripSet(g), Sleep,
                       Move(rs[2].jangles), Move(rs[3].jangles), Move(rs[4].jangles),
                       GripOpen, Sleep, Move(rs[5].jangles)]
  {
    assert MoveIf(rs[5]) == [Move(rs[5].jangles)];
  }

  /**
   * With a service that solves every request with all seven joints, the
   * run is exactly: move, move, close to `g`, pause, move, move, move, open,
   * pause, move; each move carries the solution the service gave for that
   * waypoint's request.
   */
  lemma AllSolvedTrace(initial: Pose, final: Pose, g: real, h: real, qinit: JointMap, service: Service)
    requires Covers(qinit)
    requires forall k, req :: 0 <= k < PlanLength ==> Solves(service(k, req))
    ensures var t := PickPlace(initial, final, g, h, qinit, service);
      && t.status == Normal
      && |t.requests| == PlanLength && |t.results| == PlanLength
      && (forall i :: 0 <= i < PlanLength ==>
            var reply := service(i, t.requests[i]);
            Solves(reply) && t.results[i] == JointResult(ZipToMap(reply.joints[0].name, reply.joints[0].position), true))
      && t.events == [Move(t.results[0].jangles), Move(t.results[1].jangles), GripSet(g), Sleep,
                      Move(t.results[2].jangles), Move(t.results[3].jangles), Move(t.results[4].jangles),
                      GripOpen, Sleep, Move(t.results[5].jangles)]
  {
    var plan := Plan(initial, final, h, g);
    var t := PickPlace(initial, final, g, h, qinit, service);
    assert t == Execute(plan, PlanLength, qinit, service);
    AllSolvedRun(plan, g, qinit, service, t);
  }
}
