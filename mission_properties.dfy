// What the state machine of MotionPlanning guarantees over one callback and
// over any run of telemetry events.
module MissionProperties {
  import opened GoalSelection
  import W = WaypointSynthesis
  import opened PythonInt
  import opened FlightControl

  /** One telemetry message, delivered to the callback registered for it. */
  datatype Event =
    | LocalPosition(altitudeReached: bool, nearTarget: bool, slow: bool)
    | Velocity(nearHomeAltitude: bool, onGround: bool)
    | StateMessage(armed: bool, guided: bool, req: PlanRequest)

  function Handle(v: Vehicle, e: Event): Step {
    match e
    case LocalPosition(altitudeReached, nearTarget, slow) => OnLocalPosition(v, altitudeReached, nearTarget, slow)
    case Velocity(nearHomeAltitude, onGround) => OnVelocity(v, nearHomeAltitude, onGround)
    case StateMessage(armed, guided, req) => OnStateMessage(v, armed, guided, req)
  }

  datatype Trace = Trace(final: Vehicle, commands: seq<Command>, outcome: Outcome)

  /** The events handled one after another. A handler that raises, or that
      would never return, ends the run. */
  function Run(v: Vehicle, events: seq<Event>): Trace
    decreases |events|
  {
    if |events| == 0 then Trace(v, [], Completed)
    else
      var s := Handle(v, events[0]);
      if s.outcome != Completed then Trace(s.next, s.commands, s.outcome)
      else
        var rest := Run(s.next, events[1..]);
        Trace(rest.final, s.commands + rest.commands, rest.outcome)
  }

  /** The position of a vehicle state in the mission's phase order; MANUAL
      counts as the first phase in mission and as the last after it. */
  function Phase(v: Vehicle): nat {
    match v.state
    case Manual => if v.inMission then 0 else 7
    case Arming => 1
    case Planning => 2
    case Takeoff => 3
    case Waypoint => 4
    case Landing => 5
    case Disarming => 6
  }

  /** The waypoints sent with cmd_position, in order. */
  function Targets(commands: seq<Command>): seq<W.Waypoint> {
    if |commands| == 0 then []
    else (if commands[0].CmdPosition? then [commands[0].target] else []) + Targets(commands[1..])
  }

  // ----- single callbacks -----

  /** state_callback in mission: MANUAL -> ARMING; ARMING -> PLANNING exactly
      when armed; PLANNING -> TAKEOFF; and DISARMING -> MANUAL, leaving the
      mission, whatever armed and guided are. */
  lemma StateMessageMoves(v: Vehicle, armed: bool, guided: bool, req: PlanRequest)
    requires v.inMission
    ensures var s := OnStateMessage(v, armed, guided, req);
      (v.state == Manual ==> s.next == v.(state := Arming) && s.commands == [Arm, TakeControl]) &&
      (v.state == Arming && armed ==> s.next.state == Planning && s == PlanStep(v, req)) &&
      (v.state == Arming && !armed ==> s == Unchanged(v)) &&
      (v.state == Planning ==> s.next == v.(state := Takeoff) && s.commands == [TakeoffTo(v.target.altitude)]) &&
      (v.state == Disarming ==> s.next == v.(state := Manual, inMission := false) && s.commands == [Stop]) &&
      (v.state in {Takeoff, Waypoint, Landing} ==> s == Unchanged(v))
  {
  }

  /** The DISARMING guard as written is -2, so true, while the vehicle is still
      armed or guided, and -1 once both flags are clear: it never reads 0. */
  lemma DisarmedGuardIgnoresFlags(armed: bool, guided: bool)
    ensures DisarmedGuard(armed, guided) == if armed || guided then -2 else -1
    ensures Truthy(DisarmedGuard(armed, guided))
  {
  }

  /** Once out of mission, state_callback changes nothing. */
  lemma OutOfMissionStateMessageIgnored(v: Vehicle, armed: bool, guided: bool, req: PlanRequest)
    requires !v.inMission
    ensures OnStateMessage(v, armed, guided, req) == Unchanged(v)
  {
  }

  /** local_position_callback in TAKEOFF and WAYPOINT. */
  lemma LocalPositionMoves(v: Vehicle, altitudeReached: bool, nearTarget: bool, slow: bool)
    ensures var s := OnLocalPosition(v, altitudeReached, nearTarget, slow);
      (v.state == Takeoff && altitudeReached ==> s == WaypointStep(v)) &&
      (v.state == Waypoint && nearTarget && |v.waypoints| > 0 ==>
         s.next == v.(target := v.waypoints[0], waypoints := v.waypoints[1..]) &&
         s.commands == [CmdPosition(v.waypoints[0])]) &&
      (v.state == Waypoint && nearTarget && |v.waypoints| == 0 && slow ==>
         s.next == v.(state := Landing) && s.commands == [Land]) &&
      (v.state == Waypoint && nearTarget && |v.waypoints| == 0 && !slow ==> s == Unchanged(v)) &&
      (v.state == Waypoint && !nearTarget ==> s == Unchanged(v)) &&
      (v.state == Takeoff && !altitudeReached ==> s == Unchanged(v))
  {
  }

  /** Position events outside TAKEOFF and WAYPOINT, and velocity events outside
      LANDING, leave every field unchanged and send nothing. */
  lemma OtherPhasesIgnoreMotion(v: Vehicle, e: Event)
    requires e.LocalPosition? ==> v.state != Takeoff && v.state != Waypoint
    requires e.Velocity? ==> v.state != Landing
    requires !e.StateMessage?
    ensures Handle(v, e) == Unchanged(v)
  {
  }

  /** velocity_callback in LANDING: DISARMING exactly when both ground guards hold. */
  lemma VelocityMoves(v: Vehicle, nearHomeAltitude: bool, onGround: bool)
    requires v.state == Landing
    ensures var s := OnVelocity(v, nearHomeAltitude, onGround);
      (nearHomeAltitude && onGround ==> s.next == v.(state := Disarming) && s.commands == [Disarm, ReleaseControl]) &&
      (!(nearHomeAltitude && onGround) ==> s == Unchanged(v))
  {
  }

  /** takeoff_transition climbs to TARGET_ALTITUDE after plan_path, whatever
      the target was before. */
  lemma TakeoffClimbsToTargetAltitude(v: Vehicle, req: PlanRequest)
    ensures TakeoffStep(PlanStep(v, req).next).commands == [TakeoffTo(W.TargetAltitude)]
  {
  }

  /** A queue still empty at PLANNING (left by a plan_path that raised, when the
      dispatcher carries on, or by a pruning step that returns nothing) is empty
      at TAKEOFF, and reaching altitude calls waypoint_transition, whose pop(0)
      raises IndexError. */
  lemma EmptyPlanFailsAfterTakeoff(v: Vehicle, armed: bool, guided: bool, req: PlanRequest)
    requires v.state == Planning && v.inMission && v.waypoints == []
    ensures var takeoff := OnStateMessage(v, armed, guided, req).next;
      takeoff.state == Takeoff &&
      OnLocalPosition(takeoff, true, false, false).outcome == PopFromEmptyList &&
      OnLocalPosition(takeoff, true, false, false).next.state == Waypoint
  {
  }

  /** No callback moves the vehicle back in the phase order. */
  lemma HandleKeepsPhaseOrder(v: Vehicle, e: Event)
    ensures Phase(Handle(v, e).next) >= Phase(v)
  {
  }

  /** Outside MANUAL-in-mission and ARMING (where planning replaces the queue),
      a callback only consumes the head of the queue and commands it. */
  lemma HandleConsumesQueue(v: Vehicle, e: Event)
    requires Phase(v) >= 2
    ensures Targets(Handle(v, e).commands) + Handle(v, e).next.waypoints == v.waypoints
  {
  }

  // ----- runs -----

  lemma {:induction false} TargetsAppend(a: seq<Command>, b: seq<Command>)
    ensures Targets(a + b) == Targets(a) + Targets(b)
  {
    if |a| == 0 {
      assert a + b == b;
    } else {
      var head := if a[0].CmdPosition? then [a[0].target] else [];
      assert (a + b)[0] == a[0];
      assert (a + b)[1..] == a[1..] + b;
      TargetsAppend(a[1..], b);
      assert Targets(a + b) == head + Targets(a[1..] + b);
      assert Targets(a) == head + Targets(a[1..]);
    }
  }

  /** A run never moves back in the phase order. */
  lemma {:induction false} RunKeepsPhaseOrder(v: Vehicle, events: seq<Event>)
    ensures Phase(Run(v, events).final) >= Phase(v)
    decreases |events|
  {
    if |events| > 0 {
      var s := Handle(v, events[0]);
      HandleKeepsPhaseOrder(v, events[0]);
      if s.outcome == Completed {
        RunKeepsPhaseOrder(s.next, events[1..]);
      }
    }
  }

  /** After manual_transition the drone is frozen: no event changes any field
      or sends anything. */
  lemma {:induction false} MissionEndIsFinal(v: Vehicle, events: seq<Event>)
    requires v.state == Manual && !v.inMission
    ensures Run(v, events) == Trace(v, [], Completed)
    decreases |events|
  {
    if |events| > 0 {
      assert Handle(v, events[0]) == Unchanged(v);
      MissionEndIsFinal(v, events[1..]);
    }
  }

  /** From PLANNING on, the queue is flown in order: the targets commanded so
      far followed by the queue left are the queue at the start. */
  lemma {:induction false} QueueConsumedInOrder(v: Vehicle, events: seq<Event>)
    requires Phase(v) >= 2
    ensures Targets(Run(v, events).commands) + Run(v, events).final.waypoints == v.waypoints
    decreases |events|
  {
    if |events| > 0 {
      var s := Handle(v, events[0]);
      HandleConsumesQueue(v, events[0]);
      if s.outcome == Completed {
        HandleKeepsPhaseOrder(v, events[0]);
        QueueConsumedInOrder(s.next, events[1..]);
        var rest := Run(s.next, events[1..]);
        TargetsAppend(s.commands, rest.commands);
        assert Targets(s.commands) + (Targets(rest.commands) + rest.final.waypoints) == v.waypoints;
      }
    }
  }

  /** What holds of every state the drone can reach: out of mission means MANUAL;
      the queue is empty before planning and from LANDING on. */
  ghost predicate Consistent(v: Vehicle) {
    (!v.inMission ==> v.state == Manual) &&
    (v.state in {Manual, Arming, Landing, Disarming} ==> v.waypoints == [])
  }

  lemma HandleKeepsConsistent(v: Vehicle, e: Event)
    requires Consistent(v)
    ensures Consistent(Handle(v, e).next)
  {
  }

  lemma {:induction false} RunKeepsConsistent(v: Vehicle, events: seq<Event>)
    requires Consistent(v)
    ensures Consistent(Run(v, events).final)
    decreases |events|
  {
    if |events| > 0 {
      var s := Handle(v, events[0]);
      HandleKeepsConsistent(v, events[0]);
      if s.outcome == Completed {
        RunKeepsConsistent(s.next, events[1..]);
      }
    }
  }

  /** Every state reachable from __init__ is consistent. */
  lemma ReachableIsConsistent(events: seq<Event>)
    ensures Consistent(Run(Initial, events).final)
  {
    RunKeepsConsistent(Initial, events);
  }

  /** The events handled by a dispatcher that goes on with the next event when
      an exception escapes a callback. Only a callback that never returns (the
      random-goal loop) ends the run. The outcome is that of the last callback. */
  function RunThrough(v: Vehicle, events: seq<Event>): Trace
    decreases |events|
  {
    if |events| == 0 then Trace(v, [], Completed)
    else
      var s := Handle(v, events[0]);
      if s.outcome == GoalSearchUnbounded || |events| == 1 then Trace(s.next, s.commands, s.outcome)
      else
        var rest := RunThrough(s.next, events[1..]);
        Trace(rest.final, s.commands + rest.commands, rest.outcome)
  }

  lemma {:induction false} RunThroughKeepsConsistent(v: Vehicle, events: seq<Event>)
    requires Consistent(v)
    ensures Consistent(RunThrough(v, events).final)
    decreases |events|
  {
    if |events| > 0 {
      var s := Handle(v, events[0]);
      HandleKeepsConsistent(v, events[0]);
      if s.outcome != GoalSearchUnbounded && |events| > 1 {
        RunThroughKeepsConsistent(s.next, events[1..]);
      }
    }
  }

  lemma {:induction false} RunThroughKeepsPhaseOrder(v: Vehicle, events: seq<Event>)
    ensures Phase(RunThrough(v, events).final) >= Phase(v)
    decreases |events|
  {
    if |events| > 0 {
      var s := Handle(v, events[0]);
      HandleKeepsPhaseOrder(v, events[0]);
      if s.outcome != GoalSearchUnbounded && |events| > 1 {
        RunThroughKeepsPhaseOrder(s.next, events[1..]);
      }
    }
  }

  /** Every state reachable from __init__ is consistent, also when exceptions
      escaping a callback do not stop the drone. */
  lemma ReachableThroughExceptionsIsConsistent(events: seq<Event>)
    ensures Consistent(RunThrough(Initial, events).final)
  {
    RunThroughKeepsConsistent(Initial, events);
  }

  /** A goal the search cannot reach: plan_path raises in the plot and leaves the
      queue empty; if the drone carries on, the next state message takes off, and
      reaching altitude then raises in pop(0), with the phase at WAYPOINT; the
      vehicle sees only arm, take control, the home position and takeoff. */
  lemma UnreachableGoalFailsAfterTakeoff(req: PlanRequest, guided: bool)
    requires SelectGoal(req.grid, req.goal, req.draws).Chosen?
    requires |req.search(req.start, SelectGoal(req.grid, req.goal, req.draws).goal)| == 0
    ensures var events := [StateMessage(false, guided, req), StateMessage(true, guided, req),
                           StateMessage(true, guided, req), LocalPosition(true, false, false)];
      var t := RunThrough(Initial, events);
      t.final.state == Waypoint && t.final.waypoints == [] && t.outcome == PopFromEmptyList &&
      t.commands == [Arm, TakeControl, SetHome, TakeoffTo(W.TargetAltitude)]
  {
    var events := [StateMessage(false, guided, req), StateMessage(true, guided, req),
                   StateMessage(true, guided, req), LocalPosition(true, false, false)];
    var s0 := Handle(Initial, events[0]);
    var s1 := Handle(s0.next, events[1]);
    assert s1.outcome == PathPlotIndexError && s1.next.waypoints == [];
    var s2 := Handle(s1.next, events[2]);
    var s3 := Handle(s2.next, events[3]);
    assert s3.outcome == PopFromEmptyList;
    assert events[3..][1..] == [];
    assert events[2..][1..] == events[3..];
    assert events[1..][1..] == events[2..];
    assert RunThrough(s2.next, events[3..]) == Trace(s3.next, s3.commands, PopFromEmptyList);
    assert RunThrough(s1.next, events[2..]) == Trace(s3.next, s2.commands + s3.commands, PopFromEmptyList);
    assert RunThrough(s0.next, events[1..]) == Trace(s3.next, s1.commands + s2.commands + s3.commands, PopFromEmptyList);
  }

  /** From PLANNING in mission, the drone lands only after commanding every
      queued waypoint, in order. */
  lemma LandsOnlyAfterFullRoute(v: Vehicle, events: seq<Event>)
    requires v.state == Planning && v.inMission
    ensures var t := Run(v, events);
      t.final.state in {Landing, Disarming} || !t.final.inMission ==> Targets(t.commands) == v.waypoints
  {
    QueueConsumedInOrder(v, events);
    RunKeepsConsistent(v, events);
    var t := Run(v, events);
    if t.final.state in {Landing, Disarming} || !t.final.inMission {
      assert t.final.waypoints == [];
      assert Targets(t.commands) + [] == Targets(t.commands);
    }
  }

  /** The route plan_path synthesises is the route flown: if the drone plans in
      ARMING and later lands, the cmd_position targets are exactly the waypoints
      built from the pruned path. */
  lemma PlannedRouteIsFlown(v: Vehicle, armed: bool, guided: bool, req: PlanRequest, events: seq<Event>)
    requires v.state == Arming && v.inMission && armed
    requires OnStateMessage(v, armed, guided, req).outcome == Completed
    ensures var t := Run(OnStateMessage(v, armed, guided, req).next, events);
      var path := req.prune(req.search(req.start, SelectGoal(req.grid, req.goal, req.draws).goal));
      t.final.state in {Landing, Disarming} || !t.final.inMission ==>
        Targets(t.commands) == W.WaypointsFor(path, req.northOffset, req.eastOffset)
  {
    LandsOnlyAfterFullRoute(OnStateMessage(v, armed, guided, req).next, events);
  }
}
