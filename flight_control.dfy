// The flight-phase state machine of the MotionPlanning drone: three telemetry
// callbacks, each of which checks the current phase and a guard and then runs
// one `*_transition`. The pure functions below are the transition table
// (phase x event -> new vehicle state, vehicle commands, outcome); the class
// MotionPlanning holds the same state in fields and is proved against them.
//
// Guards computed from floating-point telemetry are boolean parameters; the
// vehicle commands (arm, takeoff, cmd_position, ...) are recorded in a log.
module FlightControl {
  import opened Wrappers
  import opened Occupancy
  import opened GoalSelection
  import W = WaypointSynthesis
  import opened PythonInt

  /** States: the seven flight phases. */
  datatype State = Manual | Arming | Takeoff | Waypoint | Landing | Disarming | Planning

  /** The calls the drone makes on the vehicle, in the order it makes them, as
      the model logs them. SetHome stands for set_home_position; its coordinates
      come from colliders.csv and are not modelled. */
  datatype Command =
    | SetHome
    | Arm
    | TakeControl
    | TakeoffTo(altitude: int)
    | CmdPosition(target: W.Waypoint)
    | Land
    | Disarm
    | ReleaseControl
    | Stop
    | SendWaypoints(waypoints: seq<W.Waypoint>)

  /** How a handler ended: normally, with an exception, or never (the goal loop). */
  datatype Outcome =
    | Completed
    | PopFromEmptyList       // waypoints.pop(0) on an empty list raised IndexError
    | GridIndexError         // indexing the grid at the goal raised IndexError
    | GoalSearchUnbounded    // the random-goal loop had not stopped after every draw supplied
    | PathPlotIndexError     // plotting an empty search result, np.array([])[:, 1], raised IndexError

  /** The fields the state machine reads and writes. */
  datatype Vehicle = Vehicle(state: State, waypoints: seq<W.Waypoint>, target: W.Waypoint, inMission: bool)

  /** The state after __init__: MANUAL, no waypoints, target at the origin, in mission. */
  const Initial := Vehicle(Manual, [], W.Waypoint(0, 0, 0, W.Zero), true)

  /** One handler call: the new state, the commands sent, how it ended. */
  datatype Step = Step(next: Vehicle, commands: seq<Command>, outcome: Outcome)

  /** Everything plan_path uses besides the drone's own fields. `search` stands
      for a_star (the raw path from a start to a goal cell, empty when there is
      none) and `prune` for prune_path; neither is part of this model. */
  datatype PlanRequest = PlanRequest(
    grid: Grid, northOffset: int, eastOffset: int,
    start: Cell, goal: Option<Cell>, draws: seq<Cell>,
    search: (Cell, Cell) -> seq<Cell>, prune: seq<Cell> -> seq<Cell>)

  function Unchanged(v: Vehicle): Step {
    Step(v, [], Completed)
  }

  // ----- the transitions -----

  function ArmingStep(v: Vehicle): Step {
    Step(v.(state := Arming), [Arm, TakeControl], Completed)
  }

  function TakeoffStep(v: Vehicle): Step {
    Step(v.(state := Takeoff), [TakeoffTo(v.target.altitude)], Completed)
  }

  /** The phase is set before the pop, so an empty queue leaves WAYPOINT set
      and raises. */
  function WaypointStep(v: Vehicle): (s: Step)
    ensures s.next.state == Waypoint && s.next.inMission == v.inMission
    ensures |v.waypoints| > 0 ==>
      s.outcome == Completed && s.next.target == v.waypoints[0] &&
      s.next.waypoints == v.waypoints[1..] && s.commands == [CmdPosition(v.waypoints[0])]
    ensures |v.waypoints| == 0 ==>
      s.outcome == PopFromEmptyList && s.next == v.(state := Waypoint) && s.commands == []
  {
    if |v.waypoints| == 0 then Step(v.(state := Waypoint), [], PopFromEmptyList)
    else Step(v.(state := Waypoint, target := v.waypoints[0], waypoints := v.waypoints[1..]),
              [CmdPosition(v.waypoints[0])], Completed)
  }

  function LandingStep(v: Vehicle): Step {
    Step(v.(state := Landing), [Land], Completed)
  }

  function DisarmingStep(v: Vehicle): Step {
    Step(v.(state := Disarming), [Disarm, ReleaseControl], Completed)
  }

  function ManualStep(v: Vehicle): Step {
    Step(v.(state := Manual, inMission := false), [Stop], Completed)
  }

  /** plan_path: enter PLANNING, raise the target altitude to TARGET_ALTITUDE,
      set the home position, settle on a goal, search and prune, build the waypoints, plot the raw path,
      and only then replace the queue and send it. Plotting an empty raw path
      raises, so a goal the search cannot reach leaves the queue as it was. */
  function PlanStep(v: Vehicle, req: PlanRequest): (s: Step)
    ensures s.next.state == Planning && s.next.inMission == v.inMission
    ensures s.next.target == v.target.(altitude := W.TargetAltitude)
    ensures var choice := SelectGoal(req.grid, req.goal, req.draws);
      (s.outcome == Completed <==> choice.Chosen? && |req.search(req.start, choice.goal)| > 0) &&
      (s.outcome == PathPlotIndexError <==> choice.Chosen? && |req.search(req.start, choice.goal)| == 0) &&
      (s.outcome == GridIndexError <==> choice.GoalIndexError?) &&
      (s.outcome == GoalSearchUnbounded <==> choice.DrawsExhausted?)
    ensures s.outcome == Completed ==>
      var path := req.prune(req.search(req.start, SelectGoal(req.grid, req.goal, req.draws).goal));
      s.next.waypoints == W.WaypointsFor(path, req.northOffset, req.eastOffset) &&
      s.commands == [SetHome, SendWaypoints(s.next.waypoints)]
    ensures s.outcome != Completed ==> s.next.waypoints == v.waypoints && s.commands == [SetHome]
  {
    var planning := v.(state := Planning, target := v.target.(altitude := W.TargetAltitude));
    match SelectGoal(req.grid, req.goal, req.draws)
    case GoalIndexError => Step(planning, [SetHome], GridIndexError)
    case DrawsExhausted => Step(planning, [SetHome], GoalSearchUnbounded)
    case Chosen(goal, _) =>
      var path := req.search(req.start, goal);
      if |path| == 0 then Step(planning, [SetHome], PathPlotIndexError)
      else
        var waypoints := W.WaypointsFor(req.prune(path), req.northOffset, req.eastOffset);
        Step(planning.(waypoints := waypoints), [SetHome, SendWaypoints(waypoints)], Completed)
  }

  // ----- the callbacks -----

  /** The DISARMING guard exactly as written, `~armed & ~guided` on Python ints. */
  function DisarmedGuard(armed: bool, guided: bool): int {
    BitAnd(Invert(BoolToInt(armed)), Invert(BoolToInt(guided)))
  }

  /** local_position_callback. altitudeReached: the altitude is above 95% of the
      target's; nearTarget: within 1 m of the target horizontally; slow: the
      horizontal speed is below 1 m/s. */
  function OnLocalPosition(v: Vehicle, altitudeReached: bool, nearTarget: bool, slow: bool): Step {
    if v.state == Takeoff then
      if altitudeReached then WaypointStep(v) else Unchanged(v)
    else if v.state == Waypoint then
      if nearTarget then
        if |v.waypoints| > 0 then WaypointStep(v)
        else if slow then LandingStep(v)
        else Unchanged(v)
      else Unchanged(v)
    else Unchanged(v)
  }

  /** velocity_callback. nearHomeAltitude: less than 0.1 m above home;
      onGround: the local altitude is within 0.01 m of zero. */
  function OnVelocity(v: Vehicle, nearHomeAltitude: bool, onGround: bool): Step {
    if v.state == Landing && nearHomeAltitude && onGround then DisarmingStep(v) else Unchanged(v)
  }

  /** state_callback, guarded as a whole by in_mission. */
  function OnStateMessage(v: Vehicle, armed: bool, guided: bool, req: PlanRequest): Step {
    if !v.inMission then Unchanged(v)
    else match v.state
      case Manual => ArmingStep(v)
      case Arming => if armed then PlanStep(v, req) else Unchanged(v)
      case Planning => TakeoffStep(v)
      case Disarming => if Truthy(DisarmedGuard(armed, guided)) then ManualStep(v) else Unchanged(v)
      case _ => Unchanged(v)
  }

  /** The drone object. Its fields are those the callbacks read and write; `log`
      records the commands sent to the vehicle. */
  class MotionPlanning {
    var flightState: State
    var waypoints: seq<W.Waypoint>
    var targetPosition: W.Waypoint
    var inMission: bool
    ghost var log: seq<Command>

    function Snapshot(): Vehicle
      reads this
    {
      Vehicle(flightState, waypoints, targetPosition, inMission)
    }

    constructor ()
      ensures Snapshot() == Initial && log == []
    {
      targetPosition := W.Waypoint(0, 0, 0, W.Zero);
      waypoints := [];
      inMission := true;
      flightState := Manual;
      log := [];
    }

    method ArmingTransition()
      modifies this
      ensures Snapshot() == ArmingStep(old(Snapshot())).next
      ensures log == old(log) + ArmingStep(old(Snapshot())).commands
    {
      flightState := Arming;
      log := log + [Arm, TakeControl];
    }

    method TakeoffTransition()
      modifies this
      ensures Snapshot() == TakeoffStep(old(Snapshot())).next
      ensures log == old(log) + TakeoffStep(old(Snapshot())).commands
    {
      flightState := Takeoff;
      log := log + [TakeoffTo(targetPosition.altitude)];
    }

    method WaypointTransition() returns (outcome: Outcome)
      modifies this
      ensures Snapshot() == WaypointStep(old(Snapshot())).next
      ensures log == old(log) + WaypointStep(old(Snapshot())).commands
      ensures outcome == WaypointStep(old(Snapshot())).outcome
    {
      flightState := Waypoint;
      if |waypoints| == 0 {
        return PopFromEmptyList;
      }
      targetPosition := waypoints[0];
      waypoints := waypoints[1..];
      log := log + [CmdPosition(targetPosition)];
      outcome := Completed;
    }

    method LandingTransition()
      modifies this
      ensures Snapshot() == LandingStep(old(Snapshot())).next
      ensures log == old(log) + LandingStep(old(Snapshot())).commands
    {
      flightState := Landing;
      log := log + [Land];
    }

    method DisarmingTransition()
      modifies this
      ensures Snapshot() == DisarmingStep(old(Snapshot())).next
      ensures log == old(log) + DisarmingStep(old(Snapshot())).commands
    {
      flightState := Disarming;
      log := log + [Disarm, ReleaseControl];
    }

    method ManualTransition()
      modifies this
      ensures Snapshot() == ManualStep(old(Snapshot())).next
      ensures log == old(log) + ManualStep(old(Snapshot())).commands
    {
      flightState := Manual;
      log := log + [Stop];
      inMission := false;
    }

    method PlanPath(req: PlanRequest) returns (outcome: Outcome)
      modifies this
      ensures Snapshot() == PlanStep(old(Snapshot()), req).next
      ensures log == old(log) + PlanStep(old(Snapshot()), req).commands
      ensures outcome == PlanStep(old(Snapshot()), req).outcome
    {
      flightState := Planning;
      targetPosition := targetPosition.(altitude := W.TargetAltitude);
      log := log + [SetHome];
      var choice: GoalChoice;
      if req.goal.Some? {
        choice := ExplicitGoal(req.grid, req.goal.value);
      } else {
        choice := SampleFreeGoal(req.grid, req.draws);
      }
      if choice.GoalIndexError? {
        return GridIndexError;
      }
      if choice.DrawsExhausted? {
        return GoalSearchUnbounded;
      }
      var path := req.search(req.start, choice.goal);
      var newPath := req.prune(path);
      var planned := W.BuildWaypoints(newPath, req.northOffset, req.eastOffset);
      if |path| == 0 {
        return PathPlotIndexError;
      }
      waypoints := planned;
      log := log + [SendWaypoints(waypoints)];
      outcome := Completed;
    }

    method LocalPositionCallback(altitudeReached: bool, nearTarget: bool, slow: bool) returns (outcome: Outcome)
      modifies this
      ensures Snapshot() == OnLocalPosition(old(Snapshot()), altitudeReached, nearTarget, slow).next
      ensures log == old(log) + OnLocalPosition(old(Snapshot()), altitudeReached, nearTarget, slow).commands
      ensures outcome == OnLocalPosition(old(Snapshot()), altitudeReached, nearTarget, slow).outcome
    {
      outcome := Completed;
      if flightState == Takeoff {
        if altitudeReached {
          outcome := WaypointTransition();
        }
      } else if flightState == Waypoint {
        if nearTarget {
          if |waypoints| > 0 {
            outcome := WaypointTransition();
          } else if slow {
            LandingTransition();
          }
        }
      }
    }

    method VelocityCallback(nearHomeAltitude: bool, onGround: bool)
      modifies this
      ensures Snapshot() == OnVelocity(old(Snapshot()), nearHomeAltitude, onGround).next
      ensures log == old(log) + OnVelocity(old(Snapshot()), nearHomeAltitude, onGround).commands
    {
      if flightState == Landing {
        if nearHomeAltitude {
          if onGround {
            DisarmingTransition();
          }
        }
      }
    }

    method StateCallback(armed: bool, guided: bool, req: PlanRequest) returns (outcome: Outcome)
      modifies this
      ensures Snapshot() == OnStateMessage(old(Snapshot()), armed, guided, req).next
      ensures log == old(log) + OnStateMessage(old(Snapshot()), armed, guided, req).commands
      ensures outcome == OnStateMessage(old(Snapshot()), armed, guided, req).outcome
    {
      outcome := Completed;
      if inMission {
        if flightState == Manual {
          ArmingTransition();
        } else if flightState == Arming {
          if armed {
            outcome := PlanPath(req);
          }
        } else if flightState == Planning {
          TakeoffTransition();
        } else if flightState == Disarming {
          if Truthy(DisarmedGuard(armed, guided)) {
            ManualTransition();
          }
        }
      }
    }
  }
}
