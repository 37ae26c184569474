# Motion planning drone: flight-phase state machine and waypoint synthesis

This project models the core of `motion_planning.py`, the `MotionPlanning` drone of an
autonomous-flight planner. It covers three parts.

- **The flight-phase state machine.** There are seven phases: MANUAL, ARMING, PLANNING,
  TAKEOFF, WAYPOINT, LANDING and DISARMING. Three telemetry callbacks drive it:
  local position, velocity and state. Each callback checks the current phase and a guard,
  then runs one `*_transition`. A transition sets the new phase and sends the vehicle its
  commands: arm, take control, take off, `cmd_position`, land, disarm, release control, stop.
  `waypoint_transition` also takes the head of the waypoint queue as the new target.
  - `FlightControl` states the transition table as pure functions
    (state × event → new state × commands × outcome).
  - The class `FlightControl.MotionPlanning` has the source's fields and methods. Each
    method is proved to change its fields, and append to its ghost command log, exactly
    as the table says.
  - `MissionProperties` proves what the machine guarantees over any sequence of events:
    - the phase order is never reversed;
    - the queue is commanded in order;
    - the drone lands only after commanding every planned waypoint;
    - after `manual_transition` nothing changes any more.
- **Waypoint synthesis** (`WaypointSynthesis`). This is the loop in `plan_path` that turns
  the pruned cell path into `[north, east, altitude, heading]` waypoints. It adds the
  grid offsets and fixes the altitude at `TARGET_ALTITUDE` = 5. The heading is 0 for the
  first waypoint. Every later heading is `arctan2(Δeast, Δnorth)`, measured from the
  waypoint emitted just before.
- **Goal selection** (`GoalSelection`). An explicit goal is looked up in the grid and
  flagged when it is an obstacle, but it is used as given. Without one, random cells are
  drawn until one is not an obstacle (the grid value is not 1).

Three behaviours of the code are modelled as written:

- **The DISARMING guard is always true.** The guard is `~self.armed & ~self.guided`.
  On Python bools, `~` gives -1 or -2. Their `&` is -2 or -1, never 0, so it is always
  truthy. DISARMING therefore moves to MANUAL on the first state message, whatever
  `armed` and `guided` say (`MissionProperties.DisarmedGuardIgnoresFlags`).
- **An unreachable goal makes `plan_path` raise.** The search returns an empty path when
  it finds none. `plan_path` plots the raw path before it stores the queue, and
  `np.array([])[:, 1]` raises `IndexError`. The phase is then PLANNING, the target
  altitude is 5, the home position has been set, the queue is unchanged and no waypoints are sent (outcome `PathPlotIndexError`
  of `FlightControl.PlanStep`). An occupied explicit goal is only flagged, so it takes
  this path whenever the search finds no path to it.
- **`waypoint_transition` has no emptiness check.** It sets the phase to WAYPOINT before it
  calls `pop(0)`. The TAKEOFF branch of the position callback calls it without checking
  the queue. An empty queue at PLANNING can come from a `plan_path` that raised, if
  the message dispatcher carries on, or from a pruning step that returns nothing. Reaching
  altitude then leaves the phase at WAYPOINT and raises `IndexError`. The model gives that
  as the outcome `PopFromEmptyList`, not as a precondition
  (`MissionProperties.EmptyPlanFailsAfterTakeoff`,
  `MissionProperties.UnreachableGoalFailsAfterTakeoff`).

Abstractions:

- **Float guards are booleans.** The guards compare floating-point telemetry. They are
  boolean parameters of the callbacks:
  - `altitudeReached`: the altitude is above 95% of the target altitude;
  - `nearTarget`: within 1 m of the target horizontally;
  - `slow`: the horizontal speed is below 1 m/s;
  - `nearHomeAltitude`: less than 0.1 m above home;
  - `onGround`: the local altitude is within 0.01 m of 0;
  - `armed` and `guided`: the vehicle's flags.
- **Headings are symbolic.** The arctangent is not evaluated. A heading is the term
  `Bearing(dEast, dNorth)`, with the arguments in the source's order, or `Zero`.
- **Random draws are a parameter.** `random.uniform` is replaced by `draws`, the sequence
  of cells the generator would produce.
- **The path search is a parameter.** `a_star` is the parameter `search`, a function from
  the start and goal cells to the raw path, empty when there is none. `prune_path` is the
  parameter `prune`.
- **Grid indexing follows numpy.** A negative index counts from the end. An index outside
  `-n <= i < n` raises `IndexError`.

## Model

| member | source | states |
|---|---|---|
| FlightControl.MotionPlanning.constructor | motion_planning.py:31-42 | starts in MANUAL, in mission, with an empty queue and the target at the origin |
| FlightControl.MotionPlanning.ArmingTransition | motion_planning.py:80-84 | phase becomes ARMING; arm and take control are sent; nothing else changes |
| FlightControl.MotionPlanning.TakeoffTransition | motion_planning.py:86-89 | phase becomes TAKEOFF; takeoff to the target's altitude is sent |
| FlightControl.MotionPlanning.WaypointTransition | motion_planning.py:91-96 | phase becomes WAYPOINT; the former head of the queue becomes the target and is commanded, and the rest of the queue stays in order; on an empty queue the phase is still set and the pop raises |
| FlightControl.WaypointStep | motion_planning.py:91-96 | the queue shrinks by exactly its head, which becomes the target and the one position command; an empty queue gives PopFromEmptyList with only the phase changed |
| FlightControl.MotionPlanning.LandingTransition | motion_planning.py:98-101 | phase becomes LANDING; land is sent |
| FlightControl.MotionPlanning.DisarmingTransition | motion_planning.py:103-107 | phase becomes DISARMING; disarm and release control are sent |
| FlightControl.MotionPlanning.ManualTransition | motion_planning.py:109-113 | phase becomes MANUAL and the mission ends; stop is sent |
| FlightControl.MotionPlanning.PlanPath | motion_planning.py:120-217 | phase becomes PLANNING and the target altitude becomes 5; the home position is set on every outcome; the goal is chosen, searched for and pruned; the queue is replaced by the synthesised waypoints, which are sent; a goal lookup that raises, draws that never find a free cell, or an empty raw path (the plot raises) leave the queue as it was and send no waypoints |
| FlightControl.PlanStep | motion_planning.py:120-217 | plan_path completes exactly when a goal is chosen and the raw path is non-empty; an empty raw path raises in the plot, a bad goal index raises, and exhausted draws never return; the home position is set first on every outcome; on completion the queue is the waypoints of the pruned path and they are sent, and otherwise the queue is unchanged and nothing else is sent |
| FlightControl.MotionPlanning.LocalPositionCallback | motion_planning.py:49-59 | acts exactly as the position row of the transition table |
| FlightControl.MotionPlanning.VelocityCallback | motion_planning.py:61-65 | acts exactly as the velocity row of the transition table |
| FlightControl.MotionPlanning.StateCallback | motion_planning.py:67-78 | acts exactly as the state-message row of the transition table, with the DISARMING guard on Python ints |
| MissionProperties.StateMessageMoves | motion_planning.py:67-78 | in mission: MANUAL to ARMING; ARMING to PLANNING exactly when armed; PLANNING to TAKEOFF; DISARMING to MANUAL out of mission whatever armed and guided are; no change in other phases |
| MissionProperties.OutOfMissionStateMessageIgnored | motion_planning.py:68 | out of mission, a state message changes nothing |
| MissionProperties.LocalPositionMoves | motion_planning.py:49-59 | TAKEOFF at altitude runs waypoint_transition; in WAYPOINT near the target, a non-empty queue advances, an empty queue at low speed lands, otherwise nothing changes |
| MissionProperties.VelocityMoves | motion_planning.py:61-65 | LANDING goes to DISARMING exactly when both ground guards hold |
| MissionProperties.OtherPhasesIgnoreMotion | motion_planning.py:49-65 | position events outside TAKEOFF/WAYPOINT and velocity events outside LANDING change no field and send nothing |
| MissionProperties.TakeoffClimbsToTargetAltitude | motion_planning.py:126 | after plan_path, takeoff is commanded to TARGET_ALTITUDE |
| MissionProperties.EmptyPlanFailsAfterTakeoff | motion_planning.py:50-52 | an empty queue at PLANNING reaches TAKEOFF, and reaching altitude then raises in pop(0) with the phase at WAYPOINT |
| MissionProperties.UnreachableGoalFailsAfterTakeoff | motion_planning.py:179-215 | with a goal the search cannot reach and a dispatcher that carries on, the mission arms, plan_path raises in the plot, the drone takes off, and reaching altitude raises in pop(0); the vehicle receives only arm, take control, the home position and takeoff |
| MissionProperties.DisarmedGuardIgnoresFlags | motion_planning.py:76-78 | the guard `~armed & ~guided` on Python ints is -2 when armed or guided is true and -1 otherwise, so it is truthy for all flags, even where `not armed and not guided` is false |
| MissionProperties.HandleKeepsPhaseOrder | motion_planning.py:49-113 | no callback moves the drone back in the phase order |
| MissionProperties.RunKeepsPhaseOrder | motion_planning.py:49-113 | no run of events moves the drone back in the phase order |
| MissionProperties.HandleConsumesQueue | motion_planning.py:91-96 | from PLANNING on, a callback only removes the head of the queue, and that head is what it commands |
| MissionProperties.QueueConsumedInOrder | motion_planning.py:49-96 | from PLANNING on, the targets commanded in a run, followed by the queue left, are the queue at the start |
| MissionProperties.MissionEndIsFinal | motion_planning.py:109-113 | after manual_transition, no sequence of events changes any field or sends any command |
| MissionProperties.HandleKeepsConsistent | motion_planning.py:49-113 | a callback keeps the reachable-state invariant: out of mission means MANUAL, and the queue is empty before planning and from LANDING on |
| MissionProperties.RunKeepsConsistent | motion_planning.py:49-113 | a run of events keeps that invariant |
| MissionProperties.ReachableIsConsistent | motion_planning.py:31-113 | every state reachable from `__init__` satisfies the invariant |
| MissionProperties.RunThroughKeepsConsistent | motion_planning.py:49-113 | the invariant also holds over runs that carry on after a callback raises |
| MissionProperties.RunThroughKeepsPhaseOrder | motion_planning.py:49-113 | runs that carry on after a callback raises never move back in the phase order |
| MissionProperties.ReachableThroughExceptionsIsConsistent | motion_planning.py:31-113 | every state reachable from `__init__` satisfies the invariant, also when exceptions do not stop the drone |
| MissionProperties.LandsOnlyAfterFullRoute | motion_planning.py:53-59 | from PLANNING, the drone reaches LANDING, DISARMING or the end of the mission only after commanding the whole queue, in order |
| MissionProperties.PlannedRouteIsFlown | motion_planning.py:188-215 | once plan_path has completed, landing implies that the commanded targets are exactly the waypoints synthesised from the pruned path |
| WaypointSynthesis.BuildWaypoints | motion_planning.py:188-197 | one waypoint per cell, same order; north/east are the cell plus the offsets; altitude is 5; the first heading is 0; each later heading is the bearing from the previously emitted waypoint |
| WaypointSynthesis.HeadingsIgnoreOffsets | motion_planning.py:190-194 | the offsets shift positions and never change a heading |
| WaypointSynthesis.StraightRunKeepsHeading | motion_planning.py:192-194 | a run of equal steps keeps one heading after the first waypoint |
| WaypointSynthesis.PrefixStable | motion_planning.py:188-197 | a prefix of the path yields the same prefix of the waypoints |
| WaypointSynthesis.CellsRoundTrip | motion_planning.py:190-191 | subtracting the offsets from the waypoints gives back the path |
| GoalSelection.ExplicitGoal | motion_planning.py:160-166 | an explicit goal in the grid is used as given and only flagged when it is an obstacle; one outside numpy's index range raises |
| GoalSelection.SelectGoal | motion_planning.py:159-173 | an explicit goal is used as given, flagged when it is an obstacle, and raises exactly when outside numpy's range; without one, a chosen goal is the first draw that is in the grid and not an obstacle, an IndexError comes from a draw outside the grid after only occupied draws, and the draws run out exactly when every draw is occupied |
| GoalSelection.SampleFreeGoal | motion_planning.py:169-173 | the loop returns the first draw that is not an obstacle, the error for a draw outside the grid, or exhaustion |
| GoalSelection.FirstFreeDrawIsFree | motion_planning.py:169-173 | when the loop exits with a goal, that goal is a grid cell that is not an obstacle, and every earlier draw was an obstacle |
| GoalSelection.ExhaustedIffAllOccupied | motion_planning.py:172-173 | the loop is still running after all the draws exactly when every draw was an obstacle |
| GoalSelection.IndexErrorAfterOccupied | motion_planning.py:170-172 | the sampling loop raises IndexError only on a draw outside the grid, and every draw before it was an in-grid obstacle |
| Occupancy.AxisIndex | motion_planning.py:172 | numpy accepts an index exactly when -n <= i < n, and a negative index counts from the end |
| Occupancy.CellAt | motion_planning.py:165 | a grid lookup succeeds exactly when both indices are in numpy's range, and reads the entry at each index, counted from the end for a negative one |
| PythonInt.BitAnd | motion_planning.py:77 | Python `&` on ints: the result is negative exactly when both operands are, and lies between 0 and each non-negative operand |
| PythonInt.Invert | motion_planning.py:77 | Python `~x` is negative exactly when x is not |

## Left out

- `planning_utils` (`create_grid`, `a_star`, `heuristic`, `prune_path`) is not part of this model. The grid is an input. The search and the pruning are the function parameters `search` and `prune`, so nothing is claimed about path optimality, obstacle avoidance or pruning.
- The vehicle calls (`arm`, `take_control`, `set_home_position`, `takeoff`, `cmd_position`, `land`, `disarm`, `release_control`, `stop`) are foreign I/O. They are recorded as entries in a command log, and nothing is sent.
- `send_waypoints` serialises with msgpack and writes to a socket. It is recorded as the log entry `SendWaypoints`; the serialisation and the write are not modelled.
- Reading `colliders.csv` and `global_to_local` are file I/O and geodetic conversions. The log entry `SetHome` (motion_planning.py:140) does not carry the `lon0`, `lat0` read from the file. The start cell and the explicit goal cell are inputs; the `np.ceil` conversion to cells is not modelled.
- The explicit goal is taken as the drone's own goal. The source (motion_planning.py:161-166) reads the module-level globals `global_goal` and `goal`, not `self.global_goal`. These agree only when the file runs as `__main__`; imported elsewhere, those lines would read other values or raise `NameError`.
- Telemetry guards are booleans. The 0.95 × altitude test, the two `np.linalg.norm(...) < 1.0` tests and the `< 0.1` and `< 0.01` tests are floating-point comparisons on data the model does not hold.
- WaypointSynthesis.BuildWaypoints: the heading is the symbolic term `Bearing(dEast, dNorth)`, not the value of `arctan2`. Floating-point atan2 is not modelled, so `Bearing(0, 0)` is not identified with the heading 0. Two bearings of the same direction with different lengths are not identified either.
- GoalSelection.SampleFreeGoal: the loop has no iteration bound. The model reads a finite sequence of draws and reports `DrawsExhausted` where the source would still be looping, for example on a fully occupied grid.
- Random sampling with `random.uniform` is replaced by the caller-supplied draws.
- Grid entries are integers. Whatever element type `create_grid` returns, only the comparison `== 1` is read.
- Before the first waypoint, `target_position` is the 3-element array `[0, 0, 0]`. The model gives it the heading 0, which nothing reads.
- What the message dispatcher does with an exception escaping a callback is not part of this model. `MissionProperties.Run` stops at the first exception; `MissionProperties.RunThrough` carries on with the next event. Both stop at a callback that never returns.
- `print` output is not modelled. This includes the warning for an obstructed explicit goal, which appears only as the `obstructed` flag.
- matplotlib plotting, `start` / `start_log` / `stop_log`, and the argparse parsing of `--goal` in `__main__` are UI and CLI plumbing. The unused field `check_state` is left out too.
