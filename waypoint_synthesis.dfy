// Waypoint synthesis in plan_path: the pruned path of grid cells becomes a list
// of [north, east, altitude, heading] commands in the local world frame.
module WaypointSynthesis {
  import opened Occupancy

  /** TARGET_ALTITUDE, the fixed cruise altitude of every waypoint. */
  const TargetAltitude: int := 5

  /** A heading as the planner produces it: 0 for the first waypoint, otherwise
      np.arctan2(dEast, dNorth). The arctangent is floating point and is not
      evaluated here: a heading is the symbolic term, with its two arguments in
      the order the source passes them (east difference first). */
  datatype Heading = Zero | Bearing(dEast: int, dNorth: int)

  /** One waypoint, the list [north, east, altitude, heading]. */
  datatype Waypoint = Waypoint(north: int, east: int, altitude: int, heading: Heading)

  /** The heading of the i-th waypoint, read off the path itself: the offsets
      cancel in the difference of two world positions. */
  function HeadingAt(path: seq<Cell>, i: nat): Heading
    requires i < |path|
  {
    if i == 0 then Zero
    else Bearing(path[i].east - path[i - 1].east, path[i].north - path[i - 1].north)
  }

  /** Reference definition of the output: one waypoint per cell, in path order,
      at the cell's world position and the cruise altitude. */
  function WaypointsFor(path: seq<Cell>, northOffset: int, eastOffset: int): (r: seq<Waypoint>)
    ensures |r| == |path|
  {
    seq(|path|, i requires 0 <= i < |path| =>
      Waypoint(path[i].north + northOffset, path[i].east + eastOffset, TargetAltitude, HeadingAt(path, i)))
  }

  /** The loop of plan_path: each heading is measured from the waypoint emitted
      just before (read back from the end of the list being built). */
  method BuildWaypoints(path: seq<Cell>, northOffset: int, eastOffset: int) returns (waypoints: seq<Waypoint>)
    ensures waypoints == WaypointsFor(path, northOffset, eastOffset)
    ensures |waypoints| == |path|
    ensures forall i :: 0 <= i < |path| ==>
      waypoints[i].north == path[i].north + northOffset &&
      waypoints[i].east == path[i].east + eastOffset &&
      waypoints[i].altitude == TargetAltitude
    ensures |waypoints| > 0 ==> waypoints[0].heading == Zero
    ensures forall i :: 0 < i < |waypoints| ==>
      waypoints[i].heading == Bearing(waypoints[i].east - waypoints[i - 1].east, waypoints[i].north - waypoints[i - 1].north)
  {
    waypoints := [];
    for k := 0 to |path|
      invariant |waypoints| == k
      invariant forall i :: 0 <= i < k ==> waypoints[i] == WaypointsFor(path, northOffset, eastOffset)[i]
    {
      var p := path[k];
      var waypointNorth := p.north + northOffset;
      var waypointEast := p.east + eastOffset;
      var heading: Heading;
      if |waypoints| > 0 {
        var last := waypoints[|waypoints| - 1];
        heading := Bearing(waypointEast - last.east, waypointNorth - last.north);
      } else {
        heading := Zero;
      }
      assert heading == HeadingAt(path, k);
      waypoints := waypoints + [Waypoint(waypointNorth, waypointEast, TargetAltitude, heading)];
    }
  }

  /** Headings do not depend on the grid offsets: only positions move. */
  lemma HeadingsIgnoreOffsets(path: seq<Cell>, n1: int, e1: int, n2: int, e2: int, i: nat)
    requires i < |path|
    ensures WaypointsFor(path, n1, e1)[i].heading == WaypointsFor(path, n2, e2)[i].heading
    ensures WaypointsFor(path, n2, e2)[i].north == WaypointsFor(path, n1, e1)[i].north + (n2 - n1)
    ensures WaypointsFor(path, n2, e2)[i].east == WaypointsFor(path, n1, e1)[i].east + (e2 - e1)
  {
  }

  /** A straight run, every step the same (dNorth, dEast), keeps one heading
      after the first waypoint. */
  lemma StraightRunKeepsHeading(path: seq<Cell>, dNorth: int, dEast: int, northOffset: int, eastOffset: int)
    requires forall i :: 0 < i < |path| ==>
      path[i].north - path[i - 1].north == dNorth && path[i].east - path[i - 1].east == dEast
    ensures forall i :: 0 < i < |path| ==>
      WaypointsFor(path, northOffset, eastOffset)[i].heading == Bearing(dEast, dNorth)
  {
  }

  /** Synthesis is online: a prefix of the path yields the same prefix of waypoints. */
  lemma PrefixStable(path: seq<Cell>, k: nat, northOffset: int, eastOffset: int)
    requires k <= |path|
    ensures WaypointsFor(path[..k], northOffset, eastOffset) == WaypointsFor(path, northOffset, eastOffset)[..k]
  {
  }

  /** The cell path can be read back from the waypoints by subtracting the offsets. */
  function CellsOf(waypoints: seq<Waypoint>, northOffset: int, eastOffset: int): (r: seq<Cell>)
    ensures |r| == |waypoints|
  {
    seq(|waypoints|, i requires 0 <= i < |waypoints| =>
      Cell(waypoints[i].north - northOffset, waypoints[i].east - eastOffset))
  }

  lemma CellsRoundTrip(path: seq<Cell>, northOffset: int, eastOffset: int)
    ensures CellsOf(WaypointsFor(path, northOffset, eastOffset), northOffset, eastOffset) == path
  {
  }
}
