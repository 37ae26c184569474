// How plan_path settles on the grid goal: an explicit goal is checked against
// the grid and used as given; without one, random cells are drawn until one is
// not an obstacle. The random draws are a parameter: `draws` is the stream of
// cells that `random.uniform` would produce, in order.
module GoalSelection {
  import opened Wrappers
  import opened Occupancy

  datatype GoalChoice =
    | Chosen(goal: Cell, obstructed: bool)  // goal handed to the search; obstructed: the warning was printed
    | GoalIndexError                        // indexing the grid at the goal raised IndexError
    | DrawsExhausted                        // every draw supplied hit an obstacle: the loop would still be running

  /** An explicitly supplied goal: looked up in the grid and flagged when it is
      an obstacle, but never replaced. */
  function ExplicitGoal(grid: Grid, goal: Cell): (r: GoalChoice)
    ensures r.Chosen? || r.GoalIndexError?
    ensures r.Chosen? <==> CellAt(grid, goal).Some?
    ensures r.Chosen? ==> r.goal == goal && (r.obstructed <==> Obstructed(CellAt(grid, goal).value))
  {
    match CellAt(grid, goal)
    case None => GoalIndexError
    case Some(v) => Chosen(goal, Obstructed(v))
  }

  /** Reference for the sampling loop: the first draw that is not an obstacle. */
  function FirstFreeDraw(grid: Grid, draws: seq<Cell>): GoalChoice
  {
    if |draws| == 0 then DrawsExhausted
    else match CellAt(grid, draws[0])
      case None => GoalIndexError
      case Some(v) => if Obstructed(v) then FirstFreeDraw(grid, draws[1..]) else Chosen(draws[0], false)
  }

  /** The whole policy: the explicit goal if there is one, used as given even
      when it is an obstacle; otherwise the first draw that is not an obstacle. */
  function SelectGoal(grid: Grid, explicit: Option<Cell>, draws: seq<Cell>): (r: GoalChoice)
    ensures explicit.Some? ==> !r.DrawsExhausted?
    ensures explicit.Some? ==> (r.Chosen? <==> CellAt(grid, explicit.value).Some?)
    ensures explicit.Some? && r.Chosen? ==>
      r.goal == explicit.value && (r.obstructed <==> Obstructed(CellAt(grid, r.goal).value))
    ensures explicit.None? && r.Chosen? ==>
      !r.obstructed && CellAt(grid, r.goal).Some? && !Obstructed(CellAt(grid, r.goal).value) &&
      exists k :: 0 <= k < |draws| && draws[k] == r.goal && forall j :: 0 <= j < k ==> Occupied(grid, draws[j])
    ensures explicit.None? && r.GoalIndexError? ==>
      exists k :: 0 <= k < |draws| && CellAt(grid, draws[k]).None? && forall j :: 0 <= j < k ==> Occupied(grid, draws[j])
    ensures explicit.None? ==> (r.DrawsExhausted? <==> forall j :: 0 <= j < |draws| ==> Occupied(grid, draws[j]))
  {
    match explicit
    case Some(g) => ExplicitGoal(grid, g)
    case None =>
      ExhaustedIffAllOccupied(grid, draws);
      var r := FirstFreeDraw(grid, draws);
      if r.Chosen? then FirstFreeDrawIsFree(grid, draws); r
      else if r.GoalIndexError? then IndexErrorAfterOccupied(grid, draws); r
      else r
  }

  /** A draw that both lies in the grid and is an obstacle: the loop goes on past it. */
  predicate Occupied(grid: Grid, c: Cell) {
    CellAt(grid, c).Some? && Obstructed(CellAt(grid, c).value)
  }

  /** The sampling loop ends only on a draw that is not an obstacle, and that
      draw is the first such one: every earlier draw was an occupied cell. */
  lemma {:induction false} FirstFreeDrawIsFree(grid: Grid, draws: seq<Cell>)
    requires FirstFreeDraw(grid, draws).Chosen?
    ensures var g := FirstFreeDraw(grid, draws).goal;
      !FirstFreeDraw(grid, draws).obstructed &&
      CellAt(grid, g).Some? && !Obstructed(CellAt(grid, g).value) &&
      exists k :: 0 <= k < |draws| && draws[k] == g && forall j :: 0 <= j < k ==> Occupied(grid, draws[j])
  {
    var v := CellAt(grid, draws[0]).value;
    if Obstructed(v) {
      FirstFreeDrawIsFree(grid, draws[1..]);
      var g := FirstFreeDraw(grid, draws).goal;
      var k :| 0 <= k < |draws[1..]| && draws[1..][k] == g && forall j :: 0 <= j < k ==> Occupied(grid, draws[1..][j]);
      assert draws[k + 1] == g;
      assert forall j :: 0 <= j < k + 1 ==> Occupied(grid, draws[j]) by {
        forall j | 0 <= j < k + 1 ensures Occupied(grid, draws[j]) {
          if j > 0 { assert draws[j] == draws[1..][j - 1]; }
        }
      }
    } else {
      assert draws[0] == FirstFreeDraw(grid, draws).goal;
    }
  }

  /** The sampling loop raises only on a draw outside the grid, and every
      earlier draw was an occupied cell. */
  lemma {:induction false} IndexErrorAfterOccupied(grid: Grid, draws: seq<Cell>)
    requires FirstFreeDraw(grid, draws).GoalIndexError?
    ensures exists k :: 0 <= k < |draws| && CellAt(grid, draws[k]).None? && forall j :: 0 <= j < k ==> Occupied(grid, draws[j])
  {
    if CellAt(grid, draws[0]).Some? {
      IndexErrorAfterOccupied(grid, draws[1..]);
      var k :| 0 <= k < |draws[1..]| && CellAt(grid, draws[1..][k]).None? &&
        forall j :: 0 <= j < k ==> Occupied(grid, draws[1..][j]);
      assert CellAt(grid, draws[k + 1]).None?;
      assert forall j :: 0 <= j < k + 1 ==> Occupied(grid, draws[j]) by {
        forall j | 0 <= j < k + 1 ensures Occupied(grid, draws[j]) {
          if j > 0 { assert draws[j] == draws[1..][j - 1]; }
        }
      }
    } else {
      assert CellAt(grid, draws[0]).None?;
    }
  }

  /** The loop runs out of draws exactly when every draw is an occupied cell:
      on a grid without a free cell it never ends. */
  lemma {:induction false} ExhaustedIffAllOccupied(grid: Grid, draws: seq<Cell>)
    ensures FirstFreeDraw(grid, draws).DrawsExhausted? <==> forall j :: 0 <= j < |draws| ==> Occupied(grid, draws[j])
  {
    if |draws| > 0 {
      ExhaustedIffAllOccupied(grid, draws[1..]);
      assert forall j :: 1 <= j < |draws| ==> draws[j] == draws[1..][j - 1];
    }
  }

  /** The loop of plan_path: draw, and draw again while the cell is an obstacle. */
  method SampleFreeGoal(grid: Grid, draws: seq<Cell>) returns (r: GoalChoice)
    ensures r == FirstFreeDraw(grid, draws)
    ensures r.Chosen? ==> r.goal in draws && CellAt(grid, r.goal).Some? && !Obstructed(CellAt(grid, r.goal).value)
  {
    if |draws| == 0 {
      return DrawsExhausted;
    }
    var i := 0;
    var goal := draws[0];
    while true
      invariant 0 <= i < |draws| && goal == draws[i]
      invariant FirstFreeDraw(grid, draws) == FirstFreeDraw(grid, draws[i..])
      decreases |draws| - i
    {
      var v := CellAt(grid, goal);
      if v.None? {
        return GoalIndexError;
      }
      if !Obstructed(v.value) {
        break;
      }
      if i + 1 == |draws| {
        assert draws[i..][1..] == [];
        return DrawsExhausted;
      }
      assert draws[i..][1..] == draws[i + 1..];
      i := i + 1;
      goal := draws[i];
    }
    r := Chosen(goal, false);
  }
}
