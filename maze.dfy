/** The effect of `generate_maze` on the grid, as a function of the random picks it draws. */
module Maze {
  import opened Wrappers
  import opened Cells
  import opened Geometry

  /** Every pick is a `(randrange(size), randrange(size))` pair. */
  ghost predicate PicksInGrid(size: nat, picks: seq<(nat, nat)>) {
    forall i :: 0 <= i < |picks| ==> picks[i].0 < size && picks[i].1 < size
  }

  function Index(size: nat, pick: (nat, nat)): nat {
    pick.0 * size + pick.1
  }

  /** Some pick lands on vertex `v`. */
  ghost predicate Picked(size: nat, picks: seq<(nat, nat)>, v: nat) {
    exists i :: 0 <= i < |picks| && Index(size, picks[i]) == v
  }

  /**
   * One iteration: the picked vertex becomes a wall unless it is the start or the
   * destination. An endpoint that is not set (`None`) equals no vertex, so it spares none.
   */
  function MarkPick(g: seq<State>, size: nat, start: Option<nat>, destination: Option<nat>, pick: (nat, nat)): (r: seq<State>)
    requires |g| == size * size && pick.0 < size && pick.1 < size
    ensures |r| == |g|
    ensures forall v :: 0 <= v < |g| ==>
      r[v] == if v == Index(size, pick) && Some(v) != start && Some(v) != destination then Wall else g[v]
  {
    IndexInGrid(size, pick.0, pick.1);
    var v := Index(size, pick);
    if Some(v) != start && Some(v) != destination then g[v := Wall] else g
  }

  /** The cell `MarkPick` may turn into a wall, at `row * size + col`. */
  lemma MarkPickAt(g: seq<State>, size: nat, start: Option<nat>, destination: Option<nat>, pick: (nat, nat), v: nat)
    requires |g| == size * size && pick.0 < size && pick.1 < size && v == Index(size, pick)
    ensures v < |g|
    ensures MarkPick(g, size, start, destination, pick) == if Some(v) != start && Some(v) != destination then g[v := Wall] else g
  {
    IndexInGrid(size, pick.0, pick.1);
  }

  /** The grid after the picks, taken in order; a wall stays a wall. */
  function Maze(g: seq<State>, size: nat, start: Option<nat>, destination: Option<nat>, picks: seq<(nat, nat)>): (r: seq<State>)
    requires |g| == size * size && PicksInGrid(size, picks)
    ensures |r| == |g|
    ensures forall v :: 0 <= v < |g| && g[v] == Wall ==> r[v] == Wall
  {
    if picks == [] then g
    else
      var before := picks[..|picks| - 1];
      MarkPick(Maze(g, size, start, destination, before), size, start, destination, picks[|picks| - 1])
  }

  /** Taking one more pick applies `MarkPick` once more. */
  lemma MazeSnoc(g: seq<State>, size: nat, start: Option<nat>, destination: Option<nat>, picks: seq<(nat, nat)>, i: nat)
    requires |g| == size * size && PicksInGrid(size, picks) && i < |picks|
    ensures PicksInGrid(size, picks[..i]) && PicksInGrid(size, picks[..i + 1])
    ensures Maze(g, size, start, destination, picks[..i + 1])
         == MarkPick(Maze(g, size, start, destination, picks[..i]), size, start, destination, picks[i])
  {
    assert picks[..i + 1][..i] == picks[..i];
  }

  /**
   * A vertex ends up a wall exactly when some pick lands on it and it is neither the start
   * nor the destination; every other vertex keeps its state.
   */
  lemma {:induction false} MazeCells(g: seq<State>, size: nat, start: Option<nat>, destination: Option<nat>, picks: seq<(nat, nat)>, v: nat)
    requires |g| == size * size && PicksInGrid(size, picks) && v < |g|
    ensures |Maze(g, size, start, destination, picks)| == |g|
    ensures Maze(g, size, start, destination, picks)[v] ==
      if Some(v) != start && Some(v) != destination && Picked(size, picks, v) then Wall else g[v]
  {
    if picks != [] {
      var before := picks[..|picks| - 1];
      var last := picks[|picks| - 1];
      MazeCells(g, size, start, destination, before, v);
      if Picked(size, picks, v) && Index(size, last) != v {
        var i :| 0 <= i < |picks| && Index(size, picks[i]) == v;
        assert before[i] == picks[i];
      }
      if Picked(size, before, v) {
        var i :| 0 <= i < |before| && Index(size, before[i]) == v;
        assert picks[i] == before[i];
      }
      if Index(size, last) == v {
        assert Index(size, picks[|picks| - 1]) == v;
      }
    }
  }

  /** Neither the start nor the destination, when set, changes state. */
  lemma MazeSparesEndpoints(g: seq<State>, size: nat, start: Option<nat>, destination: Option<nat>, picks: seq<(nat, nat)>)
    requires |g| == size * size && PicksInGrid(size, picks)
    ensures start.Some? && start.value < |g| ==> Maze(g, size, start, destination, picks)[start.value] == g[start.value]
    ensures destination.Some? && destination.value < |g| ==>
      Maze(g, size, start, destination, picks)[destination.value] == g[destination.value]
  {
    if start.Some? && start.value < |g| {
      MazeCells(g, size, start, destination, picks, start.value);
    }
    if destination.Some? && destination.value < |g| {
      MazeCells(g, size, start, destination, picks, destination.value);
    }
  }

  /** With neither endpoint set, every picked vertex becomes a wall. */
  lemma MazeWithoutEndpoints(g: seq<State>, size: nat, picks: seq<(nat, nat)>, v: nat)
    requires |g| == size * size && PicksInGrid(size, picks) && v < |g| && Picked(size, picks, v)
    ensures Maze(g, size, None, None, picks)[v] == Wall
  {
    MazeCells(g, size, None, None, picks, v);
  }

  /** No wall is cleared, and no vertex that no pick lands on changes. */
  lemma MazeOnlyAddsWalls(g: seq<State>, size: nat, start: Option<nat>, destination: Option<nat>, picks: seq<(nat, nat)>, v: nat)
    requires |g| == size * size && PicksInGrid(size, picks) && v < |g|
    ensures g[v] == Wall ==> Maze(g, size, start, destination, picks)[v] == Wall
    ensures !Picked(size, picks, v) ==> Maze(g, size, start, destination, picks)[v] == g[v]
  {
    MazeCells(g, size, start, destination, picks, v);
  }
}
