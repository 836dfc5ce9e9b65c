/**
 * The `Pathfinder` class: the grid it draws on, the start and the destination, and the
 * two searches, the path reconstruction and the maze generator that update the grid in
 * place. A vertex is its index `row * size + col` in the row-major grid.
 */
module Pathfinding {
  import opened Wrappers
  import opened Cells
  import opened Geometry
  import opened Frontier
  import opened Paths
  import opened Predecessors
  import opened Search
  import opened SearchLemmas
  import opened Maze
  import opened Execution

  class Pathfinder {
    const size: nat
    const grid: array<State>
    const start: Option<nat>        // None until the user has placed the start
    const destination: Option<nat>  // None until the user has placed the destination

    /** The grid is square and an endpoint, once placed, is one of its cells. */
    ghost predicate Valid() {
      && grid.Length == size * size
      && (start.Some? ==> start.value < grid.Length)
      && (destination.Some? ==> destination.value < grid.Length)
    }

    /** Both endpoints are placed, as the user interface checks before it starts a search. */
    ghost predicate Ready() {
      Valid() && start.Some? && destination.Some?
    }

    constructor (size: nat, grid: array<State>, start: Option<nat>, destination: Option<nat>)
      requires grid.Length == size * size
      requires start.Some? ==> start.value < grid.Length
      requires destination.Some? ==> destination.value < grid.Length
      ensures Valid()
      ensures this.size == size && this.grid == grid && this.start == start && this.destination == destination
    {
      this.size := size;
      this.grid := grid;
      this.start := start;
      this.destination := destination;
    }

    /**
     * What a search leaves in cell `v` while it runs: the start, the destination and
     * every undiscovered vertex keep their state; a discovered vertex is "visiting" while
     * it is in the frontier set and "visited" once it has been expanded.
     */
    ghost function Marked(g: seq<State>, b: Bookkeeping, v: nat): (r: State)
      requires v < |g|
      ensures Some(v) == start || Some(v) == destination ==> r == g[v]
      ensures r != g[v] ==> Reached(b.cost, v) && (r == Visiting <==> v in b.open)
    {
      if Some(v) == start || Some(v) == destination || !Reached(b.cost, v) then g[v]
      else if v in b.open then Visiting
      else Visited
    }

    /**
     * `__reconstruct_path`: walks `came_from` back from `current` and marks every vertex
     * it steps to as part of the path (`current` itself is not marked).
     */
    method ReconstructPath(cameFrom: map<nat, nat>, current: nat, ghost cost: seq<Option<nat>>)
      requires Valid() && Ranked(cameFrom, cost) && |cost| == grid.Length
      modifies grid
      ensures forall v :: 0 <= v < grid.Length ==>
        grid[v] == if v in Chain(cameFrom, cost, current) then Path else old(grid[v])
    {
      var v := current;
      ghost var done: seq<nat> := [];
      while v in cameFrom
        invariant Chain(cameFrom, cost, current) == done + Chain(cameFrom, cost, v)
        invariant forall u :: 0 <= u < grid.Length ==> grid[u] == if u in done then Path else old(grid[u])
        decreases if v in cameFrom then cost[v].value else 0
      {
        v := cameFrom[v];
        grid[v] := Path;
        done := done + [v];
      }
    }

    /**
     * The loop shared by `dijkstra` and `a_star_search`, which differ only in the queue key.
     * It computes the outcome and final bookkeeping of `Execution.Outcome`, and it answers
     * whether the destination can be reached from the start over the neighbour relation
     * `neighbors`. On success the cells of the predecessor chain of the destination are
     * marked as the path, the start is marked as the start again, and that chain, read
     * backwards and followed by the destination, is a path from the start to the
     * destination. On failure exactly the cells reachable from the start, other than the
     * start and the destination, are marked as visited.
     */
    method Traverse(s: Strategy, neighbors: seq<seq<nat>>) returns (found: bool, ghost final: Bookkeeping)
      requires Ready() && |neighbors| == grid.Length && Adjacency(neighbors)
      modifies grid
      ensures (final, found) == Outcome(s, neighbors, start.value, destination.value)
      ensures found <==> Reachable(neighbors, start.value, destination.value)
      ensures Core(final, s, neighbors, start.value)
      ensures found ==> Reached(final.cost, destination.value)
      ensures !found ==> final.open == {}
      ensures found ==>
        var route := Chain(final.cameFrom, final.cost, destination.value);
        var p := Reversed([destination.value] + route);
        IsPath(neighbors, p) && p[0] == start.value && p[|p| - 1] == destination.value
      ensures found ==> forall v :: 0 <= v < grid.Length ==>
        grid[v] == if v == start.value then Start
                   else if v in Chain(final.cameFrom, final.cost, destination.value) then Path
                   else Marked(old(grid[..]), final, v)
      ensures !found ==> forall v :: 0 <= v < grid.Length ==>
        grid[v] == if v == start.value || v == destination.value || !Reachable(neighbors, start.value, v) then old(grid[v])
                   else Visited
    {
      ghost var g := grid[..];
      var b := Init(s, grid.Length, start.value);
      InitSteady(s, neighbors, start.value, destination.value);
      CoreFormed(b, s, neighbors, start.value);
      ghost var fuel := Supply(Measure(b));
      ghost var outcome := Outcome(s, neighbors, start.value, destination.value);
      while |b.queue| > 0
        invariant Steady(b, s, neighbors, start.value, destination.value)
        invariant forall v :: 0 <= v < grid.Length ==> grid[v] == Marked(g, b, v)
        invariant Measure(b) <= Size(fuel) && Formed(b, s, neighbors)
        invariant Run(b, s, neighbors, destination.value, fuel) == outcome
        decreases Measure(b)
      {
        ghost var before, budget := b, fuel;
        var current;
        b, current := Iterate(s, neighbors, b, g);
        if current == destination.value {
          RunFound(before, s, neighbors, destination.value, budget);
          FinishPath(s, neighbors, b, g);
          return true, b;
        }
        fuel := fuel.rest;
        RunNext(before, s, neighbors, destination.value, budget, current, b);
      }
      Exhausted(b, s, neighbors, start.value, destination.value);
      ExhaustedMarks(neighbors, g, b);
      return false, b;
    }

    /** One pass of the search loop: pop the first entry of the queue and expand it unless it is the destination. */
    method Iterate(s: Strategy, neighbors: seq<seq<nat>>, b: Bookkeeping, ghost g: seq<State>)
      returns (b': Bookkeeping, current: nat)
      requires Ready() && |neighbors| == grid.Length && |g| == grid.Length
      requires Steady(b, s, neighbors, start.value, destination.value) && |b.queue| > 0
      requires forall v :: 0 <= v < grid.Length ==> grid[v] == Marked(g, b, v)
      modifies grid
      ensures current == Pop(b).1 && current < |neighbors|
      ensures current == destination.value ==>
        b' == Pop(b).0 && Core(b', s, neighbors, start.value) && Reached(b'.cost, current)
      ensures current != destination.value ==>
        && b' == RelaxAll(Pop(b).0, s, current, neighbors[current])
        && Steady(b', s, neighbors, start.value, destination.value) && Measure(b') < Measure(b)
      ensures forall v :: 0 <= v < grid.Length ==> grid[v] == Marked(g, b', v)
    {
      PopStep(b, s, neighbors, start.value, destination.value);
      PopMarks(g, b);
      var popped := Pop(b);
      current := popped.1;
      b' := popped.0;
      if current != destination.value {
        b' := Expand(s, neighbors, b', current, g);
      }
    }

    /** Once the queue is empty every discovered vertex is expanded, so the discovered ones read as visited. */
    lemma ExhaustedMarks(neighbors: seq<seq<nat>>, g: seq<State>, b: Bookkeeping)
      requires start.Some? && destination.Some? && |g| == |neighbors| && b.open == {}
      requires forall v :: 0 <= v < |neighbors| ==> (Reached(b.cost, v) <==> Reachable(neighbors, start.value, v))
      ensures forall v :: 0 <= v < |g| ==>
        Marked(g, b, v) == if v == start.value || v == destination.value || !Reachable(neighbors, start.value, v) then g[v]
                           else Visited
    {
    }

    /** The destination was popped: mark the path back to the start, then the start itself. */
    method FinishPath(s: Strategy, neighbors: seq<seq<nat>>, b: Bookkeeping, ghost g: seq<State>)
      requires Ready() && |neighbors| == grid.Length && |g| == grid.Length
      requires Core(b, s, neighbors, start.value) && Reached(b.cost, destination.value)
      requires forall v :: 0 <= v < grid.Length ==> grid[v] == Marked(g, b, v)
      modifies grid
      ensures Reachable(neighbors, start.value, destination.value)
      ensures var route := Chain(b.cameFrom, b.cost, destination.value);
        var p := Reversed([destination.value] + route);
        IsPath(neighbors, p) && p[0] == start.value && p[|p| - 1] == destination.value
      ensures forall v :: 0 <= v < grid.Length ==>
        grid[v] == if v == start.value then Start
                   else if v in Chain(b.cameFrom, b.cost, destination.value) then Path
                   else Marked(g, b, v)
    {
      ChainToStart(b.cost, b.cameFrom, neighbors, start.value, destination.value);
      Reaches(b.cost, b.cameFrom, neighbors, start.value, destination.value);
      ReconstructPath(b.cameFrom, destination.value, b.cost);
      grid[start.value] := Start;
    }

    /**
     * The body of the search loop after `current` was popped and is not the destination:
     * relax each neighbour in turn, in the order of `neighbors[current]`, marking the newly
     * queued ones (other than the destination) as visiting, then mark `current` as visited
     * unless it is the start.
     */
    method Expand(s: Strategy, neighbors: seq<seq<nat>>, b: Bookkeeping, current: nat, ghost g: seq<State>)
      returns (b': Bookkeeping)
      requires Ready() && |neighbors| == grid.Length && |g| == grid.Length
      requires Expanding(b, s, neighbors, start.value, destination.value, current, 0) && current != destination.value
      requires current == start.value ==> grid[current] == g[current]
      requires forall v :: 0 <= v < grid.Length && v != current ==> grid[v] == Marked(g, b, v)
      modifies grid
      ensures b' == RelaxAll(b, s, current, neighbors[current])
      ensures Steady(b', s, neighbors, start.value, destination.value) && Measure(b') <= Measure(b)
      ensures forall v :: 0 <= v < grid.Length ==> grid[v] == Marked(g, b', v)
    {
      b' := RelaxNeighbors(s, neighbors, b, current, g);
      MarkExpanded(s, neighbors, b', current, g);
    }

    /** The neighbour loop of `Expand`, which relaxes each neighbour of `current` in turn. */
    method RelaxNeighbors(s: Strategy, neighbors: seq<seq<nat>>, b: Bookkeeping, current: nat, ghost g: seq<State>)
      returns (b': Bookkeeping)
      requires Ready() && |neighbors| == grid.Length && |g| == grid.Length
      requires Expanding(b, s, neighbors, start.value, destination.value, current, 0)
      requires forall v :: 0 <= v < grid.Length && v != current ==> grid[v] == Marked(g, b, v)
      modifies grid
      ensures b' == RelaxAll(b, s, current, neighbors[current])
      ensures Expanding(b', s, neighbors, start.value, destination.value, current, |neighbors[current]|)
      ensures Measure(b') <= Measure(b)
      ensures forall v :: 0 <= v < grid.Length ==> grid[v] == if v == current then old(grid[v]) else Marked(g, b', v)
    {
      b' := b;
      for i := 0 to |neighbors[current]|
        invariant Expanding(b', s, neighbors, start.value, destination.value, current, i) && Measure(b') <= Measure(b)
        invariant b' == RelaxAll(b, s, current, neighbors[current][..i])
        invariant forall v :: 0 <= v < grid.Length ==> grid[v] == if v == current then old(grid[v]) else Marked(g, b', v)
      {
        ghost var prior := b';
        b' := RelaxNeighbor(s, neighbors, b', current, i, g);
        RelaxAllStep(b, s, current, neighbors[current], i, prior, b');
      }
      RelaxAllDone(b, s, current, neighbors[current]);
    }

    /** After the neighbour loop: `current` is marked as visited unless it is the start. */
    method MarkExpanded(s: Strategy, neighbors: seq<seq<nat>>, b: Bookkeeping, current: nat, ghost g: seq<State>)
      requires Ready() && |neighbors| == grid.Length && |g| == grid.Length
      requires current < |neighbors| && Expanding(b, s, neighbors, start.value, destination.value, current, |neighbors[current]|)
      requires current != destination.value && (current == start.value ==> grid[current] == g[current])
      requires forall v :: 0 <= v < grid.Length && v != current ==> grid[v] == Marked(g, b, v)
      modifies grid
      ensures Steady(b, s, neighbors, start.value, destination.value)
      ensures forall v :: 0 <= v < grid.Length ==> grid[v] == Marked(g, b, v)
    {
      ExpandDone(b, s, neighbors, start.value, destination.value, current);
      if current != start.value {
        grid[current] := Visited;
      }
    }

    /**
     * One pass of the neighbour loop: relax the `i`-th neighbour of `current` and mark it
     * as visiting when it was queued and is not the destination.
     */
    method RelaxNeighbor(s: Strategy, neighbors: seq<seq<nat>>, b: Bookkeeping, current: nat, i: nat, ghost g: seq<State>)
      returns (b': Bookkeeping)
      requires Ready() && |neighbors| == grid.Length && |g| == grid.Length
      requires Expanding(b, s, neighbors, start.value, destination.value, current, i) && i < |neighbors[current]|
      requires forall v :: 0 <= v < grid.Length && v != current ==> grid[v] == Marked(g, b, v)
      modifies grid
      ensures b' == Relax(b, s, current, neighbors[current][i]).0
      ensures Expanding(b', s, neighbors, start.value, destination.value, current, i + 1) && Measure(b') <= Measure(b)
      ensures grid[current] == old(grid[current])
      ensures forall v :: 0 <= v < grid.Length && v != current ==> grid[v] == Marked(g, b', v)
    {
      var neighbor := neighbors[current][i];
      ExpandStep(b, s, neighbors, start.value, destination.value, current, i);
      MarkStep(s, g, b, current, neighbor);
      var relaxed := Relax(b, s, current, neighbor);
      b' := relaxed.0;
      if relaxed.1 && neighbor != destination.value {
        grid[neighbor] := Visiting;
      }
    }

    /** Popping changes the marking of the popped vertex only, and of no vertex when it is the start or the destination. */
    lemma PopMarks(g: seq<State>, b: Bookkeeping)
      requires |b.queue| > 0
      ensures var (b', current) := Pop(b);
        && (forall v :: 0 <= v < |g| && v != current ==> Marked(g, b', v) == Marked(g, b, v))
        && (Some(current) == start || Some(current) == destination ==> forall v :: 0 <= v < |g| ==> Marked(g, b', v) == Marked(g, b, v))
    {
    }

    /** How one relaxation changes the marking: only a newly queued neighbour changes, to visiting. */
    lemma MarkStep(s: Strategy, g: seq<State>, b: Bookkeeping, current: nat, neighbor: nat)
      requires start.Some? && |g| == |b.cost| && Rooted(b.cost, b.cameFrom, start.value) && (forall v :: v in b.open ==> Reached(b.cost, v))
      requires current < |b.cost| && neighbor < |b.cost| && Reached(b.cost, current)
      requires s.AStar? ==> |b.fScore| == |b.cost|
      ensures var (b', queued) := Relax(b, s, current, neighbor);
        && (forall v :: 0 <= v < |g| && v != neighbor ==> Marked(g, b', v) == Marked(g, b, v))
        && Marked(g, b', neighbor) == if queued && Some(neighbor) != destination then Visiting else Marked(g, b, neighbor)
    {
      RelaxEffect(b, s, current, neighbor);
    }

    /** `dijkstra`: the search with the cost alone as the queue key. */
    method Dijkstra(neighbors: seq<seq<nat>>) returns (found: bool, ghost final: Bookkeeping)
      requires Ready() && |neighbors| == grid.Length && Adjacency(neighbors)
      modifies grid
      ensures (final, found) == Outcome(Search.Dijkstra, neighbors, start.value, destination.value)
      ensures found <==> Reachable(neighbors, start.value, destination.value)
      ensures Core(final, Search.Dijkstra, neighbors, start.value) && final.fScore == []
      ensures found ==> Reached(final.cost, destination.value)
      ensures !found ==> final.open == {}
      ensures found ==>
        var route := Chain(final.cameFrom, final.cost, destination.value);
        var p := Reversed([destination.value] + route);
        IsPath(neighbors, p) && p[0] == start.value && p[|p| - 1] == destination.value
      ensures found ==> forall v :: 0 <= v < grid.Length ==>
        grid[v] == if v == start.value then Start
                   else if v in Chain(final.cameFrom, final.cost, destination.value) then Path
                   else Marked(old(grid[..]), final, v)
      ensures !found ==> forall v :: 0 <= v < grid.Length ==>
        grid[v] == if v == start.value || v == destination.value || !Reachable(neighbors, start.value, v) then old(grid[v])
                   else Visited
    {
      found, final := Traverse(Search.Dijkstra, neighbors);
    }

    /** `a_star_search`: the search keyed by cost plus the Manhattan distance to the destination. */
    method AStarSearch(neighbors: seq<seq<nat>>) returns (found: bool, ghost final: Bookkeeping)
      requires Ready() && |neighbors| == grid.Length && Adjacency(neighbors)
      modifies grid
      ensures (final, found) == Outcome(AStar(size, destination.value), neighbors, start.value, destination.value)
      ensures found <==> Reachable(neighbors, start.value, destination.value)
      ensures Core(final, AStar(size, destination.value), neighbors, start.value)
      ensures found ==> Reached(final.cost, destination.value)
      ensures !found ==> final.open == {}
      ensures found ==>
        var route := Chain(final.cameFrom, final.cost, destination.value);
        var p := Reversed([destination.value] + route);
        IsPath(neighbors, p) && p[0] == start.value && p[|p| - 1] == destination.value
      ensures found ==> forall v :: 0 <= v < grid.Length ==>
        grid[v] == if v == start.value then Start
                   else if v in Chain(final.cameFrom, final.cost, destination.value) then Path
                   else Marked(old(grid[..]), final, v)
      ensures !found ==> forall v :: 0 <= v < grid.Length ==>
        grid[v] == if v == start.value || v == destination.value || !Reachable(neighbors, start.value, v) then old(grid[v])
                   else Visited
    {
      found, final := Traverse(AStar(size, destination.value), neighbors);
    }

    /**
     * `generate_maze`: `n + 1` random cells, given here as `picks`, become walls unless they
     * are the start or the destination.
     */
    method GenerateMaze(n: nat, picks: seq<(nat, nat)>)
      requires Valid() && |picks| > n && PicksInGrid(size, picks)
      modifies grid
      ensures grid[..] == Maze.Maze(old(grid[..]), size, start, destination, picks[..n + 1])
    {
      for i := 0 to n + 1
        invariant grid[..] == Maze.Maze(old(grid[..]), size, start, destination, picks[..i])
      {
        var pick := picks[i];
        var v := Index(size, pick);
        MarkPickAt(grid[..], size, start, destination, pick, v);
        ghost var before := grid[..];
        if Some(v) != start && Some(v) != destination {
          grid[v] := Wall;
        }
        assert grid[..] == MarkPick(before, size, start, destination, pick);
        MazeSnoc(old(grid[..]), size, start, destination, picks, i);
      }
    }
  }
}
