/** The steps of the search keep its invariants, and what the invariants say about the grid. */
module SearchLemmas {
  import opened Wrappers
  import opened Frontier
  import Predecessors
  import opened Paths
  import opened Search

  // ---------------------------------------------------------------------------
  // Counting lemmas for Bounded

  lemma SubsetSize(a: set<nat>, b: set<nat>)
    requires a <= b
    ensures |a| <= |b|
  {
    assert b == a + (b - a);
  }

  /** The vertices `0 .. n - 1`. */
  ghost function Range(n: nat): set<nat> {
    if n == 0 then {} else Range(n - 1) + {n - 1}
  }

  lemma {:induction false} RangeSize(n: nat)
    ensures |Range(n)| == n
    ensures forall u: nat :: u in Range(n) <==> u < n
  {
    if n > 0 {
      RangeSize(n - 1);
      assert n - 1 !in Range(n - 1);
    }
  }

  /** Two distinct vertices outside `Below(cost, k)` leave room for at most `|cost| - 2` inside it. */
  lemma BelowSize(cost: seq<Option<nat>>, k: nat, x: nat, y: nat)
    requires x < |cost| && y < |cost| && x != y && x !in Below(cost, k) && y !in Below(cost, k)
    ensures |Below(cost, k)| + 2 <= |cost|
  {
    var rest := Range(|cost|) - {x, y};
    RangeSize(|cost|);
    SubsetSize(Below(cost, k), rest);
    assert Range(|cost|) == rest + {x, y};
  }

  /** Relaxing `n` to `cost[current] + 1` keeps the cost bound, and the new cost is below the vertex count. */
  lemma RelaxBounded(cost: seq<Option<nat>>, current: nat, n: nat, c: nat)
    requires Bounded(cost) && current < |cost| && n < |cost|
    requires cost[current] == Some(c) && Improves(c + 1, cost[n])
    ensures c + 2 <= |cost|
    ensures Bounded(cost[n := Some(c + 1)])
  {
    var cost' := cost[n := Some(c + 1)];
    assert current != n;
    assert Witnessed(cost, current);
    BelowSize(cost, c, current, n);
    forall v | 0 <= v < |cost'| && cost'[v].Some?
      ensures Witnessed(cost', v)
    {
      assert Witnessed(cost, v);
      if v == n {
        var lower := Below(cost, c);
        assert lower + {current} <= Below(cost', c + 1);
        assert current !in lower;
        SubsetSize(lower + {current}, Below(cost', c + 1));
      } else {
        var k := cost[v].value;
        assert Below(cost, k) <= Below(cost', k);
        SubsetSize(Below(cost, k), Below(cost', k));
      }
    }
  }

  // ---------------------------------------------------------------------------
  // The steps keep the invariants

  /** The initial bookkeeping satisfies the loop invariant; the start's f-score is its Manhattan distance. */
  lemma InitSteady(s: Strategy, adj: seq<seq<nat>>, start: nat, destination: nat)
    requires Adjacency(adj) && start < |adj| && destination < |adj|
    ensures Steady(Init(s, |adj|, start), s, adj, start, destination)
    ensures s.AStar? ==> Init(s, |adj|, start).fScore[start] == Some(Heuristic(s, start))
  {
    var b := Init(s, |adj|, start);
    assert Vertices(b.queue) == {start} by {
      assert b.queue[0].vertex == start;
    }
    assert Below(b.cost, 0) == {};
  }

  /**
   * Popping from a steady state takes the least entry, removes its vertex from the
   * frontier set and leaves the costs, the predecessors and the counter alone; the loop
   * invariant holds again with the popped vertex excepted from closure, and the measure drops.
   */
  lemma PopStep(b: Bookkeeping, s: Strategy, adj: seq<seq<nat>>, start: nat, destination: nat)
    requires Steady(b, s, adj, start, destination) && |b.queue| > 0
    ensures var b', current := Pop(b).0, Pop(b).1;
      && current in b.open && current !in b'.open
      && Reached(b.cost, current)
      && current == Get(b.queue).0.vertex
      && (forall x :: x in b'.queue ==> Precedes(Get(b.queue).0, x))
      && b'.open == b.open - {current}
      && b'.cost == b.cost && b'.cameFrom == b.cameFrom && b'.fScore == b.fScore && b'.count == b.count
      && Core(b', s, adj, start)
      && Closed(b'.cost, b'.open, adj, {current})
      && (current != destination ==> Pending(b'.cost, b'.open, destination))
      && Measure(b') < Measure(b)
  {
    PopMirrors(b);
    PopCore(b, s, adj, start);
    var b', current := Pop(b).0, Pop(b).1;
    PopClosed(b, b', adj, current);
  }

  lemma PopCore(b: Bookkeeping, s: Strategy, adj: seq<seq<nat>>, start: nat)
    requires Core(b, s, adj, start) && |b.queue| > 0
    ensures Core(Pop(b).0, s, adj, start)
  {
    PopMirrors(b);
    var b' := Pop(b).0;
    assert Tree(b'.cost, b'.cameFrom, adj, start);
    assert Scored(b'.cost, b'.fScore, s);
  }

  lemma PopClosed(b: Bookkeeping, b': Bookkeeping, adj: seq<seq<nat>>, current: nat)
    requires Closed(b.cost, b.open, adj, {}) && b'.cost == b.cost && b'.open == b.open - {current}
    ensures Closed(b'.cost, b'.open, adj, {current})
  {
  }

  /** Popping keeps the frontier set equal to the queued vertices; the popped entry precedes all that remain. */
  lemma PopMirrors(b: Bookkeeping)
    requires Mirrors(b.cost, b.queue, b.open, b.count) && |b.queue| > 0
    ensures var b', current := Pop(b).0, Pop(b).1;
      && Mirrors(b'.cost, b'.queue, b'.open, b'.count)
      && current in b.open && Reached(b.cost, current)
      && b'.open == b.open - {current}
      && current == Get(b.queue).0.vertex
      && (forall x :: x in b'.queue ==> Precedes(Get(b.queue).0, x))
      && |b'.queue| == |b.queue| - 1
      && b'.cost == b.cost && b'.cameFrom == b.cameFrom && b'.fScore == b.fScore && b'.count == b.count
  {
    GetProperties(b.queue, b.count);
    var e := Get(b.queue).0;
    assert e.vertex in Vertices(b.queue) by {
      var i :| 0 <= i < |b.queue| && b.queue[i] == e;
    }
  }

  /** Relaxing one neighbour of the popped vertex keeps every invariant and does not raise the measure. */
  lemma RelaxStep(b: Bookkeeping, s: Strategy, adj: seq<seq<nat>>, start: nat, destination: nat, current: nat, j: nat)
    requires Core(b, s, adj, start) && Closed(b.cost, b.open, adj, {current}) && Pending(b.cost, b.open, destination)
    requires current < |adj| && Reached(b.cost, current) && current !in b.open && j < |adj[current]|
    ensures adj[current][j] < |b.cost|
    ensures var b' := Relax(b, s, current, adj[current][j]).0;
      && Core(b', s, adj, start)
      && Closed(b'.cost, b'.open, adj, {current})
      && Pending(b'.cost, b'.open, destination)
      && Measure(b') <= Measure(b)
  {
    RelaxCore(b, s, adj, start, current, j);
    RelaxFrontier(b, s, adj, destination, current, j);
  }

  /** One pass of the neighbour loop keeps its invariant and does not raise the measure. */
  lemma ExpandStep(b: Bookkeeping, s: Strategy, adj: seq<seq<nat>>, start: nat, destination: nat, current: nat, i: nat)
    requires Expanding(b, s, adj, start, destination, current, i) && i < |adj[current]|
    ensures adj[current][i] < |b.cost|
    ensures var b' := Relax(b, s, current, adj[current][i]).0;
      Expanding(b', s, adj, start, destination, current, i + 1) && Measure(b') <= Measure(b)
  {
    var n := adj[current][i];
    RelaxStep(b, s, adj, start, destination, current, i);
    RelaxEffect(b, s, current, n);
    var b' := Relax(b, s, current, n).0;
    forall j | 0 <= j < i + 1 ensures Reached(b'.cost, adj[current][j]) {
      if j < i { assert Reached(b.cost, adj[current][j]); }
    }
  }

  /** Once every neighbour of `current` has been relaxed, the loop invariant of the search holds again. */
  lemma ExpandDone(b: Bookkeeping, s: Strategy, adj: seq<seq<nat>>, start: nat, destination: nat, current: nat)
    requires current < |adj| && Expanding(b, s, adj, start, destination, current, |adj[current]|)
    ensures Steady(b, s, adj, start, destination)
  {
    ExpansionDone(b, adj, current);
  }

  /** Relaxation keeps the core invariant. */
  lemma RelaxCore(b: Bookkeeping, s: Strategy, adj: seq<seq<nat>>, start: nat, current: nat, j: nat)
    requires Core(b, s, adj, start) && current !in b.open
    requires current < |adj| && Reached(b.cost, current) && j < |adj[current]|
    ensures adj[current][j] < |b.cost|
    ensures Core(Relax(b, s, current, adj[current][j]).0, s, adj, start)
  {
    var n := adj[current][j];
    var c := b.cost[current].value;
    if Improves(c + 1, b.cost[n]) {
      RelaxCoreImproved(b, s, adj, start, current, n, c);
    }
  }

  /** An improving relaxation keeps the core invariant. */
  lemma RelaxCoreImproved(b: Bookkeeping, s: Strategy, adj: seq<seq<nat>>, start: nat, current: nat, n: nat, c: nat)
    requires Core(b, s, adj, start)
    requires current < |adj| && n < |adj| && n in adj[current] && b.cost[current] == Some(c) && Improves(c + 1, b.cost[n])
    ensures Core(Lower(b, s, current, n, c), s, adj, start)
  {
    LowerTree(b, s, adj, start, current, n, c);
    LowerQueue(b, s, current, n, c);
  }

  /** The cost bound and the predecessor tree survive an improving relaxation. */
  lemma LowerTree(b: Bookkeeping, s: Strategy, adj: seq<seq<nat>>, start: nat, current: nat, n: nat, c: nat)
    requires Shaped(b.cost, b.fScore, s, |adj|) && Rooted(b.cost, b.cameFrom, start)
    requires Tree(b.cost, b.cameFrom, adj, start) && Bounded(b.cost)
    requires current < |adj| && n < |adj| && n in adj[current] && b.cost[current] == Some(c) && Improves(c + 1, b.cost[n])
    ensures var b' := Lower(b, s, current, n, c);
      && Shaped(b'.cost, b'.fScore, s, |adj|) && Rooted(b'.cost, b'.cameFrom, start)
      && Tree(b'.cost, b'.cameFrom, adj, start) && Bounded(b'.cost)
  {
    RelaxBounded(b.cost, current, n, c);
    RelaxTree(b.cost, b.cameFrom, adj, start, current, n, c);
  }

  /** The queue and the f-scores survive an improving relaxation. */
  lemma LowerQueue(b: Bookkeeping, s: Strategy, current: nat, n: nat, c: nat)
    requires Mirrors(b.cost, b.queue, b.open, b.count) && Scored(b.cost, b.fScore, s)
    requires n < |b.cost| && (s.AStar? ==> |b.fScore| == |b.cost|)
    ensures var b' := Lower(b, s, current, n, c);
      Mirrors(b'.cost, b'.queue, b'.open, b'.count) && Scored(b'.cost, b'.fScore, s)
  {
    RelaxScored(b.cost, b.fScore, s, n, c);
    RelaxMirrors(b, s, current, n, c);
  }

  /**
   * What one relaxation does: a cost is only ever lowered, to the candidate
   * `cost[current] + 1`, and then `current` becomes the predecessor; the neighbour ends up
   * discovered; it is queued exactly when it was lowered and not in the frontier set, and
   * then with the next ticket and its new key; nothing else changes.
   */
  lemma RelaxEffect(b: Bookkeeping, s: Strategy, current: nat, n: nat)
    requires current < |b.cost| && n < |b.cost| && Reached(b.cost, current)
    requires s.AStar? ==> |b.fScore| == |b.cost|
    ensures var b', queued := Relax(b, s, current, n).0, Relax(b, s, current, n).1;
      var candidate := b.cost[current].value + 1;
      && |b'.cost| == |b.cost| && Reached(b'.cost, n)
      && (forall v :: 0 <= v < |b.cost| && v != n ==> b'.cost[v] == b.cost[v])
      && (if Improves(candidate, b.cost[n])
          then b'.cost[n] == Some(candidate) && b'.cameFrom == b.cameFrom[n := current]
          else b' == b)
      && (queued <==> Improves(candidate, b.cost[n]) && n !in b.open)
      && b'.open == (if queued then b.open + {n} else b.open)
      && b'.count == (if queued then b.count + 1 else b.count)
      && b'.queue == (if queued then b.queue + [Entry(candidate + Heuristic(s, n), b'.count, n)] else b.queue)
  {
  }

  /** Relaxation keeps closure and the pending destination, and does not raise the measure. */
  lemma RelaxFrontier(b: Bookkeeping, s: Strategy, adj: seq<seq<nat>>, destination: nat, current: nat, j: nat)
    requires Adjacency(adj) && Shaped(b.cost, b.fScore, s, |adj|) && Bounded(b.cost)
    requires forall v :: v in b.open ==> Reached(b.cost, v)
    requires Closed(b.cost, b.open, adj, {current}) && Pending(b.cost, b.open, destination)
    requires current < |adj| && Reached(b.cost, current) && j < |adj[current]|
    ensures adj[current][j] < |b.cost|
    ensures var b' := Relax(b, s, current, adj[current][j]).0;
      && Closed(b'.cost, b'.open, adj, {current})
      && Pending(b'.cost, b'.open, destination)
      && Measure(b') <= Measure(b)
  {
    var n := adj[current][j];
    var c := b.cost[current].value;
    RelaxEffect(b, s, current, n);
    if Improves(c + 1, b.cost[n]) {
      var b' := Relax(b, s, current, n).0;
      RelaxBounded(b.cost, current, n, c);
      RelaxClosed(b.cost, b.open, adj, current, n, c + 1);
      RelaxMeasure(b, b', n, c);
    }
  }

  /** Lowering `n` to `cost[current] + 1` with `current` as predecessor keeps the tree rooted at the start. */
  lemma RelaxTree(cost: seq<Option<nat>>, cameFrom: map<nat, nat>, adj: seq<seq<nat>>, start: nat, current: nat, n: nat, c: nat)
    requires Rooted(cost, cameFrom, start) && Tree(cost, cameFrom, adj, start)
    requires current < |adj| && n < |adj| && n in adj[current]
    requires cost[current] == Some(c) && Improves(c + 1, cost[n])
    ensures n != start && n != current
    ensures Rooted(cost[n := Some(c + 1)], cameFrom[n := current], start)
    ensures Tree(cost[n := Some(c + 1)], cameFrom[n := current], adj, start)
  {
  }

  /** The queue and the frontier set stay in step whether or not `n` is queued. */
  lemma RelaxMirrors(b: Bookkeeping, s: Strategy, current: nat, n: nat, c: nat)
    requires Mirrors(b.cost, b.queue, b.open, b.count) && n < |b.cost| && (s.AStar? ==> |b.fScore| == |b.cost|)
    ensures var b' := Lower(b, s, current, n, c); Mirrors(b'.cost, b'.queue, b'.open, b'.count)
  {
    if n !in b.open {
      PutProperties(b.queue, b.count, Entry(c + 1 + Heuristic(s, n), b.count + 1, n));
    }
  }

  lemma RelaxScored(cost: seq<Option<nat>>, fScore: seq<Option<nat>>, s: Strategy, n: nat, c: nat)
    requires Scored(cost, fScore, s) && n < |cost| && (s.AStar? ==> |fScore| == |cost|)
    ensures Scored(cost[n := Some(c + 1)],
      if s.AStar? then fScore[n := Some(c + 1 + Heuristic(s, n))] else fScore, s)
  {
  }

  /** Discovering more vertices, and adding the newly discovered ones to the frontier, keeps closure. */
  lemma RelaxClosed(cost: seq<Option<nat>>, open: set<nat>, adj: seq<seq<nat>>, current: nat, n: nat, c: nat)
    requires Closed(cost, open, adj, {current}) && n < |cost| && Adjacency(adj) && |cost| == |adj|
    requires n in open ==> Reached(cost, n)
    ensures Closed(cost[n := Some(c)], open + {n}, adj, {current})
    ensures n in open ==> Closed(cost[n := Some(c)], open, adj, {current})
  {
  }

  /** A relaxation lowers the potential by at least one and lengthens the queue by at most one. */
  lemma RelaxMeasure(b: Bookkeeping, b': Bookkeeping, n: nat, c: nat)
    requires n < |b.cost| && Improves(c + 1, b.cost[n]) && c + 2 <= |b.cost|
    requires b'.cost == b.cost[n := Some(c + 1)] && |b'.queue| <= |b.queue| + 1
    ensures Measure(b') <= Measure(b)
  {
    PotentialUpdate(b.cost, |b.cost|, n, Some(c + 1));
  }

  /** Once every neighbour of the popped vertex is discovered, closure holds without exception. */
  lemma ExpansionDone(b: Bookkeeping, adj: seq<seq<nat>>, current: nat)
    requires Closed(b.cost, b.open, adj, {current}) && current < |adj|
    requires forall j :: 0 <= j < |adj[current]| ==> Reached(b.cost, adj[current][j])
    ensures Closed(b.cost, b.open, adj, {})
  {
  }

  /** The invariant implies the shape the loop needs. */
  lemma CoreFormed(b: Bookkeeping, s: Strategy, adj: seq<seq<nat>>, start: nat)
    requires Core(b, s, adj, start)
    ensures Formed(b, s, adj)
  {
    forall x | x in b.queue ensures x.vertex < |adj| {
      var i :| 0 <= i < |b.queue| && b.queue[i] == x;
      assert x.vertex in Vertices(b.queue);
    }
  }

  // ---------------------------------------------------------------------------
  // What the bookkeeping says about the grid

  /** Every discovered vertex is reachable from the start: follow `came_from` back. */
  lemma {:induction false} Reaches(cost: seq<Option<nat>>, cameFrom: map<nat, nat>, adj: seq<seq<nat>>, start: nat, v: nat)
    requires Rooted(cost, cameFrom, start) && Tree(cost, cameFrom, adj, start) && Reached(cost, v)
    ensures Reachable(adj, start, v)
    decreases cost[v].value
  {
    if v == start {
      assert IsPath(adj, [start]);
    } else {
      var u := cameFrom[v];
      Reaches(cost, cameFrom, adj, start, u);
      var p :| IsPath(adj, p) && p[0] == start && p[|p| - 1] == u;
      Extend(adj, p, v);
    }
  }

  /**
   * When the queue runs dry the frontier set is empty and the discovered vertices are
   * exactly the vertices reachable from the start; in particular the destination is not.
   */
  lemma Exhausted(b: Bookkeeping, s: Strategy, adj: seq<seq<nat>>, start: nat, destination: nat)
    requires Steady(b, s, adj, start, destination) && b.queue == []
    ensures b.open == {}
    ensures !Reachable(adj, start, destination)
    ensures forall v :: 0 <= v < |adj| ==> (Reached(b.cost, v) <==> Reachable(adj, start, v))
  {
    var discovered := set v | 0 <= v < |adj| && Reached(b.cost, v);
    forall v | 0 <= v < |adj| ensures Reached(b.cost, v) <==> Reachable(adj, start, v) {
      if Reached(b.cost, v) {
        Reaches(b.cost, b.cameFrom, adj, start, v);
      } else {
        forall p | IsPath(adj, p) && p[0] == start
          ensures p[|p| - 1] != v
        {
          ClosedHoldsPaths(adj, discovered, p);
        }
      }
    }
  }

  /**
   * The predecessors of a discovered destination lead back to the start, and read
   * backwards they form a path from the start to the destination.
   */
  lemma ChainToStart(cost: seq<Option<nat>>, cameFrom: map<nat, nat>, adj: seq<seq<nat>>, start: nat, destination: nat)
    requires Rooted(cost, cameFrom, start) && Tree(cost, cameFrom, adj, start) && Reached(cost, destination)
    ensures var p := Predecessors.Chain(cameFrom, cost, destination);
      && (destination == start <==> p == [])
      && (p != [] ==> p[|p| - 1] == start)
      && destination !in p
      && var q := Reversed([destination] + p);
         IsPath(adj, q) && q[0] == start && q[|q| - 1] == destination
  {
    var p := Predecessors.Chain(cameFrom, cost, destination);
    Predecessors.ChainDescends(cameFrom, cost, destination);
    var w: seq<nat> := [destination] + p;
    forall k | 0 < k < |w| ensures w[k] < |adj| && w[k - 1] in adj[w[k]] {
      assert w[k - 1] in cameFrom && cameFrom[w[k - 1]] == w[k];
    }
    WalkBack(adj, w);
  }

  /** A sequence in which each vertex is a neighbour of the next is, read backwards, a path. */
  lemma WalkBack(adj: seq<seq<nat>>, w: seq<nat>)
    requires |w| > 0 && w[0] < |adj|
    requires forall k :: 0 < k < |w| ==> w[k] < |adj| && w[k - 1] in adj[w[k]]
    ensures IsPath(adj, Reversed(w))
  {
    var q := Reversed(w);
    forall i | 0 <= i < |q| ensures q[i] < |adj| {
      var k := |w| - 1 - i;
      assert q[i] == w[k];
    }
    forall i | 0 <= i < |q| - 1 ensures q[i + 1] in adj[q[i]] {
      var k := |w| - 1 - i;
      assert q[i + 1] == w[k - 1] && q[i] == w[k];
    }
  }
}
