/**
 * The bookkeeping that `dijkstra` and `a_star_search` keep in local variables: the cost
 * map (`distance` / `g_score`), the A* `f_score` map, `came_from`, the priority queue,
 * the frontier set (`visited` / `open_set`) and the counter `count`. The two searches
 * differ only in the key an entry is queued with, so one pair of step functions serves
 * both, parameterised by a `Strategy`.
 */
module Search {
  import opened Wrappers
  import opened Geometry
  import opened Frontier
  import opened Predecessors
  import opened Paths

  /** Dijkstra queues by cost; A* by cost plus the Manhattan distance to the destination. */
  datatype Strategy = Dijkstra | AStar(size: nat, destination: nat)

  /** The heuristic term of the queue key: none for Dijkstra. */
  function Heuristic(s: Strategy, v: nat): nat {
    match s
    case Dijkstra => 0
    case AStar(size, d) => if size == 0 then 0 else Manhattan(CellOf(size, v), CellOf(size, d))
  }

  datatype Bookkeeping = Bookkeeping(
    cost: seq<Option<nat>>,    // `distance` (Dijkstra) or `g_score` (A*); None is float("inf")
    fScore: seq<Option<nat>>,  // `f_score` of A*; Dijkstra keeps none, so it is empty there
    cameFrom: map<nat, nat>,   // `came_from`
    queue: seq<Entry>,         // the priority queue, in insertion order
    open: set<nat>,            // `visited` (Dijkstra) or `open_set` (A*)
    count: nat)                // the tie-breaking counter

  /** The state before the loop: only the start has a finite cost and it is the one queued entry, with key 0. */
  function Init(s: Strategy, n: nat, start: nat): (r: Bookkeeping)
    requires start < n
    ensures |r.cost| == n && forall v :: 0 <= v < n ==> (r.cost[v].Some? <==> v == start)
    ensures r.cost[start] == Some(0) && r.cameFrom == map[]
    ensures r.open == Vertices(r.queue) == {start}
  {
    assert [Entry(0, 0, start)][0].vertex == start;
    Bookkeeping(
      seq(n, v => if v == start then Some(0) else None),
      if s.Dijkstra? then [] else seq(n, v => if v == start then Some(Heuristic(s, start)) else None),
      map[],
      [Entry(0, 0, start)],
      {start},
      0)
  }

  /** The queue before the loop is the single entry `(0, count, start)` with `count` still 0. */
  lemma InitQueue(s: Strategy, n: nat, start: nat)
    requires start < n
    ensures Init(s, n, start).queue == [Entry(0, 0, start)] && Init(s, n, start).count == 0
  {
  }

  /** `candidate < known`, where None is float("inf"). */
  predicate Improves(candidate: nat, known: Option<nat>) {
    known.None? || candidate < known.value
  }

  /**
   * One pass of the neighbour loop for `neighbor` of the popped `current`, without the
   * marking: relax when `cost[current] + 1` is strictly smaller, and queue the neighbour
   * with a new ticket when it is not in the frontier set. The flag says whether it was queued.
   */
  function Relax(b: Bookkeeping, s: Strategy, current: nat, neighbor: nat): (r: (Bookkeeping, bool))
    requires current < |b.cost| && neighbor < |b.cost|
    requires s.AStar? ==> |b.fScore| == |b.cost|
    ensures |r.0.cost| == |b.cost| && |r.0.fScore| == |b.fScore|
    ensures r.0.cost[neighbor] == b.cost[neighbor] || (r.0.cost[neighbor].Some? && Improves(r.0.cost[neighbor].value, b.cost[neighbor]))
    ensures r.1 ==> neighbor !in b.open && neighbor in r.0.open
  {
    match b.cost[current]
    case None => (b, false)  // float("inf") + 1 improves nothing
    case Some(c) =>
      if !Improves(c + 1, b.cost[neighbor]) then (b, false)
      else (Lower(b, s, current, neighbor, c), neighbor !in b.open)
  }

  /** The improving branch of `Relax`, where `c` is the cost of `current`. */
  function Lower(b: Bookkeeping, s: Strategy, current: nat, neighbor: nat, c: nat): (r: Bookkeeping)
    requires neighbor < |b.cost|
    requires s.AStar? ==> |b.fScore| == |b.cost|
    ensures |r.cost| == |b.cost| && |r.fScore| == |b.fScore|
    ensures r.cost[neighbor] == Some(c + 1) && neighbor in r.cameFrom && r.cameFrom[neighbor] == current
    ensures neighbor in r.open
  {
    var key := c + 1 + Heuristic(s, neighbor);
    var relaxed := b.(
      cost := b.cost[neighbor := Some(c + 1)],
      cameFrom := b.cameFrom[neighbor := current],
      fScore := if s.AStar? then b.fScore[neighbor := Some(key)] else b.fScore);
    if neighbor in b.open then relaxed
    else
      relaxed.(
        queue := Put(b.queue, Entry(key, b.count + 1, neighbor)),
        open := b.open + {neighbor},
        count := b.count + 1)
  }

  /**
   * The whole neighbour loop of `current`: `Relax` for each of `ns` in order. Once it has
   * run, no discovered vertex is undiscovered again and no cost has risen.
   */
  function RelaxAll(b: Bookkeeping, s: Strategy, current: nat, ns: seq<nat>): (r: Bookkeeping)
    requires current < |b.cost| && forall k :: 0 <= k < |ns| ==> ns[k] < |b.cost|
    requires s.AStar? ==> |b.fScore| == |b.cost|
    ensures |r.cost| == |b.cost| && |r.fScore| == |b.fScore|
    ensures forall v :: 0 <= v < |b.cost| && b.cost[v].Some? ==> r.cost[v].Some? && r.cost[v].value <= b.cost[v].value
    ensures forall x :: x in r.queue ==> x in b.queue || x.vertex < |b.cost|
    decreases |ns|
  {
    if ns == [] then b
    else
      var before := RelaxAll(b, s, current, ns[..|ns| - 1]);
      RelaxLowers(before, s, current, ns[|ns| - 1]);
      Relax(before, s, current, ns[|ns| - 1]).0
  }

  /** Relaxing one more neighbour extends the loop by one pass. */
  lemma RelaxAllSnoc(b: Bookkeeping, s: Strategy, current: nat, ns: seq<nat>, i: nat)
    requires current < |b.cost| && i < |ns| && forall k :: 0 <= k < |ns| ==> ns[k] < |b.cost|
    requires s.AStar? ==> |b.fScore| == |b.cost|
    ensures RelaxAll(b, s, current, ns[..i + 1]) == Relax(RelaxAll(b, s, current, ns[..i]), s, current, ns[i]).0
  {
    assert ns[..i + 1][..i] == ns[..i];
  }

  /** The same, for the bookkeeping `prior` before the pass and `next` after it. */
  lemma RelaxAllStep(b: Bookkeeping, s: Strategy, current: nat, ns: seq<nat>, i: nat, prior: Bookkeeping, next: Bookkeeping)
    requires current < |b.cost| && i < |ns| && forall k :: 0 <= k < |ns| ==> ns[k] < |b.cost|
    requires s.AStar? ==> |b.fScore| == |b.cost|
    requires prior == RelaxAll(b, s, current, ns[..i]) && next == Relax(prior, s, current, ns[i]).0
    ensures next == RelaxAll(b, s, current, ns[..i + 1])
  {
    RelaxAllSnoc(b, s, current, ns, i);
  }

  /** After the last pass every neighbour has been relaxed. */
  lemma RelaxAllDone(b: Bookkeeping, s: Strategy, current: nat, ns: seq<nat>)
    requires current < |b.cost| && forall k :: 0 <= k < |ns| ==> ns[k] < |b.cost|
    requires s.AStar? ==> |b.fScore| == |b.cost|
    ensures RelaxAll(b, s, current, ns[..|ns|]) == RelaxAll(b, s, current, ns)
  {
    assert ns[..|ns|] == ns;
  }

  /** A relaxation changes the cost of the neighbour only, and only downwards, and queues nothing but the neighbour. */
  lemma RelaxLowers(b: Bookkeeping, s: Strategy, current: nat, neighbor: nat)
    requires current < |b.cost| && neighbor < |b.cost|
    requires s.AStar? ==> |b.fScore| == |b.cost|
    ensures var r := Relax(b, s, current, neighbor).0;
      && (forall v :: 0 <= v < |b.cost| && b.cost[v].Some? ==> r.cost[v].Some? && r.cost[v].value <= b.cost[v].value)
      && (forall x :: x in r.queue ==> x in b.queue || x.vertex == neighbor)
  {
  }

  /** The shape the loop needs to run at all: costs and scores per vertex, and only vertices of the grid queued. */
  ghost predicate Formed(b: Bookkeeping, s: Strategy, adj: seq<seq<nat>>) {
    && Adjacency(adj)
    && Shaped(b.cost, b.fScore, s, |adj|)
    && forall x :: x in b.queue ==> x.vertex < |adj|
  }

  /** `current = queue.get()[2]` followed by `visited.remove(current)`. */
  function Pop(b: Bookkeeping): (r: (Bookkeeping, nat))
    requires |b.queue| > 0
    ensures r.1 !in r.0.open && |r.0.queue| == |b.queue| - 1
    ensures r.0.cost == b.cost && r.0.cameFrom == b.cameFrom
  {
    var (e, rest) := Get(b.queue);
    (b.(queue := rest, open := b.open - {e.vertex}), e.vertex)
  }

  // ---------------------------------------------------------------------------
  // Invariants

  /** `v` has a finite cost: it has been discovered. */
  ghost predicate Reached(cost: seq<Option<nat>>, v: nat) {
    v < |cost| && cost[v].Some?
  }

  ghost predicate Shaped(cost: seq<Option<nat>>, fScore: seq<Option<nat>>, s: Strategy, n: nat) {
    && |cost| == n
    && (if s.AStar? then |fScore| == n else fScore == [])
  }

  /** The start keeps cost 0 and never gets a predecessor. */
  ghost predicate Rooted(cost: seq<Option<nat>>, cameFrom: map<nat, nat>, start: nat) {
    start < |cost| && cost[start] == Some(0) && start !in cameFrom
  }

  /**
   * `came_from` is a tree rooted at the start: exactly the other discovered vertices have
   * a predecessor, the predecessor is strictly cheaper, and the vertex is its neighbour.
   */
  ghost predicate Tree(cost: seq<Option<nat>>, cameFrom: map<nat, nat>, adj: seq<seq<nat>>, start: nat) {
    && |cost| == |adj|
    && Ranked(cameFrom, cost)
    && (forall v :: v in cameFrom ==> v in adj[cameFrom[v]])
    && (forall v :: 0 <= v < |cost| ==> (v in cameFrom <==> v != start && cost[v].Some?))
  }

  /**
   * The frontier set is exactly the set of queued vertices, no vertex is queued twice,
   * every queued vertex has a finite cost, and the tickets grow with insertion order.
   */
  ghost predicate Mirrors(cost: seq<Option<nat>>, queue: seq<Entry>, open: set<nat>, count: nat) {
    && open == Vertices(queue)
    && DistinctVertices(queue)
    && (forall v :: v in open ==> Reached(cost, v))
    && Ticketed(queue, count)
  }

  /** A*: a vertex with cost `g` has f-score `g + Manhattan`, an unreached one has f-score float("inf"). */
  ghost predicate Scored(cost: seq<Option<nat>>, fScore: seq<Option<nat>>, s: Strategy) {
    s.AStar? ==>
      && |fScore| == |cost|
      && forall v :: 0 <= v < |cost| ==>
           fScore[v] == if cost[v].None? then None else Some(cost[v].value + Heuristic(s, v))
  }

  ghost function Below(cost: seq<Option<nat>>, k: nat): set<nat> {
    set u | 0 <= u < |cost| && cost[u].Some? && cost[u].value < k
  }

  /** A finite cost `k` is witnessed by at least `k` cheaper vertices, so no cost reaches the vertex count. */
  ghost predicate Bounded(cost: seq<Option<nat>>) {
    forall v :: 0 <= v < |cost| ==> Witnessed(cost, v)
  }

  ghost predicate Witnessed(cost: seq<Option<nat>>, v: nat)
    requires v < |cost|
  {
    cost[v].Some? ==> cost[v].value <= |Below(cost, cost[v].value)|
  }

  ghost predicate Core(b: Bookkeeping, s: Strategy, adj: seq<seq<nat>>, start: nat) {
    && Adjacency(adj)
    && Shaped(b.cost, b.fScore, s, |adj|)
    && Rooted(b.cost, b.cameFrom, start)
    && Tree(b.cost, b.cameFrom, adj, start)
    && Mirrors(b.cost, b.queue, b.open, b.count)
    && Scored(b.cost, b.fScore, s)
    && Bounded(b.cost)
  }

  /** Every discovered vertex outside the frontier (and outside `except`) has all its neighbours discovered. */
  ghost predicate Closed(cost: seq<Option<nat>>, open: set<nat>, adj: seq<seq<nat>>, except: set<nat>) {
    forall v, j :: 0 <= v < |adj| && 0 <= j < |adj[v]| && v !in except && Reached(cost, v) && v !in open ==>
      Reached(cost, adj[v][j])
  }

  /** Until it is popped, a discovered destination is in the frontier. */
  ghost predicate Pending(cost: seq<Option<nat>>, open: set<nat>, destination: nat) {
    destination < |cost| && (cost[destination].Some? ==> destination in open)
  }

  /** The loop invariant between two iterations. */
  ghost predicate Steady(b: Bookkeeping, s: Strategy, adj: seq<seq<nat>>, start: nat, destination: nat) {
    Core(b, s, adj, start) && Closed(b.cost, b.open, adj, {}) && Pending(b.cost, b.open, destination)
  }

  /**
   * The invariant of the neighbour loop of the popped `current`: the core invariant, all
   * of the frontier closed except `current`, and the first `i` neighbours discovered.
   */
  ghost predicate Expanding(b: Bookkeeping, s: Strategy, adj: seq<seq<nat>>, start: nat, destination: nat, current: nat, i: nat) {
    && Core(b, s, adj, start)
    && Closed(b.cost, b.open, adj, {current}) && Pending(b.cost, b.open, destination)
    && current < |adj| && Reached(b.cost, current) && current !in b.open
    && i <= |adj[current]|
    && forall j :: 0 <= j < i ==> Reached(b.cost, adj[current][j])
  }

  // ---------------------------------------------------------------------------
  // The termination measure

  function Weight(o: Option<nat>, top: nat): nat {
    if o.None? then top else o.value
  }

  ghost function Potential(cost: seq<Option<nat>>, top: nat): nat {
    if |cost| == 0 then 0 else Potential(cost[..|cost| - 1], top) + Weight(cost[|cost| - 1], top)
  }

  /** Costs, counting float("inf") as the vertex count, plus the queue length. */
  ghost function Measure(b: Bookkeeping): nat {
    Potential(b.cost, |b.cost|) + |b.queue|
  }

  lemma {:induction false} PotentialUpdate(cost: seq<Option<nat>>, top: nat, i: nat, o: Option<nat>)
    requires i < |cost|
    ensures Potential(cost[i := o], top) + Weight(cost[i], top) == Potential(cost, top) + Weight(o, top)
  {
    var last := |cost| - 1;
    if i < last {
      assert cost[i := o][..last] == cost[..last][i := o];
      PotentialUpdate(cost[..last], top, i, o);
    } else {
      assert cost[i := o][..last] == cost[..last];
    }
  }
}
