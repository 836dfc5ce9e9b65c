/**
 * The loop of `dijkstra` and `a_star_search` as a function of the bookkeeping: pop the
 * least entry; stop with success if it is the destination, otherwise relax all of its
 * neighbours and go on; stop with failure when the queue is empty.
 */
module Execution {
  import opened Frontier
  import opened Paths
  import opened Search

  /** A bound on the number of iterations, in unary: each iteration uses up one `More`. */
  datatype Fuel = Empty | More(rest: Fuel)

  function Size(f: Fuel): nat {
    if f.Empty? then 0 else 1 + Size(f.rest)
  }

  /** A bound of exactly `n` iterations. */
  function Supply(n: nat): (f: Fuel)
    ensures Size(f) == n
  {
    if n == 0 then Empty else More(Supply(n - 1))
  }

  /**
   * The outcome of at most `Size(fuel)` iterations of the loop from `b`, and the
   * bookkeeping it stops with. `Pathfinder.Traverse` shows that `Measure` of the initial
   * bookkeeping is always enough iterations, so the bound never cuts a search short.
   */
  ghost function Run(b: Bookkeeping, s: Strategy, adj: seq<seq<nat>>, destination: nat, fuel: Fuel): (r: (Bookkeeping, bool))
    requires Formed(b, s, adj)
    ensures Formed(r.0, s, adj)
    ensures r.1 ==> fuel.More? && |b.queue| > 0
    decreases fuel
  {
    if fuel.Empty? || |b.queue| == 0 then (b, false)
    else
      var popped := Pop(b);
      var current := popped.1;
      if current == destination then (popped.0, true)
      else Run(RelaxAll(popped.0, s, current, adj[current]), s, adj, destination, fuel.rest)
  }

  /** The whole search, from the state before the loop. */
  ghost function Outcome(s: Strategy, adj: seq<seq<nat>>, start: nat, destination: nat): (r: (Bookkeeping, bool))
    requires Adjacency(adj) && start < |adj|
    ensures Formed(r.0, s, adj)
  {
    var b := Init(s, |adj|, start);
    assert forall x :: x in b.queue ==> x.vertex == start;
    Run(b, s, adj, destination, Supply(Measure(b)))
  }

  /** An iteration that pops the destination ends the loop with success. */
  lemma RunFound(b: Bookkeeping, s: Strategy, adj: seq<seq<nat>>, destination: nat, fuel: Fuel)
    requires Formed(b, s, adj) && fuel.More? && |b.queue| > 0 && Pop(b).1 == destination
    ensures Run(b, s, adj, destination, fuel) == (Pop(b).0, true)
  {
  }

  /** An iteration that pops another vertex goes on from the bookkeeping after its expansion. */
  lemma RunNext(b: Bookkeeping, s: Strategy, adj: seq<seq<nat>>, destination: nat, fuel: Fuel, current: nat, b': Bookkeeping)
    requires Formed(b, s, adj) && fuel.More? && |b.queue| > 0
    requires current == Pop(b).1 && current != destination && current < |adj|
    requires b' == RelaxAll(Pop(b).0, s, current, adj[current])
    ensures Formed(b', s, adj)
    ensures Run(b, s, adj, destination, fuel) == Run(b', s, adj, destination, fuel.rest)
  {
    PopFormed(b, s, adj);
    RelaxAllFormed(Pop(b).0, s, adj, current);
  }

  /** Expanding a vertex keeps the bookkeeping well formed: it only queues neighbours. */
  lemma RelaxAllFormed(b: Bookkeeping, s: Strategy, adj: seq<seq<nat>>, current: nat)
    requires Formed(b, s, adj) && current < |adj|
    ensures Formed(RelaxAll(b, s, current, adj[current]), s, adj)
  {
    var r := RelaxAll(b, s, current, adj[current]);
    assert |r.fScore| == |b.fScore|;
  }

  /** Popping keeps the bookkeeping well formed: the rest of the queue is part of the old one. */
  lemma PopFormed(b: Bookkeeping, s: Strategy, adj: seq<seq<nat>>)
    requires Formed(b, s, adj) && |b.queue| > 0
    ensures Formed(Pop(b).0, s, adj) && Pop(b).1 < |adj|
  {
    var (e, rest) := Get(b.queue);
    assert Pop(b).0.queue == rest;
  }
}
