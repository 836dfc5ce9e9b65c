/** Paths in the neighbour relation that `Vertex.neighbors` describes. */
module Paths {
  /** Every neighbour entry names a vertex of the grid. */
  ghost predicate Adjacency(adj: seq<seq<nat>>) {
    forall v, j :: 0 <= v < |adj| && 0 <= j < |adj[v]| ==> adj[v][j] < |adj|
  }

  /** A non-empty walk whose every step goes from a vertex to one of its neighbours. */
  ghost predicate IsPath(adj: seq<seq<nat>>, p: seq<nat>) {
    && |p| > 0
    && (forall i :: 0 <= i < |p| ==> p[i] < |adj|)
    && (forall i :: 0 <= i < |p| - 1 ==> p[i + 1] in adj[p[i]])
  }

  /** `q` read backwards. */
  function Reversed(q: seq<nat>): seq<nat> {
    seq(|q|, i requires 0 <= i < |q| => q[|q| - 1 - i])
  }

  ghost predicate Reachable(adj: seq<seq<nat>>, s: nat, t: nat) {
    exists p :: IsPath(adj, p) && p[0] == s && p[|p| - 1] == t
  }

  /** A path followed by one more step is a path. */
  lemma Extend(adj: seq<seq<nat>>, p: seq<nat>, v: nat)
    requires IsPath(adj, p) && v < |adj| && v in adj[p[|p| - 1]]
    ensures IsPath(adj, p + [v]) && (p + [v])[0] == p[0]
  {
    var q := p + [v];
    forall i | 0 <= i < |q| - 1 ensures q[i + 1] in adj[q[i]] {
      if i < |p| - 1 { assert q[i] == p[i] && q[i + 1] == p[i + 1]; }
    }
  }

  /**
   * A set of vertices that holds `s` and is closed under the neighbour relation holds
   * the end of every path from `s`.
   */
  lemma {:induction false} ClosedHoldsPaths(adj: seq<seq<nat>>, closed: set<nat>, p: seq<nat>)
    requires IsPath(adj, p) && p[0] in closed
    requires forall v, j :: v in closed && 0 <= v < |adj| && 0 <= j < |adj[v]| ==> adj[v][j] in closed
    ensures p[|p| - 1] in closed
  {
    if |p| > 1 {
      var q := p[..|p| - 1];
      assert IsPath(adj, q) by {
        forall i | 0 <= i < |q| - 1 ensures q[i + 1] in adj[q[i]] { assert q[i] == p[i] && q[i + 1] == p[i + 1]; }
      }
      ClosedHoldsPaths(adj, closed, q);
      var u := q[|q| - 1];
      assert p[|p| - 1] in adj[u];
      var j :| 0 <= j < |adj[u]| && adj[u][j] == p[|p| - 1];
    }
  }
}
