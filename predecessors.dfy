/** The `came_from` predecessor map and the walk `__reconstruct_path` makes over it. */
module Predecessors {
  import opened Wrappers

  /** Each vertex with a predecessor, and the predecessor, have finite costs, the predecessor's strictly smaller. */
  ghost predicate Ranked(cameFrom: map<nat, nat>, cost: seq<Option<nat>>) {
    forall v :: v in cameFrom ==>
      && v < |cost| && cameFrom[v] < |cost|
      && cost[v].Some? && cost[cameFrom[v]].Some?
      && cost[cameFrom[v]].value < cost[v].value
  }

  /**
   * The vertices `__reconstruct_path` visits from `v`: its predecessor, that one's, and so
   * on. The walk takes no more steps than the cost of `v`.
   */
  function Chain(cameFrom: map<nat, nat>, cost: seq<Option<nat>>, v: nat): (r: seq<nat>)
    requires Ranked(cameFrom, cost)
    ensures (r == []) == (v !in cameFrom)
    ensures |r| <= if v in cameFrom then cost[v].value else 0
    decreases if v in cameFrom then cost[v].value else 0
  {
    if v in cameFrom then [cameFrom[v]] + Chain(cameFrom, cost, cameFrom[v]) else []
  }

  /**
   * The chain descends strictly in cost, so it is finite, holds no vertex twice and does
   * not hold `v` itself; each element is the predecessor of the one before it, and the
   * last element has no predecessor.
   */
  lemma {:induction false} ChainDescends(cameFrom: map<nat, nat>, cost: seq<Option<nat>>, v: nat)
    requires Ranked(cameFrom, cost)
    ensures var p := Chain(cameFrom, cost, v);
      && (|p| > 0 <==> v in cameFrom)
      && (|p| > 0 ==> p[0] == cameFrom[v] && p[|p| - 1] !in cameFrom)
      && (forall i :: 0 <= i < |p| - 1 ==> p[i] in cameFrom && p[i + 1] == cameFrom[p[i]])
      && (forall i :: 0 <= i < |p| ==> p[i] < |cost| && cost[p[i]].Some? && cost[v].Some? && cost[p[i]].value < cost[v].value)
      && (forall i, j :: 0 <= i < j < |p| ==> cost[p[j]].value < cost[p[i]].value)
      && v !in p
    decreases if v in cameFrom then cost[v].value else 0
  {
    var p := Chain(cameFrom, cost, v);
    if v in cameFrom {
      var u := cameFrom[v];
      var tail := Chain(cameFrom, cost, u);
      ChainDescends(cameFrom, cost, u);
      assert p == [u] + tail;
      forall i | 0 <= i < |p| - 1 ensures p[i] in cameFrom && p[i + 1] == cameFrom[p[i]] {
        if i == 0 { assert |tail| > 0; } else { assert p[i] == tail[i - 1] && p[i + 1] == tail[i]; }
      }
      forall i | 0 <= i < |p| ensures p[i] < |cost| && cost[p[i]].Some? && cost[p[i]].value < cost[v].value {
        if i > 0 { assert p[i] == tail[i - 1]; }
      }
      forall i, j | 0 <= i < j < |p| ensures cost[p[j]].value < cost[p[i]].value {
        assert p[j] == tail[j - 1];
        if i > 0 { assert p[i] == tail[i - 1]; }
      }
    }
  }
}
