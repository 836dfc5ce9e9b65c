/**
 * The `queue.PriorityQueue` of `(key, count, vertex)` triples. The queue is kept as a
 * sequence in insertion order; `Get` removes the entry that is least on the pair
 * `(key, count)`, which is how Python orders the tuples once the counts are distinct.
 */
module Frontier {
  datatype Entry = Entry(key: nat, count: nat, vertex: nat)

  /** Lexicographic order on `(key, count)`. */
  predicate Precedes(a: Entry, b: Entry) {
    a.key < b.key || (a.key == b.key && a.count < b.count)
  }

  /** The position of an entry that no other entry precedes. */
  function ArgMin(q: seq<Entry>): (i: nat)
    requires |q| > 0
    ensures i < |q|
    ensures forall j :: 0 <= j < |q| ==> !Precedes(q[j], q[i])
  {
    if |q| == 1 then 0
    else
      var k := ArgMin(q[..|q| - 1]);
      if Precedes(q[|q| - 1], q[k]) then |q| - 1 else k
  }

  /** `queue.put(e)`: the new entry goes behind every entry already queued, which stay as they were. */
  function Put(q: seq<Entry>, e: Entry): (r: seq<Entry>)
    ensures |r| == |q| + 1 && r[..|q|] == q && r[|q|] == e
  {
    q + [e]
  }

  /** `queue.get()`: the least entry, and the queue without it. */
  function Get(q: seq<Entry>): (r: (Entry, seq<Entry>))
    requires |q| > 0
    ensures r.0 in q && |r.1| == |q| - 1 && forall x :: x in r.1 ==> x in q
    ensures forall x :: x in q ==> !Precedes(x, r.0)
  {
    var i := ArgMin(q);
    (q[i], q[..i] + q[i + 1..])
  }

  /** The vertices that have an entry in the queue. */
  function Vertices(q: seq<Entry>): set<nat> {
    set i | 0 <= i < |q| :: q[i].vertex
  }

  /** No vertex has two entries. */
  ghost predicate DistinctVertices(q: seq<Entry>) {
    forall i, j :: 0 <= i < j < |q| ==> q[i].vertex != q[j].vertex
  }

  /** The counts grow strictly with insertion order and none exceeds the counter `count`. */
  ghost predicate Ticketed(q: seq<Entry>, count: nat) {
    && (forall i :: 0 <= i < |q| ==> q[i].count <= count)
    && (forall i, j :: 0 <= i < j < |q| ==> q[i].count < q[j].count)
  }

  /** Position `k` of the queue with position `i` removed. */
  lemma RemovedAt(q: seq<Entry>, i: nat, k: nat)
    requires i < |q| && k < |q| - 1
    ensures |q[..i] + q[i + 1..]| == |q| - 1
    ensures (q[..i] + q[i + 1..])[k] == if k < i then q[k] else q[k + 1]
  {
  }

  /** Removing one entry takes exactly that entry out of the multiset of entries. */
  lemma RemovedMultiset(q: seq<Entry>, i: nat)
    requires i < |q|
    ensures multiset(q[..i] + q[i + 1..]) + multiset{q[i]} == multiset(q)
  {
    assert q == q[..i] + [q[i]] + q[i + 1..];
  }

  /** Removing one entry keeps the vertices distinct and the tickets ordered. */
  lemma RemovePreserves(q: seq<Entry>, count: nat, i: nat)
    requires i < |q| && Ticketed(q, count) && DistinctVertices(q)
    ensures DistinctVertices(q[..i] + q[i + 1..]) && Ticketed(q[..i] + q[i + 1..], count)
  {
    var rest := q[..i] + q[i + 1..];
    forall k | 0 <= k < |rest| ensures rest[k] == if k < i then q[k] else q[k + 1] {
      RemovedAt(q, i, k);
    }
  }

  /** Removing the entry of a vertex with a single entry removes exactly that vertex. */
  lemma RemoveVertices(q: seq<Entry>, i: nat)
    requires i < |q| && DistinctVertices(q)
    ensures Vertices(q[..i] + q[i + 1..]) == Vertices(q) - {q[i].vertex}
  {
    var rest := q[..i] + q[i + 1..];
    forall k | 0 <= k < |rest| ensures rest[k] == if k < i then q[k] else q[k + 1] {
      RemovedAt(q, i, k);
    }
    forall v | v in Vertices(q) - {q[i].vertex}
      ensures v in Vertices(rest)
    {
      var j :| 0 <= j < |q| && q[j].vertex == v;
      assert rest[if j < i then j else j - 1].vertex == v;
    }
  }

  /**
   * With distinct counts the popped entry strictly precedes every entry left behind,
   * so among entries of equal key the earliest inserted leaves first; the vertex
   * bookkeeping and the ticket order survive the removal.
   */
  lemma GetProperties(q: seq<Entry>, count: nat)
    requires |q| > 0 && Ticketed(q, count) && DistinctVertices(q)
    ensures var (e, rest) := Get(q);
      && e in q
      && |rest| == |q| - 1
      && multiset(rest) + multiset{e} == multiset(q)
      && (forall x :: x in rest ==> Precedes(e, x))
      && (forall x :: x in rest && x.key == e.key ==> e.count < x.count)
      && Vertices(rest) == Vertices(q) - {e.vertex}
      && DistinctVertices(rest)
      && Ticketed(rest, count)
  {
    var i := ArgMin(q);
    var rest := q[..i] + q[i + 1..];
    RemovePreserves(q, count, i);
    RemoveVertices(q, i);
    RemovedMultiset(q, i);
    forall x | x in rest
      ensures Precedes(q[i], x)
    {
      var k :| 0 <= k < |rest| && rest[k] == x;
      RemovedAt(q, i, k);
      var j := if k < i then k else k + 1;
      assert x == q[j] && j != i;
      assert q[j].count != q[i].count;
    }
  }

  /** `queue.put` with a fresh count ticket and a vertex not yet queued keeps the bookkeeping. */
  lemma PutProperties(q: seq<Entry>, count: nat, e: Entry)
    requires Ticketed(q, count) && DistinctVertices(q)
    requires e.count == count + 1 && e.vertex !in Vertices(q)
    ensures Vertices(Put(q, e)) == Vertices(q) + {e.vertex}
    ensures DistinctVertices(Put(q, e))
    ensures Ticketed(Put(q, e), count + 1)
  {
    var p := Put(q, e);
    assert p[|q|] == e;
    forall i | 0 <= i < |q| ensures p[i] == q[i] && q[i].vertex in Vertices(q) { }
    assert Vertices(p) == Vertices(q) + {e.vertex} by {
      forall v | v in Vertices(p) ensures v in Vertices(q) + {e.vertex} {
        var j :| 0 <= j < |p| && p[j].vertex == v;
        if j < |q| { assert q[j].vertex == v; }
      }
    }
  }
}
