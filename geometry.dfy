/** Grid positions and the Manhattan heuristic used by A*. */
module Geometry {
  /** A `(row, col)` pair, as `Vertex.get_position` gives it. */
  type Position = (int, int)

  function Abs(x: int): (r: nat)
    ensures r == x || r == -x
  {
    if x < 0 then -x else x
  }

  /** `__manhatten_distance`: the sum of the absolute coordinate differences. */
  function Manhattan(a: Position, b: Position): (d: nat)
    ensures d == 0 <==> a == b
    ensures Abs(a.0 - b.0) <= d && Abs(a.1 - b.1) <= d
  {
    Abs(a.0 - b.0) + Abs(a.1 - b.1)
  }

  lemma ManhattanSymmetric(a: Position, b: Position)
    ensures Manhattan(a, b) == Manhattan(b, a)
  {
  }

  /** The distance obeys the triangle inequality (taking `b` and `c` one cell apart bounds the change of the heuristic along an edge). */
  lemma ManhattanTriangle(a: Position, b: Position, c: Position)
    ensures Manhattan(a, c) <= Manhattan(a, b) + Manhattan(b, c)
  {
  }

  /** The position of arena index `v` in a grid with rows of `size` vertices. */
  function CellOf(size: nat, v: nat): (p: Position)
    requires size > 0
    ensures 0 <= p.1 < size && 0 <= p.0 && p.0 * size + p.1 == v
  {
    (v / size, v % size)
  }

  /** The arena index of a `(row, col)` pick lies inside a `size` by `size` grid. */
  lemma IndexInGrid(size: nat, row: nat, col: nat)
    requires row < size && col < size
    ensures row * size + col < size * size
  {
    calc {
      row * size + col;
    <  row * size + size;
    == (row + 1) * size;
    <= { MulMonotone(row + 1, size, size); } size * size;
    }
  }

  lemma MulMonotone(a: nat, b: nat, c: nat)
    requires a <= b
    ensures a * c <= b * c
  {
  }
}
