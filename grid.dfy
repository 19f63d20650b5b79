/** The evenly spaced interpolation both grid helpers use: the span between the two edges
    divided into n - 1 equal steps, and the i-th sample i steps past the lower edge, on
    exact reals. */
module Grid {

  /** The distance between neighbouring samples: the span divided by one less than the
      number of samples. There is no step for a single sample, where Python's division
      raises, so callers handle that case first. */
  function Step(lo: real, hi: real, n: int): (step: real)
    requires n != 1
    ensures lo + ((n - 1) as real) * step == hi
  {
    var d := (n - 1) as real;
    assert d * ((hi - lo) / d) == hi - lo;
    (hi - lo) / d
  }

  /** The i-th sample, `lo + i * step`. */
  function Sample(lo: real, step: real, i: int): real
  {
    lo + (i as real) * step
  }

  /** The first sample is `lo` and the last is `hi`: both edges are included. */
  lemma Endpoints(lo: real, hi: real, n: int)
    requires n >= 2
    ensures Sample(lo, Step(lo, hi, n), 0) == lo
    ensures Sample(lo, Step(lo, hi, n), n - 1) == hi
  {
  }

  /** Every sample lies between the two edges, whichever of them is larger. */
  lemma Between(lo: real, hi: real, n: int, i: int)
    requires n >= 2 && 0 <= i < n
    ensures lo <= hi ==> lo <= Sample(lo, Step(lo, hi, n), i) <= hi
    ensures hi <= lo ==> hi <= Sample(lo, Step(lo, hi, n), i) <= lo
  {
    var d := (n - 1) as real;
    var step := Step(lo, hi, n);
    assert d * step == hi - lo;
    var t := i as real;
    assert 0.0 <= t <= d;
    if lo <= hi {
      assert step >= 0.0;
      assert t * step >= 0.0;
      assert (d - t) * step >= 0.0;
    } else {
      assert step <= 0.0;
      assert t * step <= 0.0;
      assert (d - t) * step <= 0.0;
    }
  }

  /** Row-major layout: cell (i, j) of an n-column grid sits at `i * n + j`, which lies
      inside the first `rows` rows and past the rows before row i. */
  lemma FlatIndex(i: int, j: int, n: int, rows: int)
    requires 0 <= i < rows && 0 <= j < n
    ensures i * n <= i * n + j < (i + 1) * n <= rows * n
  {
    assert (i + 1) * n == i * n + n;
    MulMonotone(i + 1, rows, n);
  }

  /** Multiplying by a non-negative factor keeps the order: one more row, `n` more cells. */
  lemma {:induction false} MulMonotone(a: int, b: int, n: int)
    requires a <= b && 0 <= n
    ensures a * n <= b * n
    decreases b - a
  {
    if a < b {
      MulMonotone(a + 1, b, n);
      assert (a + 1) * n == a * n + n;
    }
  }

  /** The last cell of an n-by-n grid sits at `n * n - 1`. */
  lemma LastIndex(n: int)
    ensures (n - 1) * n + (n - 1) == n * n - 1
  {
  }

  /** The sample lattice of a grid helper: row i lies at latitude `south + i * latStep`,
      column j at longitude `west + j * lngStep`, and there are `size` of each (none when
      `size <= 0`, as the loops then run no iteration). */
  datatype Lattice = Lattice(south: real, west: real, latStep: real, lngStep: real, size: int)
  {
    /** The lattice over a box with `gridSize` points per side: rows start at the south
        edge and columns at the west edge, each stepping evenly towards the opposite edge. */
    static function Over(north: real, south: real, east: real, west: real, gridSize: int): (g: Lattice)
      requires gridSize != 1
      ensures g.south == south && g.west == west && g.size == gridSize
      ensures g.south + ((gridSize - 1) as real) * g.latStep == north
      ensures g.west + ((gridSize - 1) as real) * g.lngStep == east
    {
      Lattice(south, west, Step(south, north, gridSize), Step(west, east, gridSize), gridSize)
    }

    /** The number of rows, and of columns: the size, or none when it is not positive. */
    function Sides(): nat
    {
      if size > 0 then size else 0
    }

    /** The latitude of row i, `south + i * latStep`. */
    function Lat(i: int): real
    {
      Sample(south, latStep, i)
    }

    /** The longitude of column j, `west + j * lngStep`. */
    function Lng(j: int): real
    {
      Sample(west, lngStep, j)
    }
  }

  /** Every row of a lattice over a box lies between its south and north edges, and every
      column between its west and east edges. */
  lemma LatticeInside(north: real, south: real, east: real, west: real, gridSize: int, i: int, j: int)
    requires gridSize >= 2 && 0 <= i < gridSize && 0 <= j < gridSize
    ensures var g := Lattice.Over(north, south, east, west, gridSize);
      && (south <= north ==> south <= g.Lat(i) <= north)
      && (north <= south ==> north <= g.Lat(i) <= south)
      && (west <= east ==> west <= g.Lng(j) <= east)
      && (east <= west ==> east <= g.Lng(j) <= west)
  {
    Between(south, north, gridSize, i);
    Between(west, east, gridSize, j);
  }

  /** The first row and column sit on the south and west edges, the last on the north and east edges. */
  lemma LatticeCorners(north: real, south: real, east: real, west: real, gridSize: int)
    requires gridSize >= 2
    ensures var g := Lattice.Over(north, south, east, west, gridSize);
      && g.Lat(0) == south && g.Lng(0) == west
      && g.Lat(gridSize - 1) == north && g.Lng(gridSize - 1) == east
  {
    Endpoints(south, north, gridSize);
    Endpoints(west, east, gridSize);
  }
}
