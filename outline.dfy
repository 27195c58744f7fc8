/**
 * The base-outline helpers of `moai_analyzer_final.py`: boundary cells of an
 * occupancy grid laid over the footprint seen from above, their greedy
 * nearest-neighbour ordering, and a circular moving-average smoothing.
 *
 * The three helpers are loops over numpy arrays in the source; here each is
 * a method with invariants, proved against a reference definition.
 */
module Outline {
  import opened Geometry

  /** Margin added on every side of the occupancy grid. */
  const PADDING: real := 0.02

  /**
   * `np.linspace(lo, hi, num)`: `lo + k * step` with `step = (hi - lo) / (num - 1)`,
   * the last sample set to `hi` exactly, and `[lo]` for a single sample.
   */
  function Linspace(lo: real, hi: real, num: nat): (r: seq<real>)
    ensures |r| == num
    ensures num >= 1 ==> r[0] == lo
    ensures num >= 2 ==> r[num - 1] == hi
    ensures num >= 2 ==> forall k :: 0 <= k < num - 1 ==> r[k + 1] - r[k] == (hi - lo) / ((num - 1) as real)
  {
    if num == 0 then []
    else if num == 1 then [lo]
    else
      var step := (hi - lo) / ((num - 1) as real);
      var r := seq(num, k requires 0 <= k < num => if k == num - 1 then hi else lo + (k as real) * step);
      EvenSteps(lo, hi, num, r);
      r
  }

  /** Samples `lo + k * step` that end at `hi` are `step` apart, the last one included. */
  lemma EvenSteps(lo: real, hi: real, num: nat, r: seq<real>)
    requires num >= 2 && |r| == num && r[num - 1] == hi
    requires forall k :: 0 <= k < num - 1 ==> r[k] == lo + (k as real) * ((hi - lo) / ((num - 1) as real))
    ensures forall k :: 0 <= k < num - 1 ==> r[k + 1] - r[k] == (hi - lo) / ((num - 1) as real)
  {
    var step := (hi - lo) / ((num - 1) as real);
    assert ((num - 1) as real) * step == hi - lo;
    forall k | 0 <= k < num - 1
      ensures r[k + 1] - r[k] == step
    {
      if k + 1 < num - 1 {
        assert ((k + 1) as real) * step == (k as real) * step + step;
      } else {
        assert (k as real) * step == ((num - 1) as real) * step - step;
      }
    }
  }

  /** An increasing range gives strictly increasing samples, so a binary search over them is a scan. */
  lemma LinspaceIncreasing(lo: real, hi: real, num: nat, k: nat, l: nat)
    requires lo < hi && k < l < num
    ensures Linspace(lo, hi, num)[k] < Linspace(lo, hi, num)[l]
  {
    var r := Linspace(lo, hi, num);
    var step := (hi - lo) / ((num - 1) as real);
    assert step > 0.0;
    assert Mul(k as real, step) == (k as real) * step;
    if l == num - 1 {
      assert (num - 1) as real * step == hi - lo;
      MulLe(k as real, (num - 2) as real, step);
      assert Mul((num - 2) as real, step) == (num - 1) as real * step - step;
    } else {
      assert Mul(l as real, step) == (l as real) * step;
      MulLe(k as real, (l - 1) as real, step);
      assert Mul((l - 1) as real, step) == (l as real) * step - step;
    }
  }

  /**
   * `np.searchsorted(a, v)` (side `left`) on increasing `a`: the first index
   * whose sample is at least `v`, or `|a|` when there is none.
   */
  function SearchSorted(a: seq<real>, v: real): (i: nat)
    ensures i <= |a|
    ensures forall k :: 0 <= k < i ==> a[k] < v
    ensures i < |a| ==> a[i] >= v
  {
    if |a| == 0 then 0
    else if a[0] >= v then 0
    else 1 + SearchSorted(a[1..], v)
  }

  /** The bin edges along X and Z, and the number of cells per side (`resolution - 1`). */
  datatype Grid = Grid(xBins: seq<real>, zBins: seq<real>, n: nat)

  function MakeGrid(ps: seq<Point2>, resolution: nat): (g: Grid)
    requires |ps| > 0 && resolution >= 1
    ensures |g.xBins| == |g.zBins| == resolution == g.n + 1
    ensures var r := BoundingRect(ps);
      g.xBins[0] == r.xMin - PADDING && g.zBins[0] == r.zMin - PADDING &&
      (resolution >= 2 ==> g.xBins[g.n] == r.xMax + PADDING && g.zBins[g.n] == r.zMax + PADDING)
  {
    var r := BoundingRect(ps);
    Grid(Linspace(r.xMin - PADDING, r.xMax + PADDING, resolution),
         Linspace(r.zMin - PADDING, r.zMax + PADDING, resolution),
         resolution - 1)
  }

  /** A grid cell: row `i` is the Z index, column `j` the X index, as in `grid[z_idx, x_idx]`. */
  datatype Cell = Cell(i: int, j: int)

  /** `(searchsorted(z_bins, z) - 1, searchsorted(x_bins, x) - 1)` */
  function CellOf(g: Grid, p: Point2): Cell {
    Cell(SearchSorted(g.zBins, p.z) - 1, SearchSorted(g.xBins, p.x) - 1)
  }

  predicate InGrid(g: Grid, i: int, j: int) {
    0 <= i < g.n && 0 <= j < g.n
  }

  /** Some point among the first `k` falls in cell `(i, j)` of the grid. */
  predicate OccupiedBy(ps: seq<Point2>, g: Grid, k: nat, i: int, j: int)
    requires k <= |ps|
  {
    InGrid(g, i, j) && exists t :: 0 <= t < k && CellOf(g, ps[t]) == Cell(i, j)
  }

  predicate Occupied(ps: seq<Point2>, g: Grid, i: int, j: int) {
    OccupiedBy(ps, g, |ps|, i, j)
  }

  /** One of the eight neighbour offsets. */
  predicate Offset(a: int, b: int) {
    -1 <= a <= 1 && -1 <= b <= 1 && !(a == 0 && b == 0)
  }

  /** The neighbour at offset `(a, b)` is off the grid or empty. */
  predicate NeighbourEmpty(ps: seq<Point2>, g: Grid, i: int, j: int, a: int, b: int) {
    !InGrid(g, i + a, j + b) || !Occupied(ps, g, i + a, j + b)
  }

  /** An occupied cell with at least one empty or missing neighbour. */
  predicate IsBoundary(ps: seq<Point2>, g: Grid, i: int, j: int) {
    Occupied(ps, g, i, j) &&
    exists a, b | -1 <= a <= 1 && -1 <= b <= 1 :: Offset(a, b) && NeighbourEmpty(ps, g, i, j, a, b)
  }

  /** The boundary cells among `(i, 0)`, ..., `(i, j - 1)`, left to right. */
  function RowCells(ps: seq<Point2>, g: Grid, i: int, j: nat): seq<Cell>
    decreases j
  {
    if j == 0 then []
    else RowCells(ps, g, i, j - 1) + (if IsBoundary(ps, g, i, j - 1) then [Cell(i, j - 1)] else [])
  }

  /** The boundary cells of rows `0`, ..., `i - 1`, in the row-major order of the scan. */
  function Rows(ps: seq<Point2>, g: Grid, i: nat): seq<Cell> {
    if i == 0 then [] else Rows(ps, g, i - 1) + RowCells(ps, g, i - 1, g.n)
  }

  function BoundaryCells(ps: seq<Point2>, g: Grid): seq<Cell> {
    Rows(ps, g, g.n)
  }

  predicate CellOnGrid(g: Grid, c: Cell) {
    InGrid(g, c.i, c.j) && c.j + 1 < |g.xBins| && c.i + 1 < |g.zBins|
  }

  predicate OnGrid(g: Grid, cs: seq<Cell>) {
    forall c :: c in cs ==> CellOnGrid(g, c)
  }

  /** `((x_bins[j] + x_bins[j+1]) / 2, (z_bins[i] + z_bins[i+1]) / 2)` */
  function Centre(g: Grid, c: Cell): Point2
    requires CellOnGrid(g, c)
  {
    Point2((g.xBins[c.j] + g.xBins[c.j + 1]) / 2.0, (g.zBins[c.i] + g.zBins[c.i + 1]) / 2.0)
  }

  function Centres(g: Grid, cs: seq<Cell>): (r: seq<Point2>)
    requires OnGrid(g, cs)
    ensures |r| == |cs|
    ensures forall k :: 0 <= k < |cs| ==> r[k] == Centre(g, cs[k])
  {
    seq(|cs|, k requires 0 <= k < |cs| => Centre(g, cs[k]))
  }

  lemma {:induction false} RowCellsMembers(ps: seq<Point2>, g: Grid, i: int, j: nat, c: Cell)
    ensures c in RowCells(ps, g, i, j) <==> c.i == i && 0 <= c.j < j && IsBoundary(ps, g, i, c.j)
  {
    if j > 0 {
      RowCellsMembers(ps, g, i, j - 1, c);
      RowCellsStep(ps, g, i, j, c);
    }
  }

  lemma RowCellsStep(ps: seq<Point2>, g: Grid, i: int, j: nat, c: Cell)
    requires j > 0
    ensures c in RowCells(ps, g, i, j) <==>
      c in RowCells(ps, g, i, j - 1) || (c == Cell(i, j - 1) && IsBoundary(ps, g, i, j - 1))
  {
    var tail := if IsBoundary(ps, g, i, j - 1) then [Cell(i, j - 1)] else [];
    assert RowCells(ps, g, i, j) == RowCells(ps, g, i, j - 1) + tail;
  }

  /** The cells of the first `i` rows are exactly their boundary cells. */
  lemma {:induction false} RowsMembers(ps: seq<Point2>, g: Grid, i: nat, c: Cell)
    ensures c in Rows(ps, g, i) <==> 0 <= c.i < i && 0 <= c.j < g.n && IsBoundary(ps, g, c.i, c.j)
  {
    if i > 0 {
      RowsMembers(ps, g, i - 1, c);
      RowCellsMembers(ps, g, i - 1, g.n, c);
    }
  }

  /** The boundary cells of a grid built by `MakeGrid` all have a centre. */
  lemma BoundaryCellsOnGrid(ps: seq<Point2>, g: Grid)
    requires |g.xBins| == g.n + 1 && |g.zBins| == g.n + 1
    ensures OnGrid(g, BoundaryCells(ps, g))
  {
    forall c | c in BoundaryCells(ps, g)
      ensures CellOnGrid(g, c)
    {
      RowsMembers(ps, g, g.n, c);
    }
  }

  /** Every boundary cell is found, and nothing else is. */
  lemma BoundaryCellsExact(ps: seq<Point2>, g: Grid, c: Cell)
    ensures c in BoundaryCells(ps, g) <==> InGrid(g, c.i, c.j) && IsBoundary(ps, g, c.i, c.j)
  {
    RowsMembers(ps, g, g.n, c);
  }

  /** Thanks to the padding, every point lands inside the grid. */
  lemma PaddingKeepsPointsInGrid(ps: seq<Point2>, resolution: nat, t: nat)
    requires |ps| > 0 && resolution >= 2 && t < |ps|
    ensures var g := MakeGrid(ps, resolution);
      InGrid(g, CellOf(g, ps[t]).i, CellOf(g, ps[t]).j)
  {
    var g := MakeGrid(ps, resolution);
    var r := BoundingRect(ps);
    assert Contains(r, ps[t].x, ps[t].z);
    var xi := SearchSorted(g.xBins, ps[t].x);
    var zi := SearchSorted(g.zBins, ps[t].z);
    assert g.xBins[0] < ps[t].x && g.zBins[0] < ps[t].z;
    assert g.xBins[g.n] > ps[t].x && g.zBins[g.n] > ps[t].z;
  }

  /** Every point marks its own cell as occupied. */
  lemma PointCellOccupied(ps: seq<Point2>, resolution: nat, t: nat)
    requires |ps| > 0 && resolution >= 2 && t < |ps|
    ensures var g := MakeGrid(ps, resolution);
      Occupied(ps, g, CellOf(g, ps[t]).i, CellOf(g, ps[t]).j)
  {
    PaddingKeepsPointsInGrid(ps, resolution, t);
  }

  /**
   * `find_boundary_points`: mark the cell of every point, then scan the
   * cells row by row and keep the centre of each occupied cell that has an
   * empty or missing neighbour, stopping the neighbour scan at the first one.
   */
  method FindBoundaryPoints(ps: seq<Point2>, resolution: nat) returns (r: seq<Point2>)
    requires |ps| > 0 && resolution >= 1
    ensures var g := MakeGrid(ps, resolution);
      OnGrid(g, BoundaryCells(ps, g)) &&
      r == Centres(g, BoundaryCells(ps, g))
  {
    var g := MakeGrid(ps, resolution);
    var n := g.n;
    var grid := FillGrid(ps, g);
    r := [];
    var i := 0;
    while i < n
      invariant 0 <= i <= n
      invariant Marks(ps, g, grid)
      invariant OnGrid(g, Rows(ps, g, i))
      invariant r == Centres(g, Rows(ps, g, i))
    {
      var row := ScanRow(ps, g, grid, i);
      assert Rows(ps, g, i + 1) == Rows(ps, g, i) + RowCells(ps, g, i, n);
      CentresAppend(g, Rows(ps, g, i), RowCells(ps, g, i, n));
      r := r + row;
      i := i + 1;
    }
  }

  lemma CentresAppend(g: Grid, a: seq<Cell>, b: seq<Cell>)
    requires OnGrid(g, a + b)
    ensures Centres(g, a + b) == Centres(g, a) + Centres(g, b)
  {
  }

  /** One row of the scan: the centres of its boundary cells, left to right. */
  method ScanRow(ps: seq<Point2>, g: Grid, grid: array2<bool>, i: int) returns (pts: seq<Point2>)
    requires |g.xBins| == g.n + 1 && |g.zBins| == g.n + 1 && 0 <= i < g.n
    requires Marks(ps, g, grid)
    ensures OnGrid(g, RowCells(ps, g, i, g.n))
    ensures pts == Centres(g, RowCells(ps, g, i, g.n))
  {
    pts := [];
    var j := 0;
    while j < g.n
      invariant 0 <= j <= g.n
      invariant OnGrid(g, RowCells(ps, g, i, j))
      invariant pts == Centres(g, RowCells(ps, g, i, j))
    {
      var isBoundary := ScanCell(ps, g, grid, i, j);
      RowStep(ps, g, i, j);
      if isBoundary {
        pts := pts + [Centre(g, Cell(i, j))];
      }
      j := j + 1;
    }
  }

  /** `if grid[i, j]:` and then the neighbour check: whether `(i, j)` is a boundary cell. */
  method ScanCell(ps: seq<Point2>, g: Grid, grid: array2<bool>, i: int, j: int) returns (isBoundary: bool)
    requires Marks(ps, g, grid) && InGrid(g, i, j)
    ensures isBoundary <==> IsBoundary(ps, g, i, j)
  {
    isBoundary := false;
    if grid[i, j] {
      isBoundary := NeighbourScan(ps, g, grid, i, j);
    }
  }

  /** Scanning one more cell of a row appends that cell's centre when it is a boundary cell. */
  lemma RowStep(ps: seq<Point2>, g: Grid, i: int, j: nat)
    requires |g.xBins| == g.n + 1 && |g.zBins| == g.n + 1 && 0 <= i < g.n && j < g.n
    requires OnGrid(g, RowCells(ps, g, i, j))
    ensures OnGrid(g, RowCells(ps, g, i, j + 1))
    ensures Centres(g, RowCells(ps, g, i, j + 1)) ==
      Centres(g, RowCells(ps, g, i, j)) + (if IsBoundary(ps, g, i, j) then [Centre(g, Cell(i, j))] else [])
  {
    var tail := if IsBoundary(ps, g, i, j) then [Cell(i, j)] else [];
    assert RowCells(ps, g, i, j + 1) == RowCells(ps, g, i, j) + tail;
    CentresAppend(g, RowCells(ps, g, i, j), tail);
  }

  /** `grid` holds the occupancy of every cell. */
  predicate Marks(ps: seq<Point2>, g: Grid, grid: array2<bool>)
    reads grid
  {
    grid.Length0 == g.n && grid.Length1 == g.n &&
    forall i, j :: 0 <= i < g.n && 0 <= j < g.n ==> (grid[i, j] <==> Occupied(ps, g, i, j))
  }

  /** The occupancy grid: `grid[z_idx, x_idx] = True` for the cell of every point that falls inside. */
  method FillGrid(ps: seq<Point2>, g: Grid) returns (grid: array2<bool>)
    ensures fresh(grid) && Marks(ps, g, grid)
  {
    var n := g.n;
    grid := new bool[n, n]((_, _) => false);
    var t := 0;
    while t < |ps|
      invariant 0 <= t <= |ps|
      invariant forall i, j :: 0 <= i < n && 0 <= j < n ==> (grid[i, j] <==> OccupiedBy(ps, g, t, i, j))
    {
      var xIdx := SearchSorted(g.xBins, ps[t].x) - 1;
      var zIdx := SearchSorted(g.zBins, ps[t].z) - 1;
      if 0 <= xIdx < n && 0 <= zIdx < n {
        grid[zIdx, xIdx] := true;
      }
      t := t + 1;
    }
  }

  /** The two nested `for di ... for dj ...` loops with their `break`s. */
  method NeighbourScan(ps: seq<Point2>, g: Grid, grid: array2<bool>, i: int, j: int) returns (isBoundary: bool)
    requires Marks(ps, g, grid) && InGrid(g, i, j)
    ensures isBoundary <==> exists a, b | -1 <= a <= 1 && -1 <= b <= 1 :: Offset(a, b) && NeighbourEmpty(ps, g, i, j, a, b)
  {
    isBoundary := false;
    var di := -1;
    while di <= 1 && !isBoundary
      invariant -1 <= di <= 2
      decreases 2 - di, if isBoundary then 0 else 1
      invariant isBoundary ==> exists a, b | -1 <= a <= 1 && -1 <= b <= 1 :: Offset(a, b) && NeighbourEmpty(ps, g, i, j, a, b)
      invariant !isBoundary ==> forall a, b :: -1 <= a < di && -1 <= b <= 1 && Offset(a, b) ==> !NeighbourEmpty(ps, g, i, j, a, b)
    {
      var dj := -1;
      while dj <= 1 && !isBoundary
        invariant -1 <= dj <= 2
        invariant isBoundary ==> exists a, b | -1 <= a <= 1 && -1 <= b <= 1 :: Offset(a, b) && NeighbourEmpty(ps, g, i, j, a, b)
        invariant !isBoundary ==> forall a, b :: -1 <= a < di && -1 <= b <= 1 && Offset(a, b) ==> !NeighbourEmpty(ps, g, i, j, a, b)
        invariant !isBoundary ==> forall b :: -1 <= b < dj && Offset(di, b) ==> !NeighbourEmpty(ps, g, i, j, di, b)
      {
        if !(di == 0 && dj == 0) {
          var ni, nj := i + di, j + dj;
          if 0 <= ni < g.n && 0 <= nj < g.n {
            if !grid[ni, nj] {
              isBoundary := true;
              assert Offset(di, dj) && NeighbourEmpty(ps, g, i, j, di, dj);
            }
          } else {
            isBoundary := true;
            assert Offset(di, dj) && NeighbourEmpty(ps, g, i, j, di, dj);
          }
        }
        dj := dj + 1;
      }
      if !isBoundary {
        di := di + 1;
      }
    }
  }

  /** `np.argmin`: the first index of a smallest element. */
  function ArgMin(s: seq<real>): (k: nat)
    requires |s| > 0
    ensures k < |s|
    ensures forall t :: 0 <= t < |s| ==> s[k] <= s[t]
    ensures forall t :: 0 <= t < k ==> s[t] > s[k]
  {
    if |s| == 1 then 0
    else
      var k := ArgMin(s[1..]);
      if s[0] <= s[k + 1] then 0 else k + 1
  }

  /**
   * The squared length of `p - q`. The ordering compares Euclidean norms;
   * the square root is increasing, so comparing squares picks the same point.
   */
  function SquaredDistance(p: Point2, q: Point2): real {
    (p.x - q.x) * (p.x - q.x) + (p.z - q.z) * (p.z - q.z)
  }

  /**
   * `list.remove(x)`: drop one occurrence of `x`, the first one (see
   * `RemoveFirstOccurrence`). Python raises `ValueError` for an absent `x`;
   * both calls remove an index still in the list.
   */
  function Remove(s: seq<nat>, x: nat): (r: seq<nat>)
    requires x in s
    ensures |r| == |s| - 1
    ensures multiset(r) == multiset(s) - multiset{x}
    ensures forall y :: y in r ==> y in s
  {
    assert s == [s[0]] + s[1..];
    if s[0] == x then s[1..]
    else [s[0]] + Remove(s[1..], x)
  }

  lemma {:induction false} RemoveFirstOccurrence(s: seq<nat>, k: nat)
    requires k < |s| && forall t :: 0 <= t < k ==> s[t] != s[k]
    ensures Remove(s, s[k]) == s[..k] + s[k + 1..]
  {
    if k == 0 {
      assert s[..0] + s[1..] == s[1..];
    } else {
      var t := s[1..];
      assert t[k - 1] == s[k];
      RemoveFirstOccurrence(t, k - 1);
      assert Remove(s, s[k]) == [s[0]] + Remove(t, s[k]);
      assert t[..k - 1] == s[1..k] && t[k..] == s[k + 1..];
      ConcatAssoc([s[0]], s[1..k], s[k + 1..]);
      assert [s[0]] + s[1..k] == s[..k];
    }
  }

  /** `[0, 1, ..., n - 1]` */
  function Range(n: nat): (r: seq<nat>)
    ensures |r| == n && forall t :: 0 <= t < n ==> r[t] == t
  {
    seq(n, t requires 0 <= t < n => t)
  }

  predicate Increasing(s: seq<nat>) {
    forall a, b :: 0 <= a < b < |s| ==> s[a] < s[b]
  }

  predicate Indices(ix: seq<nat>, n: nat) {
    forall t :: 0 <= t < |ix| ==> ix[t] < n
  }

  /** `boundary_points[ix]`: fancy indexing. */
  function Pick(ps: seq<Point2>, ix: seq<nat>): (r: seq<Point2>)
    requires Indices(ix, |ps|)
    ensures |r| == |ix| && forall t :: 0 <= t < |ix| ==> r[t] == ps[ix[t]]
  {
    seq(|ix|, t requires 0 <= t < |ix| => ps[ix[t]])
  }

  /** Points are at least as far from `ps[ord[k]]` as its successor in `ord`, when they come later. */
  predicate GreedyOrder(ps: seq<Point2>, ord: seq<nat>)
    requires Indices(ord, |ps|)
  {
    forall k, l :: 0 <= k < l < |ord| && k + 1 < |ord| ==>
      SquaredDistance(ps[ord[k + 1]], ps[ord[k]]) <= SquaredDistance(ps[ord[l]], ps[ord[k]])
  }

  /** The distances from `ps[current]` to the points still to visit, in list order. */
  function Distances(ps: seq<Point2>, remaining: seq<nat>, current: nat): (d: seq<real>)
    requires Indices(remaining, |ps|) && current < |ps|
    ensures |d| == |remaining|
    ensures forall t :: 0 <= t < |d| ==> d[t] == SquaredDistance(ps[remaining[t]], ps[current])
  {
    seq(|remaining|, t requires 0 <= t < |remaining| => SquaredDistance(ps[remaining[t]], ps[current]))
  }

  /** The taken and the remaining indices together pick every point exactly once. */
  predicate Permutes(ps: seq<Point2>, ordered: seq<nat>, remaining: seq<nat>) {
    Indices(ordered, |ps|) && Indices(remaining, |ps|) &&
    multiset(Pick(ps, ordered)) + multiset(Pick(ps, remaining)) == multiset(ps)
  }

  /** Each taken point's successor is at least as close to it as any point still left. */
  predicate CloserThanRest(ps: seq<Point2>, ordered: seq<nat>, remaining: seq<nat>)
    requires Indices(ordered, |ps|) && Indices(remaining, |ps|)
  {
    forall k, x :: 0 <= k < |ordered| - 1 && x in remaining ==>
      SquaredDistance(ps[ordered[k + 1]], ps[ordered[k]]) <= SquaredDistance(ps[x], ps[ordered[k]])
  }

  /**
   * What holds between two steps of the ordering loop: the taken and the
   * remaining indices together are a permutation of all points, the
   * remaining ones are still in increasing order, and each taken point's
   * successor is at least as close as anything taken after it or left.
   */
  predicate OrderingInvariant(ps: seq<Point2>, ordered: seq<nat>, remaining: seq<nat>, startIdx: nat) {
    Permutes(ps, ordered, remaining) && Increasing(remaining) &&
    |ordered| >= 1 && ordered[0] == startIdx &&
    GreedyOrder(ps, ordered) && CloserThanRest(ps, ordered, remaining)
  }

  lemma PickSplit(ps: seq<Point2>, a: seq<nat>, b: seq<nat>)
    requires Indices(a, |ps|) && Indices(b, |ps|)
    ensures Indices(a + b, |ps|) && Pick(ps, a + b) == Pick(ps, a) + Pick(ps, b)
  {
  }

  /** Moving the `pos`-th remaining index to the taken ones keeps the permutation. */
  lemma TakeKeepsPermutation(ps: seq<Point2>, ordered: seq<nat>, remaining: seq<nat>, pos: nat)
    requires Permutes(ps, ordered, remaining) && pos < |remaining|
    ensures Permutes(ps, ordered + [remaining[pos]], remaining[..pos] + remaining[pos + 1..])
  {
    var x := remaining[pos];
    assert remaining == remaining[..pos] + [x] + remaining[pos + 1..];
    PickSplit(ps, remaining[..pos] + [x], remaining[pos + 1..]);
    PickSplit(ps, remaining[..pos], [x]);
    PickSplit(ps, remaining[..pos], remaining[pos + 1..]);
    PickSplit(ps, ordered, [x]);
  }

  /** Appending a point that was closer than all the rest keeps the greedy order. */
  lemma AppendKeepsGreedy(ps: seq<Point2>, ordered: seq<nat>, remaining: seq<nat>, x: nat)
    requires Indices(ordered, |ps|) && Indices(remaining, |ps|) && x in remaining
    requires GreedyOrder(ps, ordered) && CloserThanRest(ps, ordered, remaining)
    ensures Indices(ordered + [x], |ps|) && GreedyOrder(ps, ordered + [x])
  {
    var ord := ordered + [x];
    forall k, l | 0 <= k < l < |ord| && k + 1 < |ord|
      ensures SquaredDistance(ps[ord[k + 1]], ps[ord[k]]) <= SquaredDistance(ps[ord[l]], ps[ord[k]])
    {
      if l < |ordered| {
        assert ord[k] == ordered[k] && ord[k + 1] == ordered[k + 1] && ord[l] == ordered[l];
      } else if k + 1 < l {
        assert ord[k] == ordered[k] && ord[k + 1] == ordered[k + 1] && ord[l] == x;
      }
    }
  }

  /** Taking the nearest remaining point keeps every successor closer than what is left. */
  lemma TakeNearestKeepsCloser(ps: seq<Point2>, ordered: seq<nat>, remaining: seq<nat>, pos: nat)
    requires Indices(ordered, |ps|) && Indices(remaining, |ps|) && |ordered| >= 1 && pos < |remaining|
    requires CloserThanRest(ps, ordered, remaining)
    requires var d := Distances(ps, remaining, ordered[|ordered| - 1]);
      forall t :: 0 <= t < |d| ==> d[pos] <= d[t]
    ensures var ord, rest := ordered + [remaining[pos]], remaining[..pos] + remaining[pos + 1..];
      Indices(ord, |ps|) && Indices(rest, |ps|) && CloserThanRest(ps, ord, rest)
  {
    var x := remaining[pos];
    var current := ordered[|ordered| - 1];
    var d := Distances(ps, remaining, current);
    var rest := remaining[..pos] + remaining[pos + 1..];
    var ord := ordered + [x];
    forall k, y | 0 <= k < |ord| - 1 && y in rest
      ensures SquaredDistance(ps[ord[k + 1]], ps[ord[k]]) <= SquaredDistance(ps[y], ps[ord[k]])
    {
      var t :| 0 <= t < |rest| && rest[t] == y;
      var u := if t < pos then t else t + 1;
      assert remaining[u] == y;
      if k < |ordered| - 1 {
        assert ord[k] == ordered[k] && ord[k + 1] == ordered[k + 1];
      } else {
        assert ord[k] == current && ord[k + 1] == x;
        assert d[u] == SquaredDistance(ps[y], ps[current]);
      }
    }
  }

  /** One iteration of the `while remaining:` loop keeps the invariant. */
  lemma NearestStep(ps: seq<Point2>, ordered: seq<nat>, remaining: seq<nat>, startIdx: nat, pos: nat)
    requires OrderingInvariant(ps, ordered, remaining, startIdx)
    requires pos < |remaining|
    requires var d := Distances(ps, remaining, ordered[|ordered| - 1]);
      forall t :: 0 <= t < |d| ==> d[pos] <= d[t]
    ensures OrderingInvariant(ps, ordered + [remaining[pos]], Remove(remaining, remaining[pos]), startIdx)
  {
    RemoveFirstOccurrence(remaining, pos);
    TakeKeepsPermutation(ps, ordered, remaining, pos);
    AppendKeepsGreedy(ps, ordered, remaining, remaining[pos]);
    TakeNearestKeepsCloser(ps, ordered, remaining, pos);
  }

  /** Before the loop: the leftmost point is taken and every other index remains. */
  lemma StartOrdering(ps: seq<Point2>, startIdx: nat)
    requires startIdx < |ps|
    ensures Range(|ps|)[startIdx] == startIdx &&
      OrderingInvariant(ps, [startIdx], Remove(Range(|ps|), startIdx), startIdx)
  {
    var all := Range(|ps|);
    var rest := all[..startIdx] + all[startIdx + 1..];
    StartPermutes(ps, startIdx);
    RangeWithoutIncreasing(|ps|, startIdx);
    assert Remove(all, startIdx) == rest by {
      RemoveFirstOccurrence(all, startIdx);
    }
    assert GreedyOrder(ps, [startIdx]);
    assert CloserThanRest(ps, [startIdx], rest);
  }

  lemma StartPermutes(ps: seq<Point2>, startIdx: nat)
    requires startIdx < |ps|
    ensures var all := Range(|ps|);
      Permutes(ps, [startIdx], all[..startIdx] + all[startIdx + 1..])
  {
    var all := Range(|ps|);
    assert Pick(ps, all) == ps;
    assert Pick(ps, []) == [];
    TakeKeepsPermutation(ps, [], all, startIdx);
    assert [] + [all[startIdx]] == [startIdx];
  }

  lemma RangeWithoutIncreasing(n: nat, k: nat)
    requires k < n
    ensures Increasing(Range(n)[..k] + Range(n)[k + 1..])
  {
    var all := Range(n);
    var rest := all[..k] + all[k + 1..];
    assert forall t :: 0 <= t < |rest| ==> rest[t] == if t < k then t else t + 1;
  }

  /** After the loop: the picked points are a greedy permutation starting at `startIdx`. */
  lemma FinishOrdering(ps: seq<Point2>, ordered: seq<nat>, startIdx: nat)
    requires OrderingInvariant(ps, ordered, [], startIdx)
    ensures var r := Pick(ps, ordered);
      |r| == |ps| && multiset(r) == multiset(ps) && r[0] == ps[startIdx] &&
      forall k, l :: 0 <= k < l < |r| && k + 1 < |r| ==>
        SquaredDistance(r[k + 1], r[k]) <= SquaredDistance(r[l], r[k])
  {
    assert Pick(ps, []) == [];
    var r := Pick(ps, ordered);
    assert |multiset(r)| == |r| && |multiset(ps)| == |ps|;
  }

  /**
   * `order_boundary_points`: start at the leftmost point (the first one on a
   * tie) and repeatedly move to the nearest point not taken yet (the first in
   * list order on a tie). Fewer than three points are returned unchanged.
   */
  method OrderBoundaryPoints(ps: seq<Point2>) returns (r: seq<Point2>)
    ensures |ps| < 3 ==> r == ps
    ensures |r| == |ps| && multiset(r) == multiset(ps)
    ensures |ps| >= 3 ==> forall t :: 0 <= t < |ps| ==> r[0].x <= ps[t].x
    ensures |ps| >= 3 ==> forall k, l :: 0 <= k < l < |r| && k + 1 < |r| ==>
      SquaredDistance(r[k + 1], r[k]) <= SquaredDistance(r[l], r[k])
  {
    if |ps| < 3 {
      return ps;
    }
    var startIdx := ArgMin(XsOf(ps));
    assert forall t :: 0 <= t < |ps| ==> ps[startIdx].x <= ps[t].x by {
      assert forall t :: 0 <= t < |ps| ==> XsOf(ps)[startIdx] <= XsOf(ps)[t];
    }
    var ordered := NearestNeighbourWalk(ps, startIdx);
    FinishOrdering(ps, ordered, startIdx);
    r := Pick(ps, ordered);
  }

  /** The `while remaining:` loop: visit every index, always moving to the nearest one left. */
  method NearestNeighbourWalk(ps: seq<Point2>, startIdx: nat) returns (ordered: seq<nat>)
    requires startIdx < |ps|
    ensures OrderingInvariant(ps, ordered, [], startIdx)
  {
    ordered := [];
    var remaining := Range(|ps|);
    var current := startIdx;
    ordered := ordered + [current];
    StartOrdering(ps, startIdx);
    remaining := Remove(remaining, current);
    while |remaining| > 0
      invariant OrderingInvariant(ps, ordered, remaining, startIdx)
      invariant current == ordered[|ordered| - 1]
      decreases |remaining|
    {
      var distances := Distances(ps, remaining, current);
      var pos := ArgMin(distances);
      var nearest := remaining[pos];
      NearestStep(ps, ordered, remaining, startIdx, pos);
      ordered := ordered + [nearest];
      remaining := Remove(remaining, nearest);
      current := nearest;
    }
  }

  function SumX(s: seq<Point2>): real {
    if |s| == 0 then 0.0 else SumX(s[..|s| - 1]) + s[|s| - 1].x
  }

  function SumZ(s: seq<Point2>): real {
    if |s| == 0 then 0.0 else SumZ(s[..|s| - 1]) + s[|s| - 1].z
  }

  /** `points.mean(axis=0)` */
  function Mean(s: seq<Point2>): Point2
    requires |s| > 0
  {
    Point2(SumX(s) / (|s| as real), SumZ(s) / (|s| as real))
  }

  /** `w` consecutive points starting at index `start`, wrapping around the outline. */
  function CyclicWindow(ps: seq<Point2>, start: int, w: nat): (r: seq<Point2>)
    requires |ps| > 0
    ensures |r| == w && forall k :: 0 <= k < w ==> r[k] == ps[(start + k) % |ps|]
  {
    seq(w, k requires 0 <= k < w => ps[(start + k) % |ps|])
  }

  /**
   * The padding `vstack([p[-w//2:], p, p[:w//2]])`: Python's `-w//2` rounds
   * down, so the head copies the last `(w + 1) / 2` points.
   */
  function Padded(ps: seq<Point2>, w: nat): (r: seq<Point2>)
    requires 1 <= w <= |ps|
    ensures |r| == |ps| + w
  {
    ps[|ps| - (w + 1) / 2..] + ps + ps[..w / 2]
  }

  lemma ModWrap(x: int, n: int)
    requires n > 0 && -n <= x < 2 * n
    ensures x % n == if x < 0 then x + n else if x < n then x else x - n
  {
  }

  /** Each window of the padded outline is a cyclic window of the outline. */
  lemma PaddedWindow(ps: seq<Point2>, w: nat, i: nat)
    requires 1 <= w <= |ps| && i < |ps|
    ensures Padded(ps, w)[i..i + w] == CyclicWindow(ps, i - (w + 1) / 2, w)
  {
    var n, c := |ps|, (w + 1) / 2;
    var p := Padded(ps, w);
    forall t | i <= t < i + w
      ensures p[t] == ps[(t - c) % n]
    {
      ModWrap(t - c, n);
      if t < c {
        assert p[t] == ps[n - c + t];
      } else if t < c + n {
        assert p[t] == ps[t - c];
      } else {
        assert p[t] == ps[t - c - n];
      }
    }
    var win := CyclicWindow(ps, i - c, w);
    assert forall k :: 0 <= k < w ==> win[k] == ps[(i + k - c) % n];
  }

  /**
   * What `order_boundary_points` promises about its result `r`: the same
   * points, unchanged when fewer than three, otherwise starting at a leftmost
   * point with each successor a nearest point among those not yet visited.
   */
  predicate GreedyOrdering(ps: seq<Point2>, r: seq<Point2>) {
    |r| == |ps| && multiset(r) == multiset(ps) && (|ps| < 3 ==> r == ps) &&
    (|ps| >= 3 ==>
      (forall t :: 0 <= t < |ps| ==> r[0].x <= ps[t].x) &&
      forall k, l :: 0 <= k < l < |r| && k + 1 < |r| ==>
        SquaredDistance(r[k + 1], r[k]) <= SquaredDistance(r[l], r[k]))
  }

  /**
   * What `smooth_boundary` promises about its result `r`: unchanged when
   * shorter than the window, otherwise each point the mean of its cyclic window.
   */
  predicate Smoothing(ps: seq<Point2>, r: seq<Point2>, w: nat)
    requires w >= 1
  {
    |r| == |ps| && (|ps| < w ==> r == ps) &&
    (|ps| >= w ==> forall i :: 0 <= i < |ps| ==> r[i] == Mean(CyclicWindow(ps, i - (w + 1) / 2, w)))
  }

  /**
   * `smooth_boundary`: every point becomes the mean of the `w` points of the
   * padded outline starting at its own index. Outlines shorter than the
   * window are returned unchanged.
   */
  method SmoothBoundary(ps: seq<Point2>, w: nat) returns (r: seq<Point2>)
    requires w >= 1
    ensures |ps| < w ==> r == ps
    ensures |r| == |ps|
    ensures |ps| >= w ==> forall i :: 0 <= i < |ps| ==>
      r[i] == Mean(CyclicWindow(ps, i - (w + 1) / 2, w))
  {
    if |ps| < w {
      return ps;
    }
    var padded := Padded(ps, w);
    var smoothed := new Point2[|ps|](_ => Point2(0.0, 0.0));
    var i := 0;
    while i < |ps|
      invariant 0 <= i <= |ps|
      invariant forall k :: 0 <= k < i ==> smoothed[k] == Mean(CyclicWindow(ps, k - (w + 1) / 2, w))
    {
      PaddedWindow(ps, w, i);
      smoothed[i] := Mean(padded[i..i + w]);
      i := i + 1;
    }
    r := smoothed[..];
  }

  lemma {:induction false} SumWithin(s: seq<Point2>, r: Rect)
    requires forall k :: 0 <= k < |s| ==> Contains(r, s[k].x, s[k].z)
    ensures Mul(|s| as real, r.xMin) <= SumX(s) <= Mul(|s| as real, r.xMax)
    ensures Mul(|s| as real, r.zMin) <= SumZ(s) <= Mul(|s| as real, r.zMax)
  {
    if |s| > 0 {
      var n := |s| as real;
      SumWithin(s[..|s| - 1], r);
      assert Mul(n, r.xMin) == Mul(n - 1.0, r.xMin) + r.xMin;
      assert Mul(n, r.xMax) == Mul(n - 1.0, r.xMax) + r.xMax;
      assert Mul(n, r.zMin) == Mul(n - 1.0, r.zMin) + r.zMin;
      assert Mul(n, r.zMax) == Mul(n - 1.0, r.zMax) + r.zMax;
    }
  }

  /** `lo * n <= sum <= hi * n` puts `sum / n` between `lo` and `hi`. */
  lemma DivideWithin(sum: real, n: real, lo: real, hi: real)
    requires n > 0.0 && Mul(n, lo) <= sum <= Mul(n, hi)
    ensures lo <= sum / n <= hi
  {
    var m := sum / n;
    assert Mul(m, n) == sum;
    assert Mul(lo - m, n) == Mul(n, lo) - Mul(m, n);
    assert Mul(m - hi, n) == Mul(m, n) - Mul(n, hi);
    if m < lo {
      MulPos(lo - m, n);
    }
    if m > hi {
      MulPos(m - hi, n);
    }
  }

  /** A mean of points of a rectangle lies in the rectangle. */
  lemma MeanWithin(s: seq<Point2>, r: Rect)
    requires |s| > 0 && forall k :: 0 <= k < |s| ==> Contains(r, s[k].x, s[k].z)
    ensures Contains(r, Mean(s).x, Mean(s).z)
  {
    SumWithin(s, r);
    DivideWithin(SumX(s), |s| as real, r.xMin, r.xMax);
    DivideWithin(SumZ(s), |s| as real, r.zMin, r.zMax);
  }

  /** Smoothing never moves the outline out of the bounding rectangle of its points. */
  lemma SmoothedStaysInside(ps: seq<Point2>, w: nat, i: int)
    requires 1 <= w <= |ps|
    ensures Contains(BoundingRect(ps), Mean(CyclicWindow(ps, i - (w + 1) / 2, w)).x,
                                       Mean(CyclicWindow(ps, i - (w + 1) / 2, w)).z)
  {
    var win := CyclicWindow(ps, i - (w + 1) / 2, w);
    var r := BoundingRect(ps);
    assert forall k :: 0 <= k < |win| ==> Contains(r, win[k].x, win[k].z) by {
      forall k | 0 <= k < |win|
        ensures Contains(r, win[k].x, win[k].z)
      {
        var t := (i - (w + 1) / 2 + k) % |ps|;
        assert win[k] == ps[t];
      }
    }
    MeanWithin(win, r);
  }

  /** Reordering points does not change their bounding rectangle. */
  lemma SameRectForPermutation(a: seq<Point2>, b: seq<Point2>)
    requires |a| > 0 && multiset(a) == multiset(b)
    ensures |b| > 0 && BoundingRect(a) == BoundingRect(b)
  {
    assert a[0] in multiset(b);
    var ra, rb := BoundingRect(a), BoundingRect(b);
    assert forall p :: p in a <==> p in b by {
      forall p
        ensures p in a <==> p in b
      {
        assert p in a <==> p in multiset(a);
        assert p in b <==> p in multiset(b);
      }
    }
    assert forall i :: 0 <= i < |a| ==> Contains(rb, a[i].x, a[i].z) by {
      forall i | 0 <= i < |a|
        ensures Contains(rb, a[i].x, a[i].z)
      {
        assert a[i] in b;
        var k :| 0 <= k < |b| && b[k] == a[i];
      }
    }
    assert forall i :: 0 <= i < |b| ==> Contains(ra, b[i].x, b[i].z) by {
      forall i | 0 <= i < |b|
        ensures Contains(ra, b[i].x, b[i].z)
      {
        assert b[i] in a;
        var k :| 0 <= k < |a| && a[k] == b[i];
      }
    }
  }
}
