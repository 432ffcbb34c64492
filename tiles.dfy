/** The grid topology of Tile.kt: a tile's coordinates and mutable flags, its
    neighbour indices as the constructor computes them, Chebyshev distance and
    the longitude/latitude offsets from the map's centre tile. */
module Tiles {
  import opened Seqs
  import opened Terrain

  /** One `Tile`. `neighbors` is fixed at construction; `coast`,
      `baseTerrain` and `lostCityRumors` are the fields the map passes write. */
  datatype Tile = Tile(
    x: int,
    y: int,
    neighbors: seq<int>,
    coast: bool,
    baseTerrain: TerrainType,
    lostCityRumors: bool)
  {
    predicate IsWater() { Terrain.IsWater(baseTerrain) }
    predicate IsLand() { Terrain.IsLand(baseTerrain) }
  }

  /** A step (dx, dy) to a neighbouring cell. */
  type Offset = (int, int)

  /** The eight steps in the order the constructor tries them. */
  const Compass: seq<Offset> := [(-1, -1), (0, -1), (1, -1), (-1, 0), (1, 0), (-1, 1), (0, 1), (1, 1)]

  /** The bounds tests of the constructor, as written: a step to the left or
      up needs a positive coordinate, a step to the right or down only needs
      `x < width` or `y < height`. */
  predicate Admits(x: int, y: int, width: int, height: int, d: Offset) {
    && (d.1 == -1 ==> y > 0)
    && (d.1 == 1 ==> y < height)
    && (d.0 == -1 ==> x > 0)
    && (d.0 == 1 ==> x < width)
  }

  /** The index the constructor stores for a step: `(x + dx) * width + (y + dy)`. */
  function StepIndex(x: int, y: int, width: int, d: Offset): int {
    (x + d.0) * width + (y + d.1)
  }

  /** What one step contributes: its index if it passes the bounds tests. */
  function Contribution(x: int, y: int, width: int, height: int, d: Offset): seq<int> {
    if Admits(x, y, width, height, d) then [StepIndex(x, y, width, d)] else []
  }

  /** Reference definition of a partly built neighbour array: the first `k`
      compass steps that pass the bounds tests, in order, each turned into its
      index. */
  function IndicesUpTo(k: nat, x: int, y: int, width: int, height: int): (ns: seq<int>)
    requires k <= |Compass|
    ensures |ns| <= k
  {
    if k == 0 then [] else IndicesUpTo(k - 1, x, y, width, height) + Contribution(x, y, width, height, Compass[k - 1])
  }

  /** The neighbour array of the cell (x, y) in a `width` x `height` map. */
  function NeighborIndices(x: int, y: int, width: int, height: int): (ns: seq<int>) {
    IndicesUpTo(|Compass|, x, y, width, height)
  }

  /** `n` is the index of some compass step that passes the bounds tests. */
  ghost predicate IsStepIndex(x: int, y: int, width: int, height: int, n: int) {
    exists d :: d in Compass && Admits(x, y, width, height, d) && n == StepIndex(x, y, width, d)
  }

  /** Every entry of a partly built array is the index of an admitted step. */
  lemma {:induction false} IndicesUpToShape(k: nat, x: int, y: int, width: int, height: int)
    requires k <= |Compass|
    ensures forall i :: 0 <= i < |IndicesUpTo(k, x, y, width, height)| ==>
      IsStepIndex(x, y, width, height, IndicesUpTo(k, x, y, width, height)[i])
  {
    if k > 0 {
      IndicesUpToShape(k - 1, x, y, width, height);
      var front := IndicesUpTo(k - 1, x, y, width, height);
      var d := Compass[k - 1];
      var ns := IndicesUpTo(k, x, y, width, height);
      forall i | 0 <= i < |ns|
        ensures IsStepIndex(x, y, width, height, ns[i])
      {
        if i < |front| {
          assert ns[i] == front[i];
        } else {
          assert d in Compass && Admits(x, y, width, height, d) && ns[i] == StepIndex(x, y, width, d);
        }
      }
    }
  }

  /** The value each compass step contributes, in the constructor's own terms. */
  lemma ContributionValues(x: int, y: int, width: int, height: int)
    ensures Contribution(x, y, width, height, Compass[0]) == if y > 0 && x > 0 then [(x - 1) * width + y - 1] else []
    ensures Contribution(x, y, width, height, Compass[1]) == if y > 0 then [x * width + y - 1] else []
    ensures Contribution(x, y, width, height, Compass[2]) == if y > 0 && x < width then [(x + 1) * width + y - 1] else []
    ensures Contribution(x, y, width, height, Compass[3]) == if x > 0 then [(x - 1) * width + y] else []
    ensures Contribution(x, y, width, height, Compass[4]) == if x < width then [(x + 1) * width + y] else []
    ensures Contribution(x, y, width, height, Compass[5]) == if y < height && x > 0 then [(x - 1) * width + y + 1] else []
    ensures Contribution(x, y, width, height, Compass[6]) == if y < height then [x * width + y + 1] else []
    ensures Contribution(x, y, width, height, Compass[7]) == if y < height && x < width then [(x + 1) * width + y + 1] else []
  {
  }

  /** The constructor of `Tile`, which fills `tmpNeighbors` by successive
      `add` calls: the row above, the cell's own row, the row below. */
  method BuildNeighbors(x: int, y: int, width: int, height: int) returns (ns: seq<int>)
    ensures ns == NeighborIndices(x, y, width, height)
  {
    ns := [];
    ns := AddRowAbove(x, y, width, height, ns);
    ns := AddOwnRow(x, y, width, height, ns);
    ns := AddRowBelow(x, y, width, height, ns);
  }

  method AddRowAbove(x: int, y: int, width: int, height: int, ns0: seq<int>) returns (ns: seq<int>)
    requires ns0 == IndicesUpTo(0, x, y, width, height)
    ensures ns == IndicesUpTo(3, x, y, width, height)
  {
    ContributionValues(x, y, width, height);
    ns := ns0;
    if y > 0 {
      if x > 0 {
        ns := ns + [(x - 1) * width + y - 1];
      }
      assert ns == IndicesUpTo(1, x, y, width, height);
      ns := ns + [x * width + y - 1];
      assert ns == IndicesUpTo(2, x, y, width, height);
      if x < width {
        ns := ns + [(x + 1) * width + y - 1];
      }
    } else {
      assert IndicesUpTo(1, x, y, width, height) == [];
      assert IndicesUpTo(2, x, y, width, height) == [];
    }
  }

  method AddOwnRow(x: int, y: int, width: int, height: int, ns0: seq<int>) returns (ns: seq<int>)
    requires ns0 == IndicesUpTo(3, x, y, width, height)
    ensures ns == IndicesUpTo(5, x, y, width, height)
  {
    ContributionValues(x, y, width, height);
    ns := ns0;
    if x > 0 {
      ns := ns + [(x - 1) * width + y];
    }
    assert ns == IndicesUpTo(4, x, y, width, height);
    if x < width {
      ns := ns + [(x + 1) * width + y];
    }
  }

  method AddRowBelow(x: int, y: int, width: int, height: int, ns0: seq<int>) returns (ns: seq<int>)
    requires ns0 == IndicesUpTo(5, x, y, width, height)
    ensures ns == IndicesUpTo(8, x, y, width, height)
  {
    ContributionValues(x, y, width, height);
    ns := ns0;
    if y < height {
      if x > 0 {
        ns := ns + [(x - 1) * width + y + 1];
      }
      assert ns == IndicesUpTo(6, x, y, width, height);
      ns := ns + [x * width + y + 1];
      assert ns == IndicesUpTo(7, x, y, width, height);
      if x < width {
        ns := ns + [(x + 1) * width + y + 1];
      }
    } else {
      assert IndicesUpTo(6, x, y, width, height) == ns0;
      assert IndicesUpTo(7, x, y, width, height) == ns0;
    }
  }

  /** At most eight entries, each `(x + dx) * width + (y + dy)` for a compass
      step (never (0, 0)) that passes the bounds tests. */
  lemma NeighborShape(x: int, y: int, width: int, height: int)
    ensures |NeighborIndices(x, y, width, height)| <= 8
    ensures forall i :: 0 <= i < |NeighborIndices(x, y, width, height)| ==>
      IsStepIndex(x, y, width, height, NeighborIndices(x, y, width, height)[i])
    ensures (0, 0) !in Compass
  {
    IndicesUpToShape(|Compass|, x, y, width, height);
  }

  /** For a cell inside the grid: eight neighbours away from the top and left
      edges, five on exactly one of them, three in the corner (0, 0). */
  lemma NeighborCount(x: int, y: int, width: int, height: int)
    requires 0 <= x < width && 0 <= y < height
    ensures |NeighborIndices(x, y, width, height)| ==
      if x > 0 && y > 0 then 8 else if x > 0 || y > 0 then 5 else 3
  {
    ContributionValues(x, y, width, height);
    assert |IndicesUpTo(1, x, y, width, height)| == if x > 0 && y > 0 then 1 else 0;
    assert |IndicesUpTo(2, x, y, width, height)| == |IndicesUpTo(1, x, y, width, height)| + if y > 0 then 1 else 0;
    assert |IndicesUpTo(3, x, y, width, height)| == |IndicesUpTo(2, x, y, width, height)| + if y > 0 then 1 else 0;
    assert |IndicesUpTo(4, x, y, width, height)| == |IndicesUpTo(3, x, y, width, height)| + if x > 0 then 1 else 0;
    assert |IndicesUpTo(5, x, y, width, height)| == |IndicesUpTo(4, x, y, width, height)| + 1;
    assert |IndicesUpTo(6, x, y, width, height)| == |IndicesUpTo(5, x, y, width, height)| + if x > 0 then 1 else 0;
    assert |IndicesUpTo(7, x, y, width, height)| == |IndicesUpTo(6, x, y, width, height)| + 1;
    assert |IndicesUpTo(8, x, y, width, height)| == |IndicesUpTo(7, x, y, width, height)| + 1;
  }

  /** The step to the right is guarded by `x < width`, so a cell in the last
      column gets an eastern neighbour index `width * width + y`, which lies
      past the end of a `width * height` grid whenever `width >= height`. */
  lemma EastNeighborPastGrid(y: int, width: int, height: int)
    requires 0 <= y && 0 < height <= width
    ensures width * width + y in NeighborIndices(width - 1, y, width, height)
    ensures width * width + y >= width * height
  {
    var x := width - 1;
    ContributionValues(x, y, width, height);
    assert width * width + y in IndicesUpTo(5, x, y, width, height) by {
      assert Contribution(x, y, width, height, Compass[4]) == [width * width + y];
    }
    assert width * width + y in IndicesUpTo(6, x, y, width, height);
    assert width * width + y in IndicesUpTo(7, x, y, width, height);
    assert width * width + y in IndicesUpTo(8, x, y, width, height);
    assert width * width >= width * height by {
      MulMonotonic(width, height, width);
    }
  }

  /** On a grid at least three wide two different compass steps never give
      the same index: equal sums `(x + dx) * width + (y + dy)` would need
      `(dx - dx') * width == dy' - dy`, which lies between -2 and 2. */
  lemma StepIndexInjective(x: int, y: int, width: int, d: Offset, e: Offset)
    requires width >= 3 && d in Compass && e in Compass && d != e
    ensures StepIndex(x, y, width, d) != StepIndex(x, y, width, e)
  {
    var a := d.0 - e.0;
    assert (x + d.0) * width - (x + e.0) * width == a * width;
    if a >= 1 {
      MulMonotonic(width, 1, a);
    } else if a <= -1 {
      MulMonotonic(width, a, -1);
    }
  }

  /** The first `k` steps give distinct indices, each from one of those steps. */
  lemma {:induction false} IndicesUpToDistinct(k: nat, x: int, y: int, width: int, height: int)
    requires k <= |Compass| && width >= 3
    ensures NoDuplicates(IndicesUpTo(k, x, y, width, height))
    ensures forall n :: n in IndicesUpTo(k, x, y, width, height) ==>
      exists j :: 0 <= j < k && n == StepIndex(x, y, width, Compass[j])
  {
    if k > 0 {
      IndicesUpToDistinct(k - 1, x, y, width, height);
      var front := IndicesUpTo(k - 1, x, y, width, height);
      var c := Contribution(x, y, width, height, Compass[k - 1]);
      forall n | n in c ensures n !in front {
        if n in front {
          var j :| 0 <= j < k - 1 && n == StepIndex(x, y, width, Compass[j]);
          assert Compass[j] in Compass && Compass[k - 1] in Compass && Compass[j] != Compass[k - 1];
          StepIndexInjective(x, y, width, Compass[j], Compass[k - 1]);
        }
      }
      NoDuplicatesAppend(front, c);
    }
  }

  /** On a grid at least three wide no neighbour array repeats an index. */
  lemma NeighborsDistinct(x: int, y: int, width: int, height: int)
    requires width >= 3
    ensures NoDuplicates(NeighborIndices(x, y, width, height))
  {
    IndicesUpToDistinct(|Compass|, x, y, width, height);
  }

  lemma MulMonotonic(a: int, b: int, c: int)
    requires 0 <= a && b <= c
    ensures a * b <= a * c
  {
  }

  function Abs(n: int): nat { if n < 0 then -n else n }

  function Max(a: int, b: int): int { if a < b then b else a }

  /** `Tile.getDistance`: Chebyshev distance of the coordinates. */
  function GetDistance(a: Tile, b: Tile): (d: nat)
    ensures Abs(a.x - b.x) <= d && Abs(a.y - b.y) <= d
    ensures d == Abs(a.x - b.x) || d == Abs(a.y - b.y)
  {
    Max(Abs(a.x - b.x), Abs(a.y - b.y))
  }

  lemma DistanceZeroIffSameCell(a: Tile, b: Tile)
    ensures GetDistance(a, b) == 0 <==> a.x == b.x && a.y == b.y
  {
  }

  lemma DistanceSymmetric(a: Tile, b: Tile)
    ensures GetDistance(a, b) == GetDistance(b, a)
  {
  }

  lemma DistanceTriangle(a: Tile, b: Tile, c: Tile)
    ensures GetDistance(a, c) <= GetDistance(a, b) + GetDistance(b, c)
  {
  }

  /** `Tile.longitude`: the column offset from the centre tile. */
  function Longitude(t: Tile, center: Tile): (r: int)
    ensures Abs(r) <= GetDistance(t, center)
    ensures r == 0 <==> t.x == center.x
  {
    t.x - center.x
  }

  /** `Tile.latitude`: the row offset from the centre tile. */
  function Latitude(t: Tile, center: Tile): (r: int)
    ensures Abs(r) <= GetDistance(t, center)
    ensures r == 0 <==> t.y == center.y
  {
    t.y - center.y
  }

  /** The offsets are plain differences: the centre is at (0, 0), the
      distance to the centre is the larger offset, and two tiles' offsets
      differ by their coordinate difference whatever the centre. */
  lemma OffsetsFromCenter(t: Tile, u: Tile, center: Tile)
    ensures Longitude(center, center) == 0 && Latitude(center, center) == 0
    ensures GetDistance(t, center) == Max(Abs(Longitude(t, center)), Abs(Latitude(t, center)))
    ensures Longitude(t, center) - Longitude(u, center) == t.x - u.x
    ensures Latitude(t, center) - Latitude(u, center) == t.y - u.y
  {
  }
}
