/** The flood fill of `Map.spawnLakesAndCoasts`: clusters of water tiles
    joined through the tiles' neighbour links.  It works on a snapshot of the
    tile array, since the fill reads only `neighbors`, which no pass changes;
    tiles are referred to by their index. */
module Hydrography {
  import opened Seqs
  import opened Terrain
  import opened Tiles

  /** Every listed tile, and every neighbour index it stores, names a tile:
      the lookups `tiles[it]` the fill makes. */
  ghost predicate NeighborsInRange(ts: seq<Tile>, W: set<int>) {
    forall w :: w in W ==> 0 <= w < |ts| && forall n :: n in ts[w].neighbors ==> 0 <= n < |ts|
  }

  /** `p` is a walk through tiles of `W`, each step following a neighbour
      link of the tile it leaves.  Links need not be symmetric. */
  ghost predicate IsPath(ts: seq<Tile>, W: set<int>, p: seq<int>) {
    && p != []
    && (forall i :: 0 <= i < |p| ==> p[i] in W && 0 <= p[i] < |ts|)
    && (forall i :: 0 <= i < |p| - 1 ==> p[i + 1] in ts[p[i]].neighbors)
  }

  ghost predicate Reaches(ts: seq<Tile>, W: set<int>, a: int, b: int) {
    exists p :: IsPath(ts, W, p) && p[0] == a && p[|p| - 1] == b
  }

  /** Reference definition of one water area: the tiles of `W` reachable
      from `a` without leaving `W`. */
  ghost function Component(ts: seq<Tile>, W: set<int>, a: int): set<int> {
    set b | b in W && Reaches(ts, W, a, b)
  }

  /** No neighbour link leads from a tile of `A` to a tile of `W` outside `A`. */
  ghost predicate Closed(ts: seq<Tile>, W: set<int>, A: set<int>) {
    forall a :: a in A ==> 0 <= a < |ts| && forall n :: n in ts[a].neighbors && n in W ==> n in A
  }

  /** A walk that starts in a closed set never leaves it. */
  lemma {:induction false} ClosedContainsReachable(ts: seq<Tile>, W: set<int>, A: set<int>, p: seq<int>)
    requires IsPath(ts, W, p) && p[0] in A && Closed(ts, W, A)
    ensures p[|p| - 1] in A
    decreases |p|
  {
    if |p| > 1 {
      var front := p[..|p| - 1];
      assert IsPath(ts, W, front) by {
        forall i | 0 <= i < |front| - 1 ensures front[i + 1] in ts[front[i]].neighbors {
          assert front[i] == p[i] && front[i + 1] == p[i + 1];
        }
      }
      ClosedContainsReachable(ts, W, A, front);
      assert p[|p| - 1] in ts[p[|p| - 2]].neighbors;
    }
  }

  /** A walk extended by one more link stays a walk. */
  lemma PathExtend(ts: seq<Tile>, W: set<int>, p: seq<int>, n: int)
    requires IsPath(ts, W, p) && n in W && 0 <= n < |ts| && n in ts[p[|p| - 1]].neighbors
    ensures IsPath(ts, W, p + [n])
  {
    var q := p + [n];
    forall i | 0 <= i < |q| - 1 ensures q[i + 1] in ts[q[i]].neighbors {
      if i < |p| - 1 {
        assert q[i] == p[i] && q[i + 1] == p[i + 1];
      }
    }
  }

  /** An area contains its seed, is closed, and lies in `W`. */
  lemma ComponentShape(ts: seq<Tile>, W: set<int>, a: int)
    requires a in W && NeighborsInRange(ts, W)
    ensures a in Component(ts, W, a)
    ensures Component(ts, W, a) <= W
    ensures Closed(ts, W, Component(ts, W, a))
  {
    assert IsPath(ts, W, [a]);
    forall b, n | b in Component(ts, W, a) && n in ts[b].neighbors && n in W
      ensures n in Component(ts, W, a)
    {
      var p :| IsPath(ts, W, p) && p[0] == a && p[|p| - 1] == b;
      PathExtend(ts, W, p, n);
      assert (p + [n])[0] == a;
    }
  }

  /** `neighbors.filter { !tilesInArea.contains(tiles[it]) && waterTiles.contains(tiles[it]) }`:
      the neighbours that are still unclaimed water, in their order. */
  function Unclaimed(nbrs: seq<int>, area: seq<int>, rest: seq<int>): (r: seq<int>)
    ensures forall n :: n in r <==> n in nbrs && n !in area && n in rest
  {
    if nbrs == [] then []
    else
      assert nbrs == [nbrs[0]] + nbrs[1..];
      (if nbrs[0] !in area && nbrs[0] in rest then [nbrs[0]] else []) + Unclaimed(nbrs[1..], area, rest)
  }

  /** No tile's neighbour array repeats an index.  Then the fill never
      lists a tile twice (on a grid at least three wide this always holds). */
  ghost predicate DistinctNeighbors(ts: seq<Tile>) {
    forall i :: 0 <= i < |ts| ==> NoDuplicates(ts[i].neighbors)
  }

  /** The filter of a neighbour array without repetitions has none either. */
  lemma {:induction false} UnclaimedNoDuplicates(nbrs: seq<int>, area: seq<int>, rest: seq<int>)
    requires NoDuplicates(nbrs)
    ensures NoDuplicates(Unclaimed(nbrs, area, rest))
  {
    if nbrs != [] {
      NoDuplicatesTail(nbrs);
      UnclaimedNoDuplicates(nbrs[1..], area, rest);
      if nbrs[0] !in area && nbrs[0] in rest {
        NoDuplicatesCons(nbrs[0], Unclaimed(nbrs[1..], area, rest));
      }
    }
  }

  /** The area so far lies in `W` and the remaining water tiles, listed
      once each, are exactly the rest of `W`. */
  ghost predicate Splits(W: set<int>, area: seq<int>, rest: seq<int>) {
    && NoDuplicates(rest)
    && (forall a :: a in area ==> a in W)
    && (forall x :: x in rest <==> x in W && x !in area)
  }

  lemma SplitsElems(W: set<int>, area: seq<int>, rest: seq<int>)
    requires Splits(W, area, rest)
    ensures Elems(rest) == W - Elems(area)
  {
    forall x | x in W - Elems(area) ensures x in Elems(rest) {
      assert x !in area;
    }
    forall x | x in Elems(rest) ensures x in W - Elems(area) {
      assert x in rest;
    }
  }

  /** Every tile of the area so far has a walk through `W` from the seed. */
  ghost predicate Grown(ts: seq<Tile>, W: set<int>, start: int, area: seq<int>, paths: map<int, seq<int>>) {
    forall a :: a in area ==>
      a in paths && IsPath(ts, W, paths[a]) && paths[a][0] == start && paths[a][|paths[a]| - 1] == a
  }

  /** Claiming a water neighbour `n` of a tile `c` of the area, with the
      walk to `c` extended by `n`. */
  lemma GrownExtend(ts: seq<Tile>, W: set<int>, start: int, area: seq<int>, paths: map<int, seq<int>>,
                    c: int, n: int)
    requires Grown(ts, W, start, area, paths) && c in area
    requires n in W && 0 <= n < |ts| && n in ts[c].neighbors
    ensures Grown(ts, W, start, area + [n], paths[n := paths[c] + [n]])
  {
    PathExtend(ts, W, paths[c], n);
  }

  /** Claiming `n` moves it from the remaining water tiles to the area. */
  lemma SplitsExtend(W: set<int>, area: seq<int>, rest: seq<int>, n: int)
    requires Splits(W, area, rest) && n in W
    ensures Splits(W, area + [n], RemoveFirst(rest, n))
    ensures |RemoveFirst(rest, n)| <= |rest|
    ensures n in rest ==> |RemoveFirst(rest, n)| < |rest|
  {
    RemoveFirstNoDuplicates(rest, n);
  }

  /** What the inner `for` keeps while it claims neighbours of `c`. */
  ghost predicate Absorbing(ts: seq<Tile>, W: set<int>, start: int, c: int, area: seq<int>, rest: seq<int>,
                            paths: map<int, seq<int>>) {
    NeighborsInRange(ts, W) && Splits(W, area, rest) && Grown(ts, W, start, area, paths) && c in area
  }

  /** Claiming a water neighbour `n` of `c` keeps `Absorbing`.  A
      neighbour listed twice is claimed twice; the second time it is already
      in the area and there is no water tile left to remove. */
  lemma ClaimOne(ts: seq<Tile>, W: set<int>, start: int, c: int, area: seq<int>, rest: seq<int>,
                 paths: map<int, seq<int>>, n: int)
    requires Absorbing(ts, W, start, c, area, rest, paths)
    requires n in W && n in ts[c].neighbors
    ensures Absorbing(ts, W, start, c, area + [n], RemoveFirst(rest, n), paths[n := paths[c] + [n]])
    ensures |RemoveFirst(rest, n)| <= |rest|
    ensures n in rest ==> |RemoveFirst(rest, n)| < |rest|
  {
    GrownExtend(ts, W, start, area, paths, c, n);
    SplitsExtend(W, area, rest, n);
  }

  /** A grown area that is closed is the whole component of its seed. */
  lemma AreaIsComponent(ts: seq<Tile>, W: set<int>, start: int, area: seq<int>, paths: map<int, seq<int>>)
    requires start in area && Grown(ts, W, start, area, paths)
    requires forall a :: a in area ==> 0 <= a < |ts| && forall n :: n in ts[a].neighbors && n in W ==> n in area
    ensures Elems(area) == Component(ts, W, start)
  {
    assert Closed(ts, W, Elems(area));
    forall b | b in Component(ts, W, start) ensures b in Elems(area) {
      var p :| IsPath(ts, W, p) && p[0] == start && p[|p| - 1] == b;
      ClosedContainsReachable(ts, W, Elems(area), p);
    }
    forall b | b in Elems(area) ensures b in Component(ts, W, start) {
      assert IsPath(ts, W, paths[b]);
    }
  }

  /** One pass of the inner `while`: append every unclaimed water neighbour
      of `tileWeAreChecking` to the area and to the tiles to check, and take
      it out of the remaining water tiles. */
  method AbsorbNeighbors(ts: seq<Tile>, ghost W: set<int>, ghost start: int, tileWeAreChecking: int,
                         tilesInArea: seq<int>, tilesToCheck: seq<int>, waterTiles: seq<int>,
                         ghost paths: map<int, seq<int>>)
    returns (unclaimed: seq<int>, tilesInArea': seq<int>, tilesToCheck': seq<int>, waterTiles': seq<int>,
             ghost paths': map<int, seq<int>>)
    requires Absorbing(ts, W, start, tileWeAreChecking, tilesInArea, waterTiles, paths)
    ensures unclaimed == Unclaimed(ts[tileWeAreChecking].neighbors, tilesInArea, waterTiles)
    ensures tilesInArea' == tilesInArea + unclaimed && tilesToCheck' == tilesToCheck + unclaimed
    ensures Absorbing(ts, W, start, tileWeAreChecking, tilesInArea', waterTiles', paths')
    ensures forall n :: n in ts[tileWeAreChecking].neighbors && n in W ==> n in tilesInArea'
    ensures unclaimed == [] ==> waterTiles' == waterTiles
    ensures unclaimed != [] ==> |waterTiles'| < |waterTiles|
    ensures DistinctNeighbors(ts) && NoDuplicates(tilesInArea) ==> NoDuplicates(tilesInArea')
  {
    unclaimed := Unclaimed(ts[tileWeAreChecking].neighbors, tilesInArea, waterTiles);
    if DistinctNeighbors(ts) && NoDuplicates(tilesInArea) {
      UnclaimedNoDuplicates(ts[tileWeAreChecking].neighbors, tilesInArea, waterTiles);
      NoDuplicatesAppend(tilesInArea, unclaimed);
    }
    assert unclaimed != [] ==> unclaimed[0] in unclaimed;
    tilesInArea', tilesToCheck', waterTiles', paths' :=
      ClaimAll(ts, W, start, tileWeAreChecking, tilesInArea, tilesToCheck, waterTiles, paths, unclaimed);
  }

  /** The `for` over the unclaimed neighbours. */
  method ClaimAll(ts: seq<Tile>, ghost W: set<int>, ghost start: int, c: int,
                  tilesInArea: seq<int>, tilesToCheck: seq<int>, waterTiles: seq<int>,
                  ghost paths: map<int, seq<int>>, unclaimed: seq<int>)
    returns (tilesInArea': seq<int>, tilesToCheck': seq<int>, waterTiles': seq<int>,
             ghost paths': map<int, seq<int>>)
    requires Absorbing(ts, W, start, c, tilesInArea, waterTiles, paths)
    requires forall n :: n in unclaimed ==> n in W && n in ts[c].neighbors
    requires unclaimed != [] ==> unclaimed[0] in waterTiles
    ensures tilesInArea' == tilesInArea + unclaimed && tilesToCheck' == tilesToCheck + unclaimed
    ensures Absorbing(ts, W, start, c, tilesInArea', waterTiles', paths')
    ensures unclaimed == [] ==> waterTiles' == waterTiles
    ensures unclaimed != [] ==> |waterTiles'| < |waterTiles|
  {
    tilesInArea', tilesToCheck', waterTiles', paths' := tilesInArea, tilesToCheck, waterTiles, paths;
    for k := 0 to |unclaimed|
      invariant tilesInArea' == tilesInArea + unclaimed[..k] && tilesToCheck' == tilesToCheck + unclaimed[..k]
      invariant Absorbing(ts, W, start, c, tilesInArea', waterTiles', paths')
      invariant |waterTiles'| <= |waterTiles| && (k > 0 ==> |waterTiles'| < |waterTiles|)
      invariant k == 0 ==> waterTiles' == waterTiles
    {
      var neighbor := unclaimed[k];
      assert neighbor in unclaimed;
      assert unclaimed[..k + 1] == unclaimed[..k] + [neighbor];
      ClaimOne(ts, W, start, c, tilesInArea', waterTiles', paths', neighbor);
      tilesInArea' := tilesInArea' + [neighbor];
      tilesToCheck' := tilesToCheck' + [neighbor];
      waterTiles' := RemoveFirst(waterTiles', neighbor);
      paths' := paths'[neighbor := paths'[c] + [neighbor]];
    }
    assert unclaimed[..|unclaimed|] == unclaimed;
  }

  /** Every tile of the area that is no longer waiting to be checked has
      all its water neighbours in the area. */
  ghost predicate ClosedExcept(ts: seq<Tile>, W: set<int>, area: seq<int>, toCheck: seq<int>) {
    forall a :: a in area && a !in toCheck ==>
      0 <= a < |ts| && forall n :: n in ts[a].neighbors && n in W ==> n in area
  }

  /** What the flood fill keeps from one tile check to the next. */
  ghost predicate Filling(ts: seq<Tile>, W: set<int>, start: int, area: seq<int>, toCheck: seq<int>,
                          rest: seq<int>, paths: map<int, seq<int>>) {
    && area != [] && area[0] == start
    && NeighborsInRange(ts, W)
    && Splits(W, area, rest)
    && (forall a :: a in toCheck ==> a in area)
    && Grown(ts, W, start, area, paths)
    && ClosedExcept(ts, W, area, toCheck)
    && (DistinctNeighbors(ts) ==> NoDuplicates(area))
  }

  /** One round of the inner `while`: pick a tile still to check, claim its
      unclaimed water neighbours, and drop it from the tiles to check.  Either
      a water tile was claimed or one fewer tile is waiting. */
  method CheckTile(ts: seq<Tile>, ghost W: set<int>, ghost start: int, tilesInArea: seq<int>,
                   tilesToCheck: seq<int>, waterTiles: seq<int>, ghost paths: map<int, seq<int>>)
    returns (tilesInArea': seq<int>, tilesToCheck': seq<int>, waterTiles': seq<int>,
             ghost paths': map<int, seq<int>>)
    requires Filling(ts, W, start, tilesInArea, tilesToCheck, waterTiles, paths) && tilesToCheck != []
    ensures Filling(ts, W, start, tilesInArea', tilesToCheck', waterTiles', paths')
    ensures |waterTiles'| < |waterTiles| || (waterTiles' == waterTiles && |tilesToCheck'| < |tilesToCheck|)
  {
    ghost var first: int := tilesToCheck[0];
    assert first in tilesToCheck;
    var tileWeAreChecking :| tileWeAreChecking in tilesToCheck;
    var unclaimed, toCheck;
    unclaimed, tilesInArea', toCheck, waterTiles', paths' :=
      AbsorbNeighbors(ts, W, start, tileWeAreChecking, tilesInArea, tilesToCheck, waterTiles, paths);
    tilesToCheck' := RemoveFirst(toCheck, tileWeAreChecking);
    assert tilesInArea'[0] == start;
    forall a | a in tilesInArea' && a !in tilesToCheck'
      ensures 0 <= a < |ts| && forall n :: n in ts[a].neighbors && n in W ==> n in tilesInArea'
    {
      if a != tileWeAreChecking {
        assert a !in toCheck;
        assert a in tilesInArea && a !in tilesToCheck;
      }
    }
  }

  /** The inner `while` of the lake pass, from `initialWaterTile` through
      the remaining water tiles `waterTiles`.  The pick among the tiles to
      check is left open: the area comes out the same for every order. */
  method FloodFill(ts: seq<Tile>, waterTiles: seq<int>, initialWaterTile: int)
    returns (tilesInArea: seq<int>, rest: seq<int>)
    requires NoDuplicates(waterTiles) && initialWaterTile in waterTiles
    requires NeighborsInRange(ts, Elems(waterTiles))
    ensures tilesInArea != [] && tilesInArea[0] == initialWaterTile
    ensures Elems(tilesInArea) == Component(ts, Elems(waterTiles), initialWaterTile)
    ensures |Component(ts, Elems(waterTiles), initialWaterTile)| <= |tilesInArea|
    ensures DistinctNeighbors(ts) ==>
      NoDuplicates(tilesInArea) && |tilesInArea| == |Component(ts, Elems(waterTiles), initialWaterTile)|
    ensures NoDuplicates(rest) && Elems(rest) == Elems(waterTiles) - Elems(tilesInArea)
    ensures |rest| < |waterTiles|
  {
    ghost var W := Elems(waterTiles);
    tilesInArea := [initialWaterTile];
    var tilesToCheck := [initialWaterTile];
    RemoveFirstNoDuplicates(waterTiles, initialWaterTile);
    rest := RemoveFirst(waterTiles, initialWaterTile);
    ghost var paths: map<int, seq<int>> := map[initialWaterTile := [initialWaterTile]];
    assert IsPath(ts, W, [initialWaterTile]);
    while tilesToCheck != []
      invariant Filling(ts, W, initialWaterTile, tilesInArea, tilesToCheck, rest, paths)
      invariant |rest| < |waterTiles|
      decreases |rest|, |tilesToCheck|
    {
      tilesInArea, tilesToCheck, rest, paths := CheckTile(ts, W, initialWaterTile, tilesInArea, tilesToCheck, rest, paths);
    }
    AreaIsComponent(ts, W, initialWaterTile, tilesInArea, paths);
    SplitsElems(W, tilesInArea, rest);
    ElemsCount(tilesInArea);
  }

  /** The outer `while` of the lake pass as a history: `clusters[k]` is the
      area grown in round `k`, from a seed among the water tiles
      `remaining[k]` still unclaimed, and each round removes its area. */
  ghost predicate IsClustering(ts: seq<Tile>, W: set<int>, clusters: seq<seq<int>>, remaining: seq<set<int>>) {
    && Peels(W, clusters, remaining)
    && forall k :: 0 <= k < |clusters| ==> IsArea(ts, remaining[k], clusters[k])
  }

  /** `area` lists the component in `R` of its first entry, each tile once
      when no neighbour array repeats an index. */
  ghost predicate IsArea(ts: seq<Tile>, R: set<int>, area: seq<int>) {
    && area != [] && area[0] in R && Elems(area) == Component(ts, R, area[0])
    && (DistinctNeighbors(ts) ==> NoDuplicates(area))
  }

  /** The bookkeeping part of the history: each round's area is carved out
      of the water tiles left by the round before. */
  ghost predicate Peels(W: set<int>, clusters: seq<seq<int>>, remaining: seq<set<int>>) {
    && |remaining| == |clusters| + 1
    && remaining[0] == W
    && forall k :: 0 <= k < |clusters| ==>
         Elems(clusters[k]) <= remaining[k] && remaining[k + 1] == remaining[k] - Elems(clusters[k])
  }

  /** One more round: an area grown from an unclaimed tile, and the tiles it
      leaves. */
  lemma ClusteringExtend(ts: seq<Tile>, W: set<int>, clusters: seq<seq<int>>, remaining: seq<set<int>>,
                         area: seq<int>, R: set<int>)
    requires IsClustering(ts, W, clusters, remaining)
    requires IsArea(ts, remaining[|clusters|], area) && R == remaining[|clusters|] - Elems(area)
    ensures IsClustering(ts, W, clusters + [area], remaining + [R])
  {
    var c, r := clusters + [area], remaining + [R];
    forall k | 0 <= k < |c|
      ensures Elems(c[k]) <= r[k] && r[k + 1] == r[k] - Elems(c[k]) && IsArea(ts, r[k], c[k])
    {
      if k < |clusters| {
        assert c[k] == clusters[k] && r[k] == remaining[k] && r[k + 1] == remaining[k + 1];
      } else {
        assert c[k] == area && r[k] == remaining[|clusters|] && r[k + 1] == R;
      }
    }
  }

  /** The tiles of every area of at most ten entries: those the pass turns
      into Lakes.  `tilesInArea.size` counts entries; a tile listed twice
      counts twice. */
  ghost function SmallClusterTiles(clusters: seq<seq<int>>): set<int> {
    set k, i | 0 <= k < |clusters| && i in clusters[k] && |clusters[k]| <= 10 :: i
  }

  lemma SmallClusterTilesAppend(clusters: seq<seq<int>>, area: seq<int>)
    ensures SmallClusterTiles(clusters + [area]) ==
      SmallClusterTiles(clusters) + (if |area| <= 10 then Elems(area) else {})
  {
    var c := clusters + [area];
    forall i | i in SmallClusterTiles(c)
      ensures i in SmallClusterTiles(clusters) + (if |area| <= 10 then Elems(area) else {})
    {
      var k :| 0 <= k < |c| && i in c[k] && |c[k]| <= 10;
      if k < |clusters| {
        assert c[k] == clusters[k];
      }
    }
    forall i | i in SmallClusterTiles(clusters) ensures i in SmallClusterTiles(c) {
      var k :| 0 <= k < |clusters| && i in clusters[k] && |clusters[k]| <= 10;
      assert c[k] == clusters[k];
    }
    if |area| <= 10 {
      forall i | i in area ensures i in SmallClusterTiles(c) {
        assert c[|clusters|] == area;
      }
    }
  }

  /** Each round takes only unclaimed water tiles, so after `m` rounds the
      water tiles are split between the first `m` areas and `remaining[m]`. */
  lemma {:induction false} ClusteringSplits(W: set<int>, clusters: seq<seq<int>>,
                                            remaining: seq<set<int>>, m: nat)
    requires Peels(W, clusters, remaining) && m <= |clusters|
    ensures remaining[m] <= W
    ensures forall k :: 0 <= k < m ==> Elems(clusters[k]) <= W && Elems(clusters[k]) !! remaining[m]
    ensures forall w :: w in W ==> w in remaining[m] || exists k :: 0 <= k < m && w in clusters[k]
  {
    if m > 0 {
      ClusteringSplits(W, clusters, remaining, m - 1);
      var c := clusters[m - 1];
      forall w | w in W ensures w in remaining[m] || exists k :: 0 <= k < m && w in clusters[k] {
        if w !in remaining[m] && w in remaining[m - 1] {
          assert w in Elems(c);
        }
      }
    }
  }

  /** Once no water tile is left, the areas partition the water tiles:
      every water tile lies in one area and no two areas share a tile. */
  lemma ClustersPartitionWater(ts: seq<Tile>, W: set<int>, clusters: seq<seq<int>>, remaining: seq<set<int>>)
    requires IsClustering(ts, W, clusters, remaining) && remaining[|clusters|] == {}
    ensures forall w :: w in W <==> exists k :: 0 <= k < |clusters| && w in clusters[k]
    ensures forall k, l :: 0 <= k < l < |clusters| ==> Elems(clusters[k]) !! Elems(clusters[l])
  {
    ClusteringSplits(W, clusters, remaining, |clusters|);
    forall k, l | 0 <= k < l < |clusters| ensures Elems(clusters[k]) !! Elems(clusters[l]) {
      ClusteringSplits(W, clusters, remaining, k + 1);
      RemainingShrinks(W, clusters, remaining, k + 1, l);
    }
    forall w | exists k :: 0 <= k < |clusters| && w in clusters[k] ensures w in W {
      var k :| 0 <= k < |clusters| && w in clusters[k];
      assert w in Elems(clusters[k]);
    }
  }

  /** The tiles turned into Lakes are water tiles, and a tile of an area is
      among them exactly when its area has at most ten entries.  A component
      of more than ten tiles never becomes Lakes; when no neighbour array
      repeats an index, every component of at most ten tiles does. */
  lemma LakesAreSmallAreas(ts: seq<Tile>, W: set<int>, clusters: seq<seq<int>>, remaining: seq<set<int>>)
    requires IsClustering(ts, W, clusters, remaining) && remaining[|clusters|] == {}
    ensures SmallClusterTiles(clusters) <= W
    ensures forall k, i :: 0 <= k < |clusters| && i in clusters[k] ==>
      (i in SmallClusterTiles(clusters) <==> |clusters[k]| <= 10)
    ensures forall k, i :: 0 <= k < |clusters| && i in clusters[k] ==>
      (|Component(ts, remaining[k], clusters[k][0])| > 10 ==> i !in SmallClusterTiles(clusters))
    ensures DistinctNeighbors(ts) ==> forall k, i :: 0 <= k < |clusters| && i in clusters[k] ==>
      (i in SmallClusterTiles(clusters) <==> |Component(ts, remaining[k], clusters[k][0])| <= 10)
  {
    forall k | 0 <= k < |clusters|
      ensures |Component(ts, remaining[k], clusters[k][0])| <= |clusters[k]|
      ensures DistinctNeighbors(ts) ==> |Component(ts, remaining[k], clusters[k][0])| == |clusters[k]|
    {
      ElemsCount(clusters[k]);
    }
    ClustersPartitionWater(ts, W, clusters, remaining);
    forall k, i | 0 <= k < |clusters| && i in clusters[k] && i in SmallClusterTiles(clusters)
      ensures |clusters[k]| <= 10
    {
      var l :| 0 <= l < |clusters| && i in clusters[l] && |clusters[l]| <= 10;
      assert i in Elems(clusters[k]) && i in Elems(clusters[l]);
    }
  }

  lemma {:induction false} RemainingShrinks(W: set<int>, clusters: seq<seq<int>>,
                                            remaining: seq<set<int>>, k: nat, l: nat)
    requires Peels(W, clusters, remaining) && k <= l <= |clusters|
    ensures remaining[l] <= remaining[k]
    decreases l - k
  {
    if k < l {
      RemainingShrinks(W, clusters, remaining, k, l - 1);
    }
  }

  /** Without water tiles there is no round at all. */
  lemma NoWaterNoClusters(ts: seq<Tile>, clusters: seq<seq<int>>, remaining: seq<set<int>>)
    requires IsClustering(ts, {}, clusters, remaining)
    ensures clusters == [] && SmallClusterTiles(clusters) == {}
  {
  }
}
