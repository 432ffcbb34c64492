/** `Map`: the tile array and the generation passes its initialiser runs in
    order — land, mountains and hills, climate, lakes and coasts, ancient
    ruins.  Noise values arrive as per-tile `real` inputs already reshaped by
    the source's floating-point formulas; random picks are nondeterministic
    choices. */
module Maps {
  import opened Wrappers
  import opened Seqs
  import opened Terrain
  import opened Tiles
  import opened MapTables
  import opened SpreadOut
  import opened Hydrography

  /** The predicates the passes filter the tile array by. */
  datatype Kind = WaterTiles | LandTiles | OceanTiles

  predicate Matches(k: Kind, t: Tile) {
    match k
    case WaterTiles => t.IsWater()
    case LandTiles => t.IsLand()
    case OceanTiles => t.baseTerrain == Ocean
  }

  /** `tiles.filter { ... }` over the first `n` tiles, as indices in array order. */
  function IndicesWhere(ts: seq<Tile>, k: Kind, n: nat): (r: seq<nat>)
    requires n <= |ts|
    ensures forall j :: 0 <= j < |r| ==> r[j] < n && Matches(k, ts[r[j]])
    ensures forall i :: 0 <= i < n && Matches(k, ts[i]) ==> i in r
    ensures forall a, b :: 0 <= a < b < |r| ==> r[a] < r[b]
    ensures (forall i :: 0 <= i < n ==> Matches(k, ts[i])) ==> |r| == n
  {
    if n == 0 then []
    else IndicesWhere(ts, k, n - 1) + (if Matches(k, ts[n - 1]) then [n - 1] else [])
  }

  function TilesWhere(ts: seq<Tile>, k: Kind): (r: seq<nat>)
    ensures InTiles(ts, r) && NoDuplicates(r)
    ensures forall i :: i in r <==> 0 <= i < |ts| && Matches(k, ts[i])
  {
    IndicesWhere(ts, k, |ts|)
  }

  /** The tile at index `i` as the array initialiser creates it:
      `Tile(this, i % width, i / height)`, before any pass has given it a
      terrain (the `lateinit` terrain is shown as Grassland; no pass reads
      it before `generateLand` writes it). */
  function NewTile(i: nat, width: nat, height: nat): Tile
    requires width > 0 && height > 0
  {
    var x := TileX(i, width);
    var y := TileY(i, height);
    Tile(x, y, NeighborIndices(x, y, width, height), false, Grassland, false)
  }

  /** `Array(width * height) { i -> Tile(this, i % width, i / height) }`. */
  method BuildTiles(width: nat, height: nat) returns (a: array<Tile>)
    requires width > 0 && height > 0
    ensures fresh(a) && a.Length == width * height
    ensures forall i :: 0 <= i < a.Length ==> a[i] == NewTile(i, width, height)
  {
    a := new Tile[width * height](_ => Tile(0, 0, [], false, Grassland, false));
    for i := 0 to a.Length
      invariant forall j :: 0 <= j < i ==> a[j] == NewTile(j, width, height)
    {
      var x := TileX(i, width);
      var y := TileY(i, height);
      var ns := BuildNeighbors(x, y, width, height);
      a[i] := Tile(x, y, ns, false, Grassland, false);
    }
  }

  /** The terrain `raiseMountainsAndHills` leaves on a tile: water is
      skipped, and an elevation above 1.0 matches no branch. */
  function HillsTerrain(t: TerrainType, elevation: real): TerrainType {
    if IsWater(t) then t else ElevationBand(elevation).GetOr(t)
  }

  /** The terrain `applyHumidityAndTemperature` leaves on a tile. */
  function ClimateTerrain(t: TerrainType, temperature: real, humidity: real): TerrainType {
    if ClimateSkips(t) then t else Biome(temperature, humidity)
  }

  /** The terrain the first three passes give one tile. */
  function GeneratedTerrain(mapType: Option<MapType>, elevation: real, hills: real,
                            temperature: real, humidity: real): TerrainType
  {
    ClimateTerrain(HillsTerrain(LandOrWater(elevation, LandThreshold(mapType)), hills), temperature, humidity)
  }

  /** Neither the hills nor the climate pass ever turns land into water or
      water into land. */
  lemma PassesKeepWater(t: TerrainType, elevation: real, temperature: real, humidity: real)
    ensures IsWater(HillsTerrain(t, elevation)) <==> IsWater(t)
    ensures IsWater(ClimateTerrain(t, temperature, humidity)) <==> IsWater(t)
    ensures IsWater(t) ==> HillsTerrain(t, elevation) == t && ClimateTerrain(t, temperature, humidity) == t
  {
    BiomeStaysInClimateRange(temperature, humidity);
  }

  /** What a freshly generated tile is: Hills or Mountains from the elevation
      bands, and otherwise the climate table's biome; never water. */
  lemma GeneratedTerrainTable(mapType: Option<MapType>, elevation: real, hills: real,
                              temperature: real, humidity: real)
    ensures var g := GeneratedTerrain(mapType, elevation, hills, temperature, humidity);
      && (g == Hills <==> 0.5 < hills <= 0.7)
      && (g == Mountains <==> 0.7 < hills <= 1.0)
      && (!(0.5 < hills <= 1.0) ==> g == Biome(temperature, humidity))
      && !IsWater(g)
  {
    BiomeStaysInClimateRange(temperature, humidity);
    ElevationBandTable(hills);
  }

  /** `tiles[it].isLand()` is asked of every neighbour of an Ocean tile. */
  ghost predicate OceanNeighborsInRange(ts: seq<Tile>) {
    forall i :: 0 <= i < |ts| && ts[i].baseTerrain == Ocean ==>
      forall n :: n in ts[i].neighbors ==> 0 <= n < |ts|
  }

  /** The lookups of the lake pass: every neighbour of a water tile. */
  ghost predicate WaterNeighborsInRange(ts: seq<Tile>) {
    forall i :: 0 <= i < |ts| && ts[i].IsWater() ==>
      forall n :: n in ts[i].neighbors ==> 0 <= n < |ts|
  }

  /** `neighbors.any { tiles[it].isLand() }`. */
  function AnyLand(ts: seq<Tile>, ns: seq<int>): (r: bool)
    requires forall n :: n in ns ==> 0 <= n < |ts|
    ensures r <==> exists n :: n in ns && ts[n].IsLand()
  {
    if ns == [] then false
    else
      assert ns == [ns[0]] + ns[1..] && ns[0] in ns;
      assert forall n :: n in ns[1..] ==> n in ns;
      ts[ns[0]].IsLand() || AnyLand(ts, ns[1..])
  }

  /** An Ocean tile next to land becomes a coast. */
  ghost predicate Coasted(ts: seq<Tile>, i: int)
    requires 0 <= i < |ts|
  {
    ts[i].baseTerrain == Ocean && exists n :: n in ts[i].neighbors && 0 <= n < |ts| && ts[n].IsLand()
  }

  /** The source's test decides the coast pass's outcome for a tile. */
  lemma CoastTest(ts: seq<Tile>, i: int)
    requires 0 <= i < |ts| && OceanNeighborsInRange(ts)
    ensures ts[i].baseTerrain == Ocean && AnyLand(ts, ts[i].neighbors) ==> CoastUpdate(ts, i) == ts[i].(coast := true)
    ensures !(ts[i].baseTerrain == Ocean && AnyLand(ts, ts[i].neighbors)) ==> CoastUpdate(ts, i) == ts[i]
  {
  }

  /** The tile after the coast pass. */
  ghost function CoastUpdate(ts: seq<Tile>, i: int): Tile
    requires 0 <= i < |ts|
  {
    ts[i].(coast := ts[i].coast || Coasted(ts, i))
  }

  /** The tile array after the lake pass turned the tiles of `lakes` into Lakes. */
  function LakesMarked(ts: seq<Tile>, lakes: set<int>): (r: seq<Tile>)
    ensures |r| == |ts|
  {
    seq(|ts|, i requires 0 <= i < |ts| => if i in lakes then ts[i].(baseTerrain := Lakes) else ts[i])
  }

  /** What the outer `while` of the lake pass keeps: the history so far, and
      the water tiles still unclaimed, once each, whose neighbours exist. */
  ghost predicate LakeLoop(ts: seq<Tile>, W: set<int>, areas: seq<seq<int>>, remaining: seq<set<int>>,
                           waterTiles: seq<int>) {
    && IsClustering(ts, W, areas, remaining)
    && NoDuplicates(waterTiles)
    && Elems(waterTiles) == remaining[|areas|]
    && NeighborsInRange(ts, Elems(waterTiles))
  }

  /** A flood fill from an unclaimed water tile extends the clustering by
      its area and leaves the rest of the water tiles for the next round. */
  lemma LakeLoopStep(ts: seq<Tile>, W: set<int>, areas: seq<seq<int>>, remaining: seq<set<int>>,
                     waterTiles: seq<int>, tilesInArea: seq<int>, rest: seq<int>)
    requires LakeLoop(ts, W, areas, remaining, waterTiles)
    requires tilesInArea != [] && tilesInArea[0] in waterTiles
    requires Elems(tilesInArea) == Component(ts, Elems(waterTiles), tilesInArea[0])
    requires DistinctNeighbors(ts) ==> NoDuplicates(tilesInArea)
    requires NoDuplicates(rest) && Elems(rest) == Elems(waterTiles) - Elems(tilesInArea)
    ensures LakeLoop(ts, W, areas + [tilesInArea], remaining + [Elems(rest)], rest)
    ensures forall t :: t in tilesInArea ==> t in Elems(waterTiles)
  {
    ComponentShape(ts, Elems(waterTiles), tilesInArea[0]);
    assert forall t :: t in tilesInArea ==> t in Elems(waterTiles);
    ClusteringExtend(ts, W, areas, remaining, tilesInArea, Elems(rest));
  }

  /** Marking lakes leaves no new Ocean tile, so the coast pass looks up only
      neighbours of tiles that were water to begin with. */
  lemma LakesMarkedOceans(ts: seq<Tile>, lakes: set<int>)
    requires WaterNeighborsInRange(ts)
    ensures OceanNeighborsInRange(LakesMarked(ts, lakes))
    ensures forall i :: 0 <= i < |ts| ==> LakesMarked(ts, lakes)[i].neighbors == ts[i].neighbors
  {
  }

  class Map {
    const width: nat
    const height: nat
    const mapType: Option<MapType>
    const tiles: array<Tile>
    const centerIndex: nat

    /** The tiles as the array initialiser created them. */
    ghost const layout: seq<Tile>
    /** The water areas the lake pass grew, in the order it grew them. */
    ghost var lakeAreas: seq<seq<int>>
    /** The tiles that carry a lost city rumour, and the spacing of the
        placement attempt that chose them. */
    ghost var ruinSites: seq<nat>
    ghost var ruinDistance: int
    /** The tiles just before `spreadAncientRuins`. */
    ghost var dryLand: seq<Tile>

    /** Tile `i` sits at `(i % width, i / height)` with the neighbours its
        constructor computes. */
    ghost predicate LaidOut() {
      && width > 0 && height > 0
      && |layout| == width * height
      && forall i :: 0 <= i < |layout| ==> layout[i] == NewTile(i, width, height)
    }

    /** The layout is the initialiser's, the centre tile exists and every
        tile is still in the cell and has the neighbours it was created with; the passes change only terrain,
        coast and rumour flags. */
    ghost predicate Valid()
      reads tiles
    {
      && width > 0 && height > 0
      && tiles.Length == width * height == |layout|
      && centerIndex == CenterIndex(width, height) < tiles.Length
      && forall i :: 0 <= i < tiles.Length ==> SameCell(tiles[i], layout[i])
    }

    /** `tile.longitude` of tile `i`: its column less the column of
        `centerTile`, which is `tiles[centerIndex]`. */
    function Longitude(i: nat): (r: int)
      reads tiles
      requires Valid() && LaidOut() && i < tiles.Length
      ensures r == TileX(i, width) - TileX(centerIndex, width)
    {
      Tiles.Longitude(tiles[i], tiles[centerIndex])
    }

    /** `tile.latitude` of tile `i`: its row less the row of `centerTile`. */
    function Latitude(i: nat): (r: int)
      reads tiles
      requires Valid() && LaidOut() && i < tiles.Length
      ensures r == TileY(i, height) - TileY(centerIndex, height)
    {
      Tiles.Latitude(tiles[i], tiles[centerIndex])
    }

    /** Map.kt lines 6-26: lay out the tiles, then run the five passes. */
    constructor(width: nat, height: nat, mapType: Option<MapType>, elevation: seq<real>, hills: seq<real>,
                temperature: seq<real>, humidity: seq<real>)
      requires CenterIndex(width, height) < width * height
      requires |elevation| == |hills| == |temperature| == |humidity| == width * height
      ensures Valid() && LaidOut() && fresh(tiles)
      ensures this.width == width && this.height == height && this.mapType == mapType
      ensures forall i :: 0 <= i < tiles.Length ==>
        && tiles[i].baseTerrain == GeneratedTerrain(mapType, elevation[i], hills[i], temperature[i], humidity[i])
        && !tiles[i].IsWater() && !tiles[i].coast
        && (tiles[i].lostCityRumors <==> i in ruinSites)
      ensures lakeAreas == []
      ensures |dryLand| == tiles.Length
      ensures forall i :: 0 <= i < tiles.Length ==> tiles[i] == dryLand[i].(lostCityRumors := i in ruinSites)
      ensures |TilesWhere(dryLand, LandTiles)| == tiles.Length
      ensures var suitableTiles := TilesWhere(dryLand, LandTiles);
        SpreadOutChoice(dryLand, suitableTiles, |suitableTiles| / 100, 10, ruinSites, ruinDistance)
    {
      CenterInRangeIff(width, height);
      this.width := width;
      this.height := height;
      this.mapType := mapType;
      var a := BuildTiles(width, height);
      this.tiles := a;
      this.layout := a[..];
      this.centerIndex := CenterIndex(width, height);
      new;
      assert LaidOut();
      Populate(elevation, hills, temperature, humidity);
    }

    /** The five passes of the constructor on the laid-out tiles, recording
        the lake areas, the tiles before the ruins and the ruin placement. */
    method Populate(elevation: seq<real>, hills: seq<real>, temperature: seq<real>, humidity: seq<real>)
      requires Valid() && LaidOut() && |elevation| == |hills| == |temperature| == |humidity| == tiles.Length
      requires forall i :: 0 <= i < tiles.Length ==> !tiles[i].coast && !tiles[i].lostCityRumors
      modifies this, tiles
      ensures Valid()
      ensures forall i :: 0 <= i < tiles.Length ==>
        && tiles[i].baseTerrain == GeneratedTerrain(mapType, elevation[i], hills[i], temperature[i], humidity[i])
        && !tiles[i].IsWater() && !tiles[i].coast
        && (tiles[i].lostCityRumors <==> i in ruinSites)
      ensures lakeAreas == []
      ensures |dryLand| == tiles.Length
      ensures forall i :: 0 <= i < tiles.Length ==> tiles[i] == dryLand[i].(lostCityRumors := i in ruinSites)
      ensures |TilesWhere(dryLand, LandTiles)| == tiles.Length
      ensures var suitableTiles := TilesWhere(dryLand, LandTiles);
        SpreadOutChoice(dryLand, suitableTiles, |suitableTiles| / 100, 10, ruinSites, ruinDistance)
    {
      Generate(elevation, hills, temperature, humidity);
      ghost var generated := tiles[..];
      lakeAreas := SpawnLakesOnDryLand();
      SettleRuins();
      assert dryLand == generated;
    }

    /** The ruin pass on a map without water, recording the tiles it started
        from and where and how far apart it placed the rumours. */
    method SettleRuins()
      requires Valid()
      requires forall i :: 0 <= i < tiles.Length ==> !tiles[i].IsWater() && !tiles[i].lostCityRumors
      modifies this, tiles
      ensures Valid() && lakeAreas == old(lakeAreas) && dryLand == old(tiles[..])
      ensures forall i :: 0 <= i < tiles.Length ==> tiles[i] == dryLand[i].(lostCityRumors := i in ruinSites)
      ensures |TilesWhere(dryLand, LandTiles)| == tiles.Length
      ensures var suitableTiles := TilesWhere(dryLand, LandTiles);
        SpreadOutChoice(dryLand, suitableTiles, |suitableTiles| / 100, 10, ruinSites, ruinDistance)
    {
      dryLand := tiles[..];
      ruinSites, ruinDistance := SpreadRuinsOnDryLand();
    }

    /** The first three passes: `generateLand`, `raiseMountainsAndHills` and
        `applyHumidityAndTemperature`.  No tile comes out as water. */
    method Generate(elevation: seq<real>, hills: seq<real>, temperature: seq<real>, humidity: seq<real>)
      requires Valid() && |elevation| == |hills| == |temperature| == |humidity| == tiles.Length
      modifies tiles
      ensures Valid()
      ensures forall i :: 0 <= i < tiles.Length ==>
        && tiles[i] == old(tiles[i]).(baseTerrain := GeneratedTerrain(mapType, elevation[i], hills[i], temperature[i], humidity[i]))
        && !tiles[i].IsWater()
    {
      GenerateLand(elevation);
      RaiseMountainsAndHills(hills);
      ApplyHumidityAndTemperature(temperature, humidity);
      forall i | 0 <= i < tiles.Length
        ensures !IsWater(GeneratedTerrain(mapType, elevation[i], hills[i], temperature[i], humidity[i]))
      {
        GeneratedTerrainTable(mapType, elevation[i], hills[i], temperature[i], humidity[i]);
      }
    }

    /** `spawnLakesAndCoasts` on a map without water changes nothing. */
    method SpawnLakesOnDryLand() returns (ghost areas: seq<seq<int>>)
      requires Valid() && LaidOut() && forall i :: 0 <= i < tiles.Length ==> !tiles[i].IsWater()
      modifies tiles
      ensures Valid() && areas == [] && tiles[..] == old(tiles[..])
    {
      ghost var generated := tiles[..];
      ghost var remaining;
      areas, remaining := SpawnLakesAndCoasts();
      NoLakesWithoutWater(generated, areas, remaining);
      assert tiles[..] == generated;
    }

    /** `spreadAncientRuins` on a map without water: every tile is a
        candidate, so there are `tiles / 100` rumours to place. */
    method SpreadRuinsOnDryLand()
      returns (ghost sites: seq<nat>, ghost distance: int)
      requires Valid()
      requires forall i :: 0 <= i < tiles.Length ==> !tiles[i].IsWater() && !tiles[i].lostCityRumors
      modifies tiles
      ensures Valid()
      ensures forall i :: 0 <= i < tiles.Length ==> tiles[i] == old(tiles[i]).(lostCityRumors := i in sites)
      ensures |TilesWhere(old(tiles[..]), LandTiles)| == tiles.Length
      ensures var ts := old(tiles[..]); var suitableTiles := TilesWhere(ts, LandTiles);
        SpreadOutChoice(ts, suitableTiles, |suitableTiles| / 100, 10, sites, distance)
    {
      ghost var generated := tiles[..];
      sites, distance := SpreadAncientRuins();
      RuinsOnEveryTile(generated);
    }

    /** `generateLand`: every tile gets `landOrWater`'s answer for its
        elevation and the threshold of the map type. */
    method GenerateLand(elevation: seq<real>)
      requires Valid() && |elevation| == tiles.Length
      modifies tiles
      ensures Valid()
      ensures forall i :: 0 <= i < tiles.Length ==>
        tiles[i] == old(tiles[i]).(baseTerrain := LandOrWater(elevation[i], LandThreshold(mapType)))
    {
      ghost var ts := tiles[..];
      for i := 0 to tiles.Length
        invariant forall j :: 0 <= j < tiles.Length ==>
          tiles[j] == if j < i then ts[j].(baseTerrain := LandOrWater(elevation[j], LandThreshold(mapType))) else ts[j]
      {
        tiles[i] := tiles[i].(baseTerrain := LandOrWater(elevation[i], LandThreshold(mapType)));
      }
    }

    /** `raiseMountainsAndHills`.  The source iterates a filtered copy of the
        land tiles; each write touches only the tile just examined, so examining
        in the loop is the same. */
    method RaiseMountainsAndHills(hills: seq<real>)
      requires Valid() && |hills| == tiles.Length
      modifies tiles
      ensures Valid()
      ensures forall i :: 0 <= i < tiles.Length ==>
        tiles[i] == old(tiles[i]).(baseTerrain := HillsTerrain(old(tiles[i]).baseTerrain, hills[i]))
    {
      ghost var ts := tiles[..];
      for i := 0 to tiles.Length
        invariant forall j :: 0 <= j < tiles.Length ==>
          tiles[j] == if j < i then ts[j].(baseTerrain := HillsTerrain(ts[j].baseTerrain, hills[j])) else ts[j]
      {
        var tile := tiles[i];
        if !tile.IsWater() {
          var band := ElevationBand(hills[i]);
          if band.Some? {
            tiles[i] := tile.(baseTerrain := band.value);
          }
        } else {
          assert tiles[i] == ts[i].(baseTerrain := HillsTerrain(ts[i].baseTerrain, hills[i]));
        }
      }
    }

    /** `applyHumidityAndTemperature`: water, Mountains and Hills are
        skipped (the source's `continue`), every other tile takes the biome
        of its climate. */
    method ApplyHumidityAndTemperature(temperature: seq<real>, humidity: seq<real>)
      requires Valid() && |temperature| == |humidity| == tiles.Length
      modifies tiles
      ensures Valid()
      ensures forall i :: 0 <= i < tiles.Length ==>
        tiles[i] == old(tiles[i]).(baseTerrain :=
          ClimateTerrain(old(tiles[i]).baseTerrain, temperature[i], humidity[i]))
    {
      ghost var ts := tiles[..];
      ghost var target := seq(tiles.Length, j requires 0 <= j < tiles.Length =>
        ClimateTerrain(ts[j].baseTerrain, temperature[j], humidity[j]));
      for i := 0 to tiles.Length
        invariant forall j :: 0 <= j < tiles.Length ==>
          tiles[j] == if j < i then ts[j].(baseTerrain := target[j]) else ts[j]
      {
        var tile := tiles[i];
        assert target[i] == ClimateTerrain(tile.baseTerrain, temperature[i], humidity[i]);
        if !ClimateSkips(tile.baseTerrain) {
          tiles[i] := tile.(baseTerrain := Biome(temperature[i], humidity[i]));
        }
      }
    }

    /** `spawnLakesAndCoasts`: the water tiles are split into areas, one
        flood fill at a time; areas of at most ten list entries become Lakes
        (on a grid at least three wide, components of at most ten tiles);
        then every Ocean tile next to land becomes a coast. */
    method SpawnLakesAndCoasts() returns (ghost areas: seq<seq<int>>, ghost remaining: seq<set<int>>)
      requires Valid() && LaidOut() && WaterNeighborsInRange(tiles[..])
      modifies tiles
      ensures Valid()
      ensures IsClustering(old(tiles[..]), Elems(TilesWhere(old(tiles[..]), WaterTiles)), areas, remaining)
      ensures remaining[|areas|] == {}
      ensures width >= 3 ==> forall k, i :: 0 <= k < |areas| && i in areas[k] ==>
        (i in SmallClusterTiles(areas) <==> |Component(old(tiles[..]), remaining[k], areas[k][0])| <= 10)
      ensures var lakes := LakesMarked(old(tiles[..]), SmallClusterTiles(areas));
        forall i :: 0 <= i < tiles.Length ==> tiles[i] == CoastUpdate(lakes, i)
    {
      ghost var ts := tiles[..];
      if width >= 3 {
        GridNeighborsDistinct(ts, layout, width, height);
      }
      areas, remaining := MarkLakeAreas();
      assert tiles[..] == LakesMarked(ts, SmallClusterTiles(areas));
      LakesMarkedOceans(ts, SmallClusterTiles(areas));
      MarkCoasts();
    }

    /** The `//define lakes` half.  The fill works on a snapshot of the
        array: it reads only the neighbour lists and compares tiles by
        identity, neither of which the Lakes writes change. */
    method MarkLakeAreas() returns (ghost areas: seq<seq<int>>, ghost remaining: seq<set<int>>)
      requires Valid() && WaterNeighborsInRange(tiles[..])
      modifies tiles
      ensures Valid()
      ensures IsClustering(old(tiles[..]), Elems(TilesWhere(old(tiles[..]), WaterTiles)), areas, remaining)
      ensures remaining[|areas|] == {}
      ensures DistinctNeighbors(old(tiles[..])) ==> forall k, i :: 0 <= k < |areas| && i in areas[k] ==>
        (i in SmallClusterTiles(areas) <==> |Component(old(tiles[..]), remaining[k], areas[k][0])| <= 10)
      ensures forall i :: 0 <= i < tiles.Length ==> tiles[i] == LakesMarked(old(tiles[..]), SmallClusterTiles(areas))[i]
    {
      var ts := tiles[..];
      assert forall i :: 0 <= i < |ts| ==> SameCell(ts[i], layout[i]);
      var waterTiles: seq<int> := TilesWhere(ts, WaterTiles);
      ghost var W := Elems(waterTiles);
      areas, remaining := [], [W];
      while waterTiles != []
        invariant |ts| == tiles.Length
        invariant LakeLoop(ts, W, areas, remaining, waterTiles)
        invariant forall i :: 0 <= i < tiles.Length ==> tiles[i] == LakesMarked(ts, SmallClusterTiles(areas))[i]
        decreases |waterTiles|
      {
        areas, remaining, waterTiles := GrowLake(ts, W, areas, remaining, waterTiles);
      }
      assert SameCells: forall i :: 0 <= i < tiles.Length ==> SameCell(tiles[i], ts[i]);
      if DistinctNeighbors(ts) {
        LakesAreSmallAreas(ts, W, areas, remaining);
      }
    }

    /** One round of the outer `while`: grow the area of a water tile still
        unclaimed, turn it into Lakes if it has at most ten entries, and go on
        with the water tiles left. */
    method GrowLake(ts: seq<Tile>, ghost W: set<int>, ghost areas: seq<seq<int>>, ghost remaining: seq<set<int>>,
                    waterTiles: seq<int>)
      returns (ghost areas': seq<seq<int>>, ghost remaining': seq<set<int>>, waterTiles': seq<int>)
      requires |ts| == tiles.Length && LakeLoop(ts, W, areas, remaining, waterTiles) && waterTiles != []
      requires forall i :: 0 <= i < tiles.Length ==> tiles[i] == LakesMarked(ts, SmallClusterTiles(areas))[i]
      modifies tiles
      ensures LakeLoop(ts, W, areas', remaining', waterTiles') && |waterTiles'| < |waterTiles|
      ensures forall i :: 0 <= i < tiles.Length ==> tiles[i] == LakesMarked(ts, SmallClusterTiles(areas'))[i]
    {
      ghost var first := waterTiles[0];
      assert first in waterTiles;
      var initialWaterTile :| initialWaterTile in waterTiles;
      var tilesInArea, rest := FloodFill(ts, waterTiles, initialWaterTile);
      LakeLoopStep(ts, W, areas, remaining, waterTiles, tilesInArea, rest);
      if |tilesInArea| <= 10 {
        MarkArea(ts, SmallClusterTiles(areas), tilesInArea);
      }
      SmallClusterTilesAppend(areas, tilesInArea);
      areas', remaining', waterTiles' := areas + [tilesInArea], remaining + [Elems(rest)], rest;
    }

    /** `for (tile in tilesInArea) tile.baseTerrain = TerrainType.Lakes`. */
    method MarkArea(ghost ts: seq<Tile>, ghost lakes: set<int>, tilesInArea: seq<int>)
      requires |ts| == tiles.Length && forall t :: t in tilesInArea ==> 0 <= t < |ts|
      requires forall i :: 0 <= i < tiles.Length ==> tiles[i] == LakesMarked(ts, lakes)[i]
      modifies tiles
      ensures forall i :: 0 <= i < tiles.Length ==> tiles[i] == LakesMarked(ts, lakes + Elems(tilesInArea))[i]
    {
      for k := 0 to |tilesInArea|
        invariant forall i :: 0 <= i < tiles.Length ==> tiles[i] == LakesMarked(ts, lakes + Elems(tilesInArea[..k]))[i]
      {
        var tile := tilesInArea[k];
        assert tile in tilesInArea;
        assert Elems(tilesInArea[..k + 1]) == Elems(tilesInArea[..k]) + {tile} by {
          assert tilesInArea[..k + 1] == tilesInArea[..k] + [tile];
        }
        tiles[tile] := tiles[tile].(baseTerrain := Lakes);
      }
      assert tilesInArea[..|tilesInArea|] == tilesInArea;
    }

    /** The `//Coasts` half: an Ocean tile with a land neighbour becomes a
        coast.  The source walks the Ocean tiles of a filtered copy in array
        order; walking the array and passing over the other tiles visits the
        same tiles in the same order.  The neighbour test reads a snapshot:
        the loop writes only `coast`, which `isLand` does not read. */
    method MarkCoasts()
      requires Valid() && OceanNeighborsInRange(tiles[..])
      modifies tiles
      ensures Valid()
      ensures forall i :: 0 <= i < tiles.Length ==> tiles[i] == CoastUpdate(old(tiles[..]), i)
    {
      var ts := tiles[..];
      for i := 0 to tiles.Length
        invariant forall j :: 0 <= j < tiles.Length ==> tiles[j] == if j < i then CoastUpdate(ts, j) else ts[j]
      {
        var tile := tiles[i];
        if tile.baseTerrain == Ocean && AnyLand(ts, tile.neighbors) {
          CoastTest(ts, i);
          tiles[i] := tile.(coast := true);
        } else {
          CoastTest(ts, i);
        }
      }
    }

    /** `spreadAncientRuins`: one rumour per hundred land tiles, placed by
        `chooseSpreadOutLocations` starting from a spacing of ten. */
    method SpreadAncientRuins() returns (ghost locations: seq<nat>, ghost distance: int)
      requires Valid()
      modifies tiles
      ensures Valid()
      ensures forall i :: 0 <= i < tiles.Length ==>
        tiles[i] == old(tiles[i]).(lostCityRumors := old(tiles[i]).lostCityRumors || i in locations)
      ensures var ts := old(tiles[..]); var suitableTiles := TilesWhere(ts, LandTiles);
        SpreadOutChoice(ts, suitableTiles, |suitableTiles| / 100, 10, locations, distance)
    {
      var ts := tiles[..];
      var suitableTiles := TilesWhere(ts, LandTiles);
      var r;
      ghost var rounds, tried;
      r, distance, rounds, tried := ChooseSpreadOutLocations(ts, |suitableTiles| / 100, suitableTiles, 10);
      var chosen := r.value;
      locations := chosen;
      MarkRumors(ts, chosen);
    }

    /** `for (tile in chosen) tile.lostCityRumors = true`. */
    method MarkRumors(ghost ts: seq<Tile>, chosen: seq<nat>)
      requires ts == tiles[..] && InTiles(ts, chosen)
      modifies tiles
      ensures forall i :: 0 <= i < tiles.Length ==>
        tiles[i] == ts[i].(lostCityRumors := ts[i].lostCityRumors || i in chosen)
    {
      for k := 0 to |chosen|
        invariant forall i :: 0 <= i < tiles.Length ==>
          tiles[i] == ts[i].(lostCityRumors := ts[i].lostCityRumors || i in chosen[..k])
      {
        var tile := chosen[k];
        assert chosen[..k + 1] == chosen[..k] + [tile];
        tiles[tile] := tiles[tile].(lostCityRumors := true);
      }
      assert chosen[..|chosen|] == chosen;
    }
  }

  /** Two tiles in the same cell with the same neighbour links. */
  predicate SameCell(a: Tile, b: Tile) {
    a.x == b.x && a.y == b.y && a.neighbors == b.neighbors
  }

  /** On a map without water the lake pass grows no area and the coast pass
      finds no Ocean tile, so `spawnLakesAndCoasts` changes nothing. */
  lemma NoLakesWithoutWater(ts: seq<Tile>, areas: seq<seq<int>>, remaining: seq<set<int>>)
    requires forall i :: 0 <= i < |ts| ==> !ts[i].IsWater()
    requires IsClustering(ts, Elems(TilesWhere(ts, WaterTiles)), areas, remaining)
    ensures areas == [] && SmallClusterTiles(areas) == {}
    ensures var lakes := LakesMarked(ts, SmallClusterTiles(areas));
      forall i :: 0 <= i < |ts| ==> CoastUpdate(lakes, i) == ts[i]
  {
    assert Elems(TilesWhere(ts, WaterTiles)) == {};
    NoWaterNoClusters(ts, areas, remaining);
  }

  /** The neighbour arrays of a grid at least three wide never repeat an index. */
  lemma GridNeighborsDistinct(ts: seq<Tile>, layout: seq<Tile>, width: nat, height: nat)
    requires width >= 3 && height > 0 && |ts| == |layout|
    requires forall i :: 0 <= i < |layout| ==> layout[i] == NewTile(i, width, height)
    requires forall i :: 0 <= i < |ts| ==> SameCell(ts[i], layout[i])
    ensures DistinctNeighbors(ts)
  {
    forall i | 0 <= i < |ts| ensures NoDuplicates(ts[i].neighbors) {
      NeighborsDistinct(TileX(i, width), TileY(i, height), width, height);
    }
  }

  /** Setting rumour flags moves no tile, so the spacing of the chosen sites
      holds in the new array too. */
  lemma SpacingKept(ts: seq<Tile>, ts': seq<Tile>, sites: seq<nat>, distance: int)
    requires |ts| == |ts'| && InTiles(ts, sites)
    requires forall i :: 0 <= i < |ts| ==> ts'[i].x == ts[i].x && ts'[i].y == ts[i].y
    requires forall i, j :: 0 <= i < j < |sites| ==> GetDistance(ts[sites[j]], ts[sites[i]]) > distance
    ensures forall i, j :: 0 <= i < j < |sites| ==> GetDistance(ts'[sites[j]], ts'[sites[i]]) > distance
  {
    forall i, j | 0 <= i < j < |sites| ensures GetDistance(ts'[sites[j]], ts'[sites[i]]) > distance {
      assert GetDistance(ts'[sites[j]], ts'[sites[i]]) == GetDistance(ts[sites[j]], ts[sites[i]]);
    }
  }

  /** All tiles are land when the ruins are placed, so every tile is a
      candidate and there are `tiles / 100` resources to place. */
  lemma RuinsOnEveryTile(ts: seq<Tile>)
    requires forall i :: 0 <= i < |ts| ==> !ts[i].IsWater()
    ensures |TilesWhere(ts, LandTiles)| == |ts|
  {
  }
}
