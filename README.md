# Colgame core in Dafny

A model of the game-logic core of Colgame, a colonisation strategy game
written in Kotlin: the map generator's passes over the tile array (land,
mountains and hills, climate, lakes and coasts, ancient ruins) together with
the spread-out placement they use, the tile grid (neighbour indices, Chebyshev
distance, offsets from the centre tile, the terrain catalogue), the colony
economy (buildings and their lookup tables, workers and the running production
total, clamped storages, the per-turn update) and the unit state toggles.

Modules follow the source files:

| module | file | models |
|---|---|---|
| `Wrappers` | wrappers.dfy | `Option` for nullable results and `when` branches that throw, `Result` for operations that may raise |
| `Seqs` | seqs.dfy | list helpers: no duplicates, element set, `MutableList.remove` |
| `Terrain` | terrain.dfy | `TerrainType`, water/land, `forested()` |
| `Tiles` | tiles.dfy | `Tile`, its neighbour construction, `getDistance`, longitude/latitude |
| `MapTables` | maptables.dfy | tile coordinates, centre index, `containsCoordinates`, `landOrWater`, the elevation and climate tables |
| `SpreadOut` | spreadout.dfy | `chooseSpreadOutLocations` |
| `Hydrography` | hydrography.dfy | the flood fill of the lake pass and what its rounds compute |
| `Maps` | maps.dfy | the `Map` class: tile array, initialiser and its five passes |
| `UnitTypes` | unittypes.dfy | `UnitType`, `isSpecialized` |
| `Units` | units.dfy | `Unit` and its four toggles |
| `Goods` | goods.dfy | the `Resource` enum the buildings and the colony use |
| `Buildings` | buildings.dfy | `Bonus`, `BuildingType` tables, `Building` |
| `Colonies` | colony.dfy | `Colony`, `Storage` |

How the model represents the source:

- A `Tile` is a datatype value in the map's `array<Tile>`; a tile is
  identified by its index, so the source's lists of tiles (`waterTiles`,
  `tilesInArea`, `availableTiles`, the chosen tiles) are sequences of indices.
- Random picks (`random(rng)`, `random()`) are nondeterministic choices
  (`:|`). Perlin noise and its floating-point reshaping are replaced by one
  `real` per tile and per channel, given to the `Map` constructor already
  reshaped; the tables then read them exactly as the `when` blocks do.
- The passes' random history is returned as ghost results (the lake areas
  in the order they were grown, the attempt history of the ruins placement) so
  that contracts can speak about them; `Map` keeps them in ghost fields.
- `chooseSpreadOutLocations` is specified by a reference history: rounds of
  (candidates left, per-terrain pick counts) where each round follows from the
  one before by one loop body (`Step`), plus the balance rule that each pick is
  on a terrain with the least count among those with candidates left.
- The lake pass is specified by connected components: each area it grows is
  the set of water tiles reachable from its start through neighbour links
  (`Component`), taken among the water tiles not yet claimed.

Behaviour of the code as written that the model keeps (and proves where it
matters):

- `landOrWater` returns Grassland on both branches, so in the whole
  initialiser no tile is ever water: the hills pass then yields Plains, Hills
  or Mountains (or keeps Grassland above 1.0), and the climate table never
  yields Ocean or SeaLane. The lake and coast pass therefore changes nothing
  inside `Map`'s initialiser, and every tile is a ruins candidate. The
  constructor's contract states this outcome (`Maps.Map.constructor`).
- Only Ocean and SeaLane are water; Lakes counts as land.
- Tiles are laid out with `y = i / height` (not `i / width`), so tile
  coordinates leave the grid exactly when the map is wider than tall
  (`MapTables.EveryTileInsideIff`).
- Neighbour indices are `(x + dx) * width + (y + dy)`, with the bounds tests
  `x < width` and `y < height`. They can be out of range, are not symmetric,
  and can repeat (only on a grid narrower than three columns:
  `Tiles.NeighborsDistinct`). The lake pass therefore requires every water
  tile's neighbours to be in range, which are exactly the lookups its filter
  makes. The coast pass requires the same for every Ocean tile, a superset of
  its lookups, since `any` stops at the first land neighbour.
- `Building.totalResourceAmount += x` goes through the custom getter:
  the stored field becomes `compute(field) + x`, so a non-trivial modifier is
  folded into the field on every update (`Buildings.AddModifierDrifts`).
- `Storage.current += p` goes through the custom setter. The setter adds the
  assigned value, which is already `field + p`, to the old field, so the new
  field is `clamp(2 * field + p)`. As a result a production entry of 0 still
  doubles a storage (`Colonies.ZeroProductionDoubles`); a resource with no
  entry keeps its amount.
- LumberMill upgrades CarpentersShop but is cheaper than it, the only
  upgrade that is (`Buildings.LumberMillCheaperThanPredecessor`).
- The areas the lake pass grows depend on the random order of the picks.
  The proved facts hold for every order: each area is the connected component
  of its start tile, and together the areas partition the water tiles.
- The Lakes test reads `tilesInArea.size`, a count of list entries. When a
  neighbour array repeats an index the same tile can be listed twice. On a
  grid at least three wide no array repeats an index, and the size is then the
  number of tiles in the component.

## Model

| member | source | states |
|---|---|---|
| Terrain.Forested | core/src/com/colgame/Tile.kt:90-102 | succeeds exactly for the eight unforested biomes and then yields a forested biome; the exception is `None` |
| Terrain.LakesCountAsLand | core/src/com/colgame/Tile.kt:48-49 | water is exactly Ocean and SeaLane; Lakes is land |
| Terrain.IsWater | core/src/com/colgame/Tile.kt:48 | the water predicate: Ocean or SeaLane |
| Terrain.IsLand | core/src/com/colgame/Tile.kt:49 | the negation of the water predicate |
| Terrain.ForestedInjective | core/src/com/colgame/Tile.kt:90-99 | no two unforested biomes share a forested counterpart |
| Terrain.ForestedOnto | core/src/com/colgame/Tile.kt:90-99 | every forested biome is the counterpart of some unforested biome |
| Terrain.ForestedFailsOutsideUnforested | core/src/com/colgame/Tile.kt:100 | forested biomes, Arctic, Ocean, Lakes, SeaLane, Mountains and Hills all throw |
| Tiles.IndicesUpToShape | core/src/com/colgame/Tile.kt:22-44 | every entry of a partly built neighbour array is the index of a compass step that passes the bounds tests |
| Tiles.ContributionValues | core/src/com/colgame/Tile.kt:25-42 | each of the eight compass steps contributes the index of the corresponding `add` call, under that call's guard |
| Tiles.BuildNeighbors | core/src/com/colgame/Tile.kt:22-46 | the successive `add` calls build exactly the reference neighbour array, in the order they are added |
| Tiles.NeighborShape | core/src/com/colgame/Tile.kt:22-44 | at most eight entries, each `(x + dx) * width + (y + dy)` for a step that is not (0, 0) |
| Tiles.NeighborCount | core/src/com/colgame/Tile.kt:22-44 | a cell inside the grid has 8 neighbours, 5 on one of the top/left edges, 3 at (0, 0) |
| Tiles.EastNeighborPastGrid | core/src/com/colgame/Tile.kt:34-35 | in the last column the eastern index lies past the grid when the map is at least as wide as tall |
| Tiles.StepIndexInjective | core/src/com/colgame/Tile.kt:25-42 | on a grid at least three wide two different compass steps give different indices |
| Tiles.IndicesUpToDistinct | core/src/com/colgame/Tile.kt:22-44 | on a grid at least three wide a partly built neighbour array has no repeated index |
| Tiles.NeighborsDistinct | core/src/com/colgame/Tile.kt:22-46 | on a grid at least three wide no neighbour array repeats an index |
| Tiles.GetDistance | core/src/com/colgame/Tile.kt:53-55 | the result is at least each coordinate difference and equals one of them: the Chebyshev distance |
| Tiles.DistanceZeroIffSameCell | core/src/com/colgame/Tile.kt:53-55 | distance 0 exactly for equal coordinates (and never negative) |
| Tiles.DistanceSymmetric | core/src/com/colgame/Tile.kt:53-55 | `getDistance` is symmetric |
| Tiles.DistanceTriangle | core/src/com/colgame/Tile.kt:53-55 | `getDistance` satisfies the triangle inequality |
| Tiles.Longitude | core/src/com/colgame/Tile.kt:17 | the column offset from the centre: zero exactly in the centre's column, never more than the distance to it |
| Tiles.Latitude | core/src/com/colgame/Tile.kt:20 | the row offset from the centre: zero exactly in the centre's row, never more than the distance to it |
| Tiles.OffsetsFromCenter | core/src/com/colgame/Tile.kt:17-20 | longitude and latitude are zero at the centre, their larger magnitude is the distance to the centre, and differences of offsets are coordinate differences |
| MapTables.CenterInRangeIff | core/src/com/colgame/Map.kt:11-12 | `tiles[centerIndex]` exists exactly when the grid is non-empty and not a single row of even width |
| MapTables.CenterIndex | core/src/com/colgame/Map.kt:11 | `centerIndex`, the index of the centre tile |
| MapTables.TileX | core/src/com/colgame/Map.kt:8 | the column of tile `i`: `i % width` |
| MapTables.TileY | core/src/com/colgame/Map.kt:8 | the row of tile `i` as written: `i / height` |
| MapTables.ContainsCoordinates | core/src/com/colgame/Map.kt:28 | both coordinates lie in `0 until width` and `0 until height` |
| MapTables.EveryTileInsideIff | core/src/com/colgame/Map.kt:8 | `containsCoordinates` holds for every laid-out tile exactly when width <= height |
| MapTables.LandOrWater | core/src/com/colgame/Map.kt:60-65 | Grassland, a land terrain, for every elevation and threshold |
| MapTables.LandThreshold | core/src/com/colgame/Map.kt:30-89 | the threshold `generateLand` passes: 0.75 for an archipelago, 0.5 otherwise |
| MapTables.ElevationBand | core/src/com/colgame/Map.kt:190-194 | some band applies exactly up to elevation 1.0, and the band is Plains, Hills or Mountains |
| MapTables.ElevationBandTable | core/src/com/colgame/Map.kt:190-194 | Plains up to 0.5, Hills in (0.5, 0.7], Mountains in (0.7, 1.0], no change above 1.0 |
| MapTables.ElevationBandMonotonic | core/src/com/colgame/Map.kt:190-194 | higher elevation never gives flatter terrain |
| MapTables.Biome | core/src/com/colgame/Map.kt:215-239 | the climate table; `BiomeTable` states its regions |
| MapTables.BiomeTable | core/src/com/colgame/Map.kt:215-239 | each biome is exactly its region of temperature and humidity |
| MapTables.BiomeStaysInClimateRange | core/src/com/colgame/Map.kt:205-239 | the table yields only Arctic, Tundra, Plains, Grassland, Desert or Lakes, none of which the pass skips |
| SpreadOut.FarMembers | core/src/com/colgame/Map.kt:174 | the filter keeps exactly the candidates farther than the distance from the pick |
| SpreadOut.FarDropsPick | core/src/com/colgame/Map.kt:174 | the pick itself is always filtered out |
| SpreadOut.Far | core/src/com/colgame/Map.kt:174 | the filter keeps a sub-list of the candidates, all of them tiles of the map |
| SpreadOut.Start | core/src/com/colgame/Map.kt:155-165 | the first round: every suitable tile, every terrain among them registered with count 0 |
| SpreadOut.Step | core/src/com/colgame/Map.kt:173-176 | one loop body on the round: the filtered candidates and the pick's count raised |
| SpreadOut.RunUnique | core/src/com/colgame/Map.kt:167-177 | an attempt's history is determined by its picks |
| SpreadOut.RunExtend | core/src/com/colgame/Map.kt:173-176 | one more loop body extends a history |
| SpreadOut.BalancedExtend | core/src/com/colgame/Map.kt:169-176 | a pick on a least-chosen terrain keeps the history balanced |
| SpreadOut.StepCounts | core/src/com/colgame/Map.kt:176 | a loop body adds one to the pick's terrain count and changes no other count or key |
| SpreadOut.StepFar | core/src/com/colgame/Map.kt:174 | after a loop body every candidate left is farther than the distance from the pick |
| SpreadOut.RunCounts | core/src/com/colgame/Map.kt:161-176 | the counts at every round are the numbers of picks so far on each registered terrain |
| SpreadOut.RunFromStart | core/src/com/colgame/Map.kt:155-174 | candidates left at every round come from the suitable tiles |
| SpreadOut.PicksFromStart | core/src/com/colgame/Map.kt:173 | every pick is a suitable tile |
| SpreadOut.RunRegistered | core/src/com/colgame/Map.kt:162-165 | every terrain of the candidates left is registered |
| SpreadOut.RunSpread | core/src/com/colgame/Map.kt:174 | candidates left are farther than the distance from every earlier pick |
| SpreadOut.PicksSpread | core/src/com/colgame/Map.kt:174 | every two picks are farther apart than the distance |
| SpreadOut.RunShrinks | core/src/com/colgame/Map.kt:173-174 | each pick uses up at least one candidate |
| SpreadOut.PicksDistinct | core/src/com/colgame/Map.kt:173-174 | picks never repeat, since a pick is at distance 0 from itself |
| SpreadOut.LeastChosenExists | core/src/com/colgame/Map.kt:171-172 | `first { }` always finds a terrain while candidates are left |
| SpreadOut.RegisterTerrains | core/src/com/colgame/Map.kt:161-165 | every terrain of the candidates is registered with count 0, and nothing else |
| SpreadOut.ChooseTile | core/src/com/colgame/Map.kt:169-173 | the chosen tile is a candidate on a terrain whose count is least among those with candidates left |
| SpreadOut.PickOne | core/src/com/colgame/Map.kt:168-176 | one loop body extends the balanced history by the chosen tile |
| SpreadOut.Attempt | core/src/com/colgame/Map.kt:155-177 | one attempt is a balanced history of at most `numberOfResources` picks that stops early only when no candidate is left |
| SpreadOut.AttemptPicks | core/src/com/colgame/Map.kt:155-177 | the picks of one attempt are suitable, distinct, at most `numberOfResources` and pairwise farther apart than its distance |
| SpreadOut.TriedAt | core/src/com/colgame/Map.kt:154-180 | the attempt recorded at position `j` was at distance `initialDistance - j` and fell short |
| SpreadOut.TryDistance | core/src/com/colgame/Map.kt:155-179 | one pass of the `downTo` loop either returns because it placed them all or reached distance 1, or joins the attempts that fell short |
| SpreadOut.ChooseSpreadOutLocations | core/src/com/colgame/Map.kt:152-182 | fails exactly when `initialDistance < 1`; otherwise there was one attempt at each distance from `initialDistance` down, every attempt before the last placed fewer than `numberOfResources`, and the last (at a distance in `1..initialDistance`) is a balanced run whose picks are returned, `numberOfResources` of them unless the distance is 1 |
| SpreadOut.ResultPicks | core/src/com/colgame/Map.kt:152-179 | the returned picks are suitable, distinct, at most `numberOfResources` and pairwise farther apart than the distance of the attempt that returned them |
| Hydrography.ClosedContainsReachable | core/src/com/colgame/Map.kt:116-125 | a neighbour-closed set of water tiles contains everything reachable from its members |
| Hydrography.PathExtend | core/src/com/colgame/Map.kt:118-121 | a water neighbour of a reachable tile is reachable |
| Hydrography.ComponentShape | core/src/com/colgame/Map.kt:115-125 | the area of a tile contains it, lies among the water tiles, and is closed under water neighbours |
| Hydrography.Unclaimed | core/src/com/colgame/Map.kt:118-119 | the filter keeps exactly the neighbours still unclaimed and not yet in the area |
| Hydrography.UnclaimedNoDuplicates | core/src/com/colgame/Map.kt:118-119 | filtering a neighbour array without repetitions gives a list without repetitions |
| Hydrography.SplitsElems | core/src/com/colgame/Map.kt:111-122 | the unclaimed water tiles are exactly those not in the area |
| Hydrography.GrownExtend | core/src/com/colgame/Map.kt:120 | adding a neighbour keeps every area tile reachable from the start |
| Hydrography.SplitsExtend | core/src/com/colgame/Map.kt:120-122 | claiming a tile moves it from the water list to the area |
| Hydrography.ClaimOne | core/src/com/colgame/Map.kt:120-122 | one `for` body keeps the fill's invariant |
| Hydrography.AreaIsComponent | core/src/com/colgame/Map.kt:115-125 | a finished fill is exactly the connected water component of its start |
| Hydrography.AbsorbNeighbors | core/src/com/colgame/Map.kt:118-123 | the unclaimed water neighbours are appended to the area and the worklist and leave the water list; every water neighbour ends in the area |
| Hydrography.ClaimAll | core/src/com/colgame/Map.kt:118-123 | the `for` loop appends exactly the filtered neighbours |
| Hydrography.CheckTile | core/src/com/colgame/Map.kt:117-124 | one inner-`while` body keeps the fill's invariant and makes progress |
| Hydrography.FloodFill | core/src/com/colgame/Map.kt:110-125 | the area grown from the picked tile lists exactly its connected water component, starting with that tile, with at least as many entries as the component has tiles and exactly as many when no neighbour array repeats an index; the water list keeps exactly the other tiles |
| Hydrography.ClusteringExtend | core/src/com/colgame/Map.kt:109-133 | one outer round appends an area of the tiles still unclaimed |
| Hydrography.SmallClusterTilesAppend | core/src/com/colgame/Map.kt:127-132 | a new area adds its tiles to the Lakes exactly when its list has at most ten entries |
| Hydrography.ClusteringSplits | core/src/com/colgame/Map.kt:109-133 | after any number of rounds the water tiles are split between the areas so far and the unclaimed ones |
| Hydrography.ClustersPartitionWater | core/src/com/colgame/Map.kt:104-134 | at the end every water tile lies in exactly one area |
| Hydrography.LakesAreSmallAreas | core/src/com/colgame/Map.kt:127-132 | the Lakes are water tiles; a tile becomes Lakes exactly when its area lists at most ten entries; a component of more than ten tiles never does; when no neighbour array repeats an index, a tile becomes Lakes exactly when its component has at most ten tiles |
| Hydrography.RemainingShrinks | core/src/com/colgame/Map.kt:113-122 | the unclaimed water tiles only shrink |
| Hydrography.NoWaterNoClusters | core/src/com/colgame/Map.kt:109 | without water tiles the outer loop never runs |
| Seqs.RemoveFirst | core/src/com/colgame/Building.kt:18 | `MutableList.remove`: a present element loses one occurrence, an absent one leaves the list as it is, and no other element is lost |
| Seqs.RemoveFirstNoDuplicates | core/src/com/colgame/Map.kt:113-122 | removing from a list without repetitions drops exactly that element |
| Seqs.ElemsCount | core/src/com/colgame/Map.kt:127 | a list has at most as many distinct tiles as entries, and exactly as many without repetitions |
| Maps.TilesWhere | core/src/com/colgame/Map.kt:104-145 | `tiles.filter`: exactly the matching indices, once each |
| Maps.IndicesWhere | core/src/com/colgame/Map.kt:104-145 | the filter over a prefix keeps array order, and keeps all of it when every tile matches |
| Maps.BuildTiles | core/src/com/colgame/Map.kt:8 | the array has `width * height` tiles, tile `i` at `(i % width, i / height)` with its constructor's neighbours |
| Maps.NewTile | core/src/com/colgame/Map.kt:8 | a fresh tile at `(i % width, i / height)` with its constructor's neighbours and no flags set |
| Maps.PassesKeepWater | core/src/com/colgame/Map.kt:186-205 | neither the hills nor the climate pass turns land into water or changes a water tile |
| Maps.GeneratedTerrainTable | core/src/com/colgame/Map.kt:20-23 | after the first three passes a tile is Hills or Mountains by its hills value, otherwise the climate table's biome, and never water |
| Maps.AnyLand | core/src/com/colgame/Map.kt:138 | `any` holds exactly when some neighbour is land |
| Maps.CoastTest | core/src/com/colgame/Map.kt:137-139 | the source's test decides the coast update: set exactly for Ocean tiles with a land neighbour, otherwise the tile is unchanged |
| Maps.LakesMarkedOceans | core/src/com/colgame/Map.kt:127-141 | marking lakes creates no Ocean tile and keeps the neighbour links |
| Maps.SpacingKept | core/src/com/colgame/Map.kt:148-149 | setting rumour flags keeps the sites' distances |
| Maps.NoLakesWithoutWater | core/src/com/colgame/Map.kt:102-142 | without water the lake and coast pass changes no tile |
| Maps.LakeLoopStep | core/src/com/colgame/Map.kt:109-134 | a flood fill from an unclaimed water tile extends the history of areas and leaves the rest for the next round |
| Maps.GridNeighborsDistinct | core/src/com/colgame/Map.kt:8 | on a grid laid out at least three wide no tile's neighbour array repeats an index |
| Maps.RuinsOnEveryTile | core/src/com/colgame/Map.kt:145 | without water every tile is suitable for ruins |
| Maps.Map.constructor | core/src/com/colgame/Map.kt:6-26 | the laid-out grid; each tile's terrain is the three tables applied in turn, never water, never a coast; no lake areas are grown; rumours exactly on the sites of a run of `chooseSpreadOutLocations` from distance ten down over all tiles |
| Maps.Map.Populate | core/src/com/colgame/Map.kt:20-26 | the five passes in order on the laid-out tiles: terrain from the tables, no water, no coast, rumours on the placed sites |
| Maps.Map.SettleRuins | core/src/com/colgame/Map.kt:25 | records the tiles before the ruins pass and places the rumours on them |
| Maps.Map.Longitude | core/src/com/colgame/Tile.kt:17 | `longitude` of tile `i`: its column less the column of `tiles[centerIndex]` |
| Maps.Map.Latitude | core/src/com/colgame/Tile.kt:20 | `latitude` of tile `i`: its row less the row of `tiles[centerIndex]` |
| Maps.Map.Generate | core/src/com/colgame/Map.kt:21-23 | the first three passes change only terrain, to the tables' value, never water |
| Maps.Map.SpawnLakesOnDryLand | core/src/com/colgame/Map.kt:102-142 | the lake and coast pass leaves a map without water unchanged |
| Maps.Map.SpreadRuinsOnDryLand | core/src/com/colgame/Map.kt:144-150 | on a map without water every tile is a candidate, `tiles / 100` sites are aimed for, and rumours are set exactly on the sites of a run of `chooseSpreadOutLocations` that tried each distance from ten down |
| Maps.Map.GenerateLand | core/src/com/colgame/Map.kt:30-89 | every tile gets `landOrWater` of its elevation with the map type's threshold; nothing else changes |
| Maps.Map.RaiseMountainsAndHills | core/src/com/colgame/Map.kt:184-196 | land tiles get their elevation band, water and tiles above 1.0 keep their terrain |
| Maps.Map.ApplyHumidityAndTemperature | core/src/com/colgame/Map.kt:198-241 | tiles not skipped get the biome of their climate; water, Mountains and Hills keep theirs |
| Maps.Map.SpawnLakesAndCoasts | core/src/com/colgame/Map.kt:102-142 | the areas partition the water tiles into connected components; the tiles of areas of at most ten entries become Lakes, which on a grid at least three wide are exactly the components of at most ten tiles; then Ocean tiles with a land neighbour become coasts |
| Maps.Map.MarkLakeAreas | core/src/com/colgame/Map.kt:104-134 | the areas grown are connected components that together use up the water tiles; exactly the tiles of areas of at most ten entries become Lakes, and when no neighbour array repeats an index those are the components of at most ten tiles |
| Maps.Map.GrowLake | core/src/com/colgame/Map.kt:110-133 | one outer round grows the component of an unclaimed tile, turns it into Lakes if its list has at most ten entries, and shrinks the water list |
| Maps.Map.MarkArea | core/src/com/colgame/Map.kt:128-131 | the tiles of the area become Lakes; no other tile changes |
| Maps.Map.MarkCoasts | core/src/com/colgame/Map.kt:136-141 | every Ocean tile with a land neighbour gains `coast`; no flag is cleared, no other tile changes |
| Maps.Map.SpreadAncientRuins | core/src/com/colgame/Map.kt:144-150 | rumours are set exactly on the sites of a run of `chooseSpreadOutLocations` over the land tiles for `land / 100` resources, with one attempt at each distance from ten down until one placed them all or reached 1 |
| Maps.Map.MarkRumors | core/src/com/colgame/Map.kt:148-149 | rumours are set on the chosen tiles; nothing else changes |
| UnitTypes.UnspecializedExactly | core/src/com/colgame/UnitType.kt:30-34 | unspecialized exactly for PettyCriminal, FreeColonist and IndenturedServants; the default type is unspecialized |
| UnitTypes.IsSpecialized | core/src/com/colgame/UnitType.kt:30-34 | `isSpecialized`; `UnspecializedExactly` states its table |
| UnitTypes.SpecializedByOrdinal | core/src/com/colgame/UnitType.kt:3-34 | specialized exactly from the fourth constant on |
| UnitTypes.TwentyTwoSpecialized | core/src/com/colgame/UnitType.kt:3-34 | 22 of the 25 constants are specialized |
| UnitTypes.AllUnitTypesInOrder | core/src/com/colgame/UnitType.kt:3-28 | `values()` lists the 25 constants in declaration order |
| UnitTypes.AllUnitTypesEnumerates | core/src/com/colgame/UnitType.kt:3-28 | every constant is listed at its ordinal |
| UnitTypes.CountSpecializedAppend | core/src/com/colgame/UnitType.kt:30-34 | counting specialists distributes over concatenation |
| UnitTypes.CountFromThird | core/src/com/colgame/UnitType.kt:3-34 | counting over a suffix of a list specialized from position three on |
| Units.Unit.constructor | core/src/com/colgame/Unit.kt:3-8 | every field takes its argument or default |
| Units.Unit.IsHostile | core/src/com/colgame/Unit.kt:10-12 | `isHostile`: armed or mounted |
| Units.Unit.AcquireHorses | core/src/com/colgame/Unit.kt:14-17 | speed 4, horses, hostile; type, tools, muskets and tile unchanged |
| Units.Unit.DisposeOfHorses | core/src/com/colgame/Unit.kt:19-22 | speed 1, no horses, hostile exactly when armed; nothing else changes |
| Units.Unit.AcquireMuskets | core/src/com/colgame/Unit.kt:24-26 | armed and hostile; nothing else changes |
| Units.Unit.DisposeOfMuskets | core/src/com/colgame/Unit.kt:28-30 | unarmed, hostile exactly when mounted; nothing else changes |
| Units.Disarm | core/src/com/colgame/Unit.kt:10-30 | after giving up horses and muskets a unit is not hostile and moves one step |
| Units.NewDefaultUnit | core/src/com/colgame/Unit.kt:3-12 | the default unit is an unspecialized, unarmed, unmounted PettyCriminal with speed 1 and no tools |
| Goods.AllResourcesEnumerates | core/src/com/colgame/Colony.kt:14 | `Resource.values()` lists every resource once |
| Buildings.Bonus.Compute | core/src/com/colgame/Building.kt:24-44 | `None` is the identity, `Add(a)` gives `a + b` and `Mult(a)` gives `a * b` |
| Buildings.Hammers | core/src/com/colgame/Building.kt:46-92 | the `hammers` argument of each constant |
| Buildings.MinPopulation | core/src/com/colgame/Building.kt:46-92 | the `minPopulation` argument of each constant |
| Buildings.UpgradesFrom | core/src/com/colgame/Building.kt:46-92 | the `upgradesFrom` argument of each constant |
| Buildings.Specialist | core/src/com/colgame/Building.kt:95-106 | `specialist()` |
| Buildings.Consumes | core/src/com/colgame/Building.kt:108-119 | `consumes()` |
| Buildings.Produces | core/src/com/colgame/Building.kt:121-132 | `produces()` |
| Buildings.ProductionAmount | core/src/com/colgame/Building.kt:134-142 | `productionAmount()` |
| Buildings.ProducingTablesAgree | core/src/com/colgame/Building.kt:95-142 | producing something, having a specialist, consuming something and naming a product are equivalent |
| Buildings.NoBuildingConsumesItsProduct | core/src/com/colgame/Building.kt:108-132 | no building consumes what it produces |
| Buildings.UpgradeKeepsSpecialist | core/src/com/colgame/Building.kt:46-106 | an upgrade keeps the specialist |
| Buildings.UpgradeKeepsTrade | core/src/com/colgame/Building.kt:46-132 | an upgrade of a producing building keeps what it consumes and produces |
| Buildings.UpgradeRaisesOutput | core/src/com/colgame/Building.kt:46-142 | an upgrade of a producing building produces strictly more |
| Buildings.UpgradesFromEarlier | core/src/com/colgame/Building.kt:46-92 | `upgradesFrom` names an earlier constant |
| Buildings.Root | core/src/com/colgame/Building.kt:46-106 | every upgrade chain ends at a building without predecessor, declared no later and with the same specialist |
| Buildings.UpgradeCosts | core/src/com/colgame/Building.kt:46-92 | apart from LumberMill an upgrade costs more hammers and needs at least the population |
| Buildings.LumberMillCheaperThanPredecessor | core/src/com/colgame/Building.kt:49-50 | LumberMill costs less and needs fewer colonists than the CarpentersShop it upgrades |
| Buildings.SpecialistsAreSpecialized | core/src/com/colgame/Building.kt:95-106 | every specialist a building names is a specialized unit type |
| Buildings.WorkerShare | core/src/com/colgame/Building.kt:13-19 | a worker's share is the production amount, doubled exactly for the specialist |
| Buildings.Accrue | core/src/com/colgame/Building.kt:8-19 | `+=` through the getter: under `None` the field grows by the delta, under `Add(a)` by `a` more, under `Mult(a)` the field is first multiplied by `a` |
| Buildings.AccrueRoundTrip | core/src/com/colgame/Building.kt:13-19 | under `None` adding a share and subtracting it restores the field |
| Buildings.AddModifierDrifts | core/src/com/colgame/Building.kt:8-19 | under `Add(a)` the same round trip leaves the field off by `2 * a` |
| Buildings.MultModifierCompounds | core/src/com/colgame/Building.kt:8-19 | under `Mult(a)` adding and removing a share multiplies the field by `a` twice: the result is `a * a * stored + (a - 1) * share` |
| Buildings.Building.constructor | core/src/com/colgame/Building.kt:3-8 | no workers, the `None` modifier and a total of 0 |
| Buildings.Building.TotalResourceAmount | core/src/com/colgame/Building.kt:8-9 | the getter applies the modifier to the stored field: the field itself under `None`, shifted under `Add`, scaled under `Mult` |
| Buildings.Building.AddWorker | core/src/com/colgame/Building.kt:11-14 | appends the worker and accrues its share |
| Buildings.Building.RemoveWorker | core/src/com/colgame/Building.kt:16-21 | a present worker loses one occurrence and its share is subtracted; an absent one changes nothing |
| Buildings.HireAndDismiss | core/src/com/colgame/Building.kt:11-21 | under `None`, adding and removing a worker restores the total and the multiset of workers |
| Colonies.Clamp | core/src/com/colgame/Colony.kt:34 | `max(0, min(capacity, value))` lies in `0..capacity` and is the value when it is in range |
| Colonies.AfterIncrement | core/src/com/colgame/Colony.kt:25-34 | `current += delta` through getter and setter: the field grows by the old field plus the delta, clamped within capacity |
| Colonies.TurnValue | core/src/com/colgame/Colony.kt:22-29 | one storage after a turn: production, then consumption, each only for a key of its table |
| Colonies.TurnValueBounded | core/src/com/colgame/Colony.kt:22-29 | a turn keeps a storage within its capacity |
| Colonies.TurnValueUntouched | core/src/com/colgame/Colony.kt:22-29 | a resource neither produced nor consumed keeps its amount |
| Colonies.ZeroProductionDoubles | core/src/com/colgame/Colony.kt:25-34 | producing zero still doubles a storage, up to capacity |
| Colonies.ProductionBeforeConsumptionMatters | core/src/com/colgame/Colony.kt:24-27 | production is applied before consumption, and the clamp makes the order observable |
| Colonies.Storage.constructor | core/src/com/colgame/Colony.kt:31-32 | the given capacity and a current of 0 |
| Colonies.Storage.SetCurrent | core/src/com/colgame/Colony.kt:32-36 | the new field is the clamp of the value plus the old field, within capacity when it is non-negative |
| Colonies.Colony.constructor | core/src/com/colgame/Colony.kt:6-20 | fortification None, empty tables, a distinct fresh storage for every resource with current 0, capacity `Int.MAX_VALUE` for Hammers and Horses and 100 otherwise |
| Colonies.Colony.AdvanceTurn | core/src/com/colgame/Colony.kt:22-29 | keys, capacities and tables unchanged; each storage holds the value after production and then consumption, each applied only for a key of its table |
| Colonies.AdvanceTurnKeepsBounds | core/src/com/colgame/Colony.kt:22-37 | storages within capacity stay within capacity after a turn |

## Left out

- Perlin noise sampling, the `pow`/`sign` reshaping and all floating-point
  arithmetic: the tables take already reshaped `real` values per tile, and the
  `real` comparisons are exact rather than IEEE doubles.
- The wall-clock-seeded random generator: random picks are nondeterministic
  choices, so the model covers every order rather than one seed's.
- The `println` in the climate table's last branch (output only).
- Kotlin `Int` overflow: all integers are unbounded, including
  `value + field` in the storage setter with capacity `Int.MAX_VALUE`, and
  sizes are natural numbers.
- The `Resources` enum of Tile.kt and the tile's `resource` field, the
  per-variant numbers of `TerrainType`, and the `tools` argument of
  `BuildingType` are never read by the modelled code.
- The `lateinit` terrain of a new tile: shown as Grassland; no pass reads it
  before `generateLand` writes it.
- `Maps.Map.constructor`: requires the centre index in range; the source
  throws on `tiles[centerIndex]` otherwise (`MapTables.CenterInRangeIff`
  says exactly when).
- `Maps.Map.MarkCoasts`: requires every neighbour of every Ocean tile to be
  in range, while Kotlin's `any` stops at the first land neighbour and so
  looks up fewer of them.
- `Maps.Map.MarkLakeAreas`: requires every neighbour of every water tile to
  be in range; the source throws on an out-of-range lookup in its filter.
- The passes iterate the array in index order, while the source iterates
  filtered copies (`tiles.filter { ... }`). Each write touches only the tile
  just examined, so the result is the same.
- `chooseSpreadOutLocations`' ordering of terrains with equal counts (a
  `HashMap` iteration order): the model allows any least-chosen terrain.
- Buildings.Building.RemoveWorker: Kotlin's `assert(workers.contains(u))`
  is modelled as disabled, the JVM default; with `-ea` an absent worker raises
  `AssertionError` instead of leaving the building as it is.
- `Colonies.Colony.AdvanceTurn`: iterates the storages in any order. Each
  resource touches only its own storage, distinct per resource, which is an
  invariant the model keeps.
- Colgame.kt (rendering and input), SoundManager.kt (audio), MapParameters.kt
  (unused constants), TransportType.kt and Nation.kt (declarations without
  behaviour) are not part of this model; the nation is an opaque value.
