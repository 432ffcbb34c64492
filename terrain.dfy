/** The terrain catalogue of Tile.kt: the `TerrainType` enum, the water/land
    predicate of `Tile` and the unforested-to-forested pairing. */
module Terrain {
  import opened Wrappers

  /** Declared in source order: eight unforested biomes, their eight forested
      counterparts, then the special types. The per-variant numbers of the
      Kotlin enum are constructor arguments that are never stored, so they are
      not part of the model. */
  datatype TerrainType =
    | Tundra | Desert | Plains | Prairie | Grassland | Savannah | Marsh | Swamp
    | Boreal | Scrub | Mixed | Broadleaf | Conifer | Tropical | Wetland | Rain
    | Arctic | Ocean | Lakes | SeaLane | Mountains | Hills

  /** `Tile.isWater`: only Ocean and SeaLane are water. */
  predicate IsWater(t: TerrainType) {
    t == Ocean || t == SeaLane
  }

  /** `Tile.isLand`. */
  predicate IsLand(t: TerrainType) {
    !IsWater(t)
  }

  /** The group the enum declares under its UNFORESTED heading. */
  predicate IsUnforestedBiome(t: TerrainType) {
    t.Tundra? || t.Desert? || t.Plains? || t.Prairie? || t.Grassland? || t.Savannah? || t.Marsh? || t.Swamp?
  }

  /** The group the enum declares under its FORESTED heading. */
  predicate IsForestedBiome(t: TerrainType) {
    t.Boreal? || t.Scrub? || t.Mixed? || t.Broadleaf? || t.Conifer? || t.Tropical? || t.Wetland? || t.Rain?
  }

  /** `TerrainType.forested()`; `None` stands for the exception thrown for
      every variant outside the unforested group. */
  function Forested(t: TerrainType): (r: Option<TerrainType>)
    ensures r.Some? <==> IsUnforestedBiome(t)
    ensures r.Some? ==> IsForestedBiome(r.value)
  {
    match t
    case Tundra => Some(Boreal)
    case Desert => Some(Scrub)
    case Plains => Some(Mixed)
    case Prairie => Some(Broadleaf)
    case Grassland => Some(Conifer)
    case Savannah => Some(Tropical)
    case Marsh => Some(Wetland)
    case Swamp => Some(Rain)
    case _ => None
  }

  /** Is `Lakes` land? Yes: the water predicate names only Ocean and SeaLane. */
  lemma LakesCountAsLand()
    ensures IsLand(Lakes) && IsWater(Ocean) && IsWater(SeaLane)
    ensures forall t :: IsWater(t) <==> t in {Ocean, SeaLane}
  {
  }

  /** Two unforested biomes never share a forested counterpart. */
  lemma ForestedInjective(a: TerrainType, b: TerrainType)
    requires Forested(a).Some? && Forested(a) == Forested(b)
    ensures a == b
  {
  }

  /** Every forested biome is the counterpart of exactly one unforested biome. */
  lemma ForestedOnto(f: TerrainType)
    requires IsForestedBiome(f)
    ensures exists t :: IsUnforestedBiome(t) && Forested(t) == Some(f)
  {
    var t := match f
      case Boreal => Tundra
      case Scrub => Desert
      case Mixed => Plains
      case Broadleaf => Prairie
      case Conifer => Grassland
      case Tropical => Savannah
      case Wetland => Marsh
      case Rain => Swamp;
    assert Forested(t) == Some(f);
  }

  /** Forested biomes, water, Arctic, Mountains and Hills cannot be forested. */
  lemma ForestedFailsOutsideUnforested(t: TerrainType)
    requires IsForestedBiome(t) || t in {Arctic, Ocean, Lakes, SeaLane, Mountains, Hills}
    ensures Forested(t) == None
  {
  }
}
