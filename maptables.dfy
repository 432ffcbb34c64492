/** The pure parts of Map.kt: how tile indices become coordinates, where the
    centre tile sits, `containsCoordinates`, `landOrWater` and the two
    threshold tables that turn elevation and climate values into terrain.
    Noise sampling and its floating-point reshaping are not modelled: the
    tables take the already reshaped values as `real` inputs. */
module MapTables {
  import opened Wrappers
  import opened Terrain

  /** `MapType`; the map's `type` parameter is nullable, so a map holds an `Option<MapType>`. */
  datatype MapType = Continents | Perlin | Archipelago

  /** `waterThreshold`. */
  const WaterThreshold: real := 0.5

  /** Column of tile `i`: `i % width` (Map.kt line 8). */
  function TileX(i: nat, width: nat): nat
    requires width > 0
  {
    i % width
  }

  /** Row of tile `i`, as written: `i / height` (not `i / width`). */
  function TileY(i: nat, height: nat): nat
    requires height > 0
  {
    i / height
  }

  /** `centerIndex = width * height / 2 + width / 2`. */
  function CenterIndex(width: nat, height: nat): nat {
    width * height / 2 + width / 2
  }

  /** `containsCoordinates`. */
  function ContainsCoordinates(width: nat, height: nat, x: int, y: int): bool {
    0 <= x < width && 0 <= y < height
  }

  /** `tiles[centerIndex]` exists exactly when the grid is not empty and is
      not a single row of even length. */
  lemma CenterInRangeIff(width: nat, height: nat)
    ensures CenterIndex(width, height) < width * height <==>
      width >= 1 && height >= 1 && !(height == 1 && width % 2 == 0)
  {
    var p := width * height;
    if width == 0 || height == 0 {
      assert p == 0;
    } else if height == 1 {
      assert p == width;
    } else {
      assert p >= 2 * width by {
        assert width * height >= width * 2 by { MulLeftMonotonic(width, 2, height); }
      }
    }
  }

  lemma MulLeftMonotonic(a: nat, b: nat, c: nat)
    requires b <= c
    ensures a * b <= a * c
  {
  }

  /** The quotient of `a` by `b` is `q` when `q * b <= a < (q + 1) * b`. */
  lemma DivIs(a: nat, b: nat, q: nat)
    requires b > 0 && q * b <= a < (q + 1) * b
    ensures a / b == q
  {
    var r := a / b;
    assert a == r * b + a % b && 0 <= a % b < b;
    if r < q {
      MulRightMonotonic(r + 1, q, b);
      assert false;
    } else if r > q {
      MulRightMonotonic(q + 1, r, b);
      assert false;
    }
  }

  lemma MulRightMonotonic(a: nat, b: nat, c: nat)
    requires a <= b
    ensures a * c <= b * c
  {
  }

  /** A factor of a positive product with a positive other factor is
      positive. */
  lemma PositiveFactor(x: int, h: int)
    requires h >= 1 && x * h > 0
    ensures x > 0
  {
  }

  /** Dividing an index below `w * h` by `h` gives less than `w`. */
  lemma DivBelow(i: nat, w: nat, h: nat)
    requires h >= 1 && i < w * h
    ensures i / h < w
  {
    var q := i / h;
    assert i == q * h + i % h;
    assert (w - q) * h == w * h - q * h;
    PositiveFactor(w - q, h);
  }

  /** Every tile's coordinates lie inside the map exactly when the map is at
      least as tall as it is wide: rows are counted with `i / height`, which
      reaches `width - 1`. */
  lemma EveryTileInsideIff(width: nat, height: nat)
    requires width >= 1 && height >= 1
    ensures (forall i: nat :: i < width * height ==>
               ContainsCoordinates(width, height, TileX(i, width), TileY(i, height)))
            <==> width <= height
  {
    if width <= height {
      forall i: nat | i < width * height
        ensures ContainsCoordinates(width, height, TileX(i, width), TileY(i, height))
      {
        DivBelow(i, width, height);
      }
    } else {
      var i: nat := width * height - 1;
      assert (width - 1) * height == width * height - height;
      DivIs(i, height, width - 1);
      assert !ContainsCoordinates(width, height, TileX(i, width), TileY(i, height));
    }
  }

  /** `landOrWater`: both branches of the `when` give Grassland, so the
      land pass never produces water, whatever the noise and threshold. */
  function LandOrWater(elevation: real, threshold: real): (t: TerrainType)
    ensures t == Grassland && IsLand(t)
  {
    if elevation >= threshold then Grassland else Grassland
  }

  /** The threshold `generateLand` hands to `landOrWater` for each map type. */
  function LandThreshold(mapType: Option<MapType>): real {
    if mapType == Some(Archipelago) then 0.25 + WaterThreshold else WaterThreshold
  }

  /** The elevation band of `raiseMountainsAndHills`; `None` means no
      branch of the `when` applies and the tile keeps its terrain. */
  function ElevationBand(elevation: real): (r: Option<TerrainType>)
    ensures r.Some? <==> elevation <= 1.0
    ensures r.Some? ==> r.value in {Plains, Hills, Mountains}
  {
    if elevation <= 0.5 then Some(Plains)
    else if elevation <= 0.7 then Some(Hills)
    else if elevation <= 1.0 then Some(Mountains)
    else None
  }

  /** Each band is exactly its interval of elevations. */
  lemma ElevationBandTable(elevation: real)
    ensures ElevationBand(elevation) == Some(Plains) <==> elevation <= 0.5
    ensures ElevationBand(elevation) == Some(Hills) <==> 0.5 < elevation <= 0.7
    ensures ElevationBand(elevation) == Some(Mountains) <==> 0.7 < elevation <= 1.0
    ensures ElevationBand(elevation) == None <==> elevation > 1.0
  {
  }

  /** Plains < Hills < Mountains. */
  function Ruggedness(t: TerrainType): nat {
    if t == Mountains then 2 else if t == Hills then 1 else 0
  }

  /** Higher elevation never gives flatter terrain. */
  lemma ElevationBandMonotonic(low: real, high: real)
    requires low <= high <= 1.0
    ensures ElevationBand(low).Some? && ElevationBand(high).Some?
    ensures Ruggedness(ElevationBand(low).value) <= Ruggedness(ElevationBand(high).value)
  {
  }

  /** Tiles `applyHumidityAndTemperature` leaves alone. */
  predicate ClimateSkips(t: TerrainType) {
    IsWater(t) || t == Mountains || t == Hills
  }

  /** The temperature/humidity table of `applyHumidityAndTemperature`. */
  function Biome(temperature: real, humidity: real): TerrainType {
    if temperature < -0.4 then
      if humidity < 0.5 then Arctic else Tundra
    else if temperature < 0.8 then
      if humidity < 0.5 then Plains else Grassland
    else if temperature <= 1.0 then
      if humidity < 0.7 then Desert else Plains
    else Lakes
  }

  /** Each biome is exactly its region of the temperature/humidity plane. */
  lemma BiomeTable(temperature: real, humidity: real)
    ensures var t := Biome(temperature, humidity);
      && (t == Arctic <==> temperature < -0.4 && humidity < 0.5)
      && (t == Tundra <==> temperature < -0.4 && humidity >= 0.5)
      && (t == Grassland <==> -0.4 <= temperature < 0.8 && humidity >= 0.5)
      && (t == Desert <==> 0.8 <= temperature <= 1.0 && humidity < 0.7)
      && (t == Plains <==>
            (-0.4 <= temperature < 0.8 && humidity < 0.5) || (0.8 <= temperature <= 1.0 && humidity >= 0.7))
      && (t == Lakes <==> temperature > 1.0)
  {
  }

  /** The climate table never produces water, Mountains or Hills, so a tile
      it assigns would be assigned again on a second pass. */
  lemma BiomeStaysInClimateRange(temperature: real, humidity: real)
    ensures !ClimateSkips(Biome(temperature, humidity))
    ensures Biome(temperature, humidity) in {Arctic, Tundra, Plains, Grassland, Desert, Lakes}
  {
  }
}
