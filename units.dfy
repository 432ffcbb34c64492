/** Unit.kt: a unit on the map, with the horse and musket toggles that decide
    its speed and whether it is hostile. */
module Units {
  import opened UnitTypes
  import opened Tiles

  /** The owning nation; only its identity matters here. */
  datatype Nation = Nation(name: string)

  class Unit {
    var unitType: UnitType
    var movementSpeed: int
    var tools: int
    var horses: bool
    var muskets: bool
    const nation: Nation
    var tile: Tile

    /** The primary constructor with its default arguments. */
    constructor(nation: Nation, tile: Tile, unitType: UnitType := DefaultUnitType,
                movementSpeed: int := 1, tools: int := 0,
                horses: bool := false, muskets: bool := false)
      ensures this.nation == nation && this.tile == tile
      ensures this.unitType == unitType && this.movementSpeed == movementSpeed
      ensures this.tools == tools && this.horses == horses && this.muskets == muskets
    {
      this.unitType := unitType;
      this.movementSpeed := movementSpeed;
      this.tools := tools;
      this.horses := horses;
      this.muskets := muskets;
      this.nation := nation;
      this.tile := tile;
    }

    /** `isHostile()`: armed or mounted. */
    predicate IsHostile()
      reads this
    {
      muskets || horses
    }

    method AcquireHorses()
      modifies this
      ensures movementSpeed == 4 && horses
      ensures IsHostile()
      ensures unitType == old(unitType) && tools == old(tools) && muskets == old(muskets)
      ensures tile == old(tile)
    {
      movementSpeed := 4;
      horses := true;
    }

    method DisposeOfHorses()
      modifies this
      ensures movementSpeed == 1 && !horses
      ensures IsHostile() <==> muskets
      ensures unitType == old(unitType) && tools == old(tools) && muskets == old(muskets)
      ensures tile == old(tile)
    {
      movementSpeed := 1;
      horses := false;
    }

    method AcquireMuskets()
      modifies this
      ensures muskets
      ensures IsHostile()
      ensures unitType == old(unitType) && movementSpeed == old(movementSpeed)
      ensures tools == old(tools) && horses == old(horses) && tile == old(tile)
    {
      muskets := true;
    }

    method DisposeOfMuskets()
      modifies this
      ensures !muskets
      ensures IsHostile() <==> horses
      ensures unitType == old(unitType) && movementSpeed == old(movementSpeed)
      ensures tools == old(tools) && horses == old(horses) && tile == old(tile)
    {
      muskets := false;
    }
  }

  /** Giving up horses and then muskets leaves any unit peaceful and on foot. */
  method Disarm(u: Unit)
    modifies u
    ensures !u.IsHostile() && u.movementSpeed == 1
    ensures u.unitType == old(u.unitType) && u.tools == old(u.tools)
  {
    u.DisposeOfHorses();
    u.DisposeOfMuskets();
  }

  /** A unit built with every default is an unspecialized, peaceful petty
      criminal moving one step per turn. */
  method NewDefaultUnit(nation: Nation, tile: Tile) returns (u: Unit)
    ensures fresh(u)
    ensures u.unitType == PettyCriminal && !IsSpecialized(u.unitType)
    ensures u.movementSpeed == 1 && u.tools == 0
    ensures !u.horses && !u.muskets && !u.IsHostile()
  {
    u := new Unit(nation, tile);
  }
}
