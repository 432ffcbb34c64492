/** Colony.kt: a colony's clamped storages and the per-turn update that feeds
    production into them and takes consumption out. */
module Colonies {
  import opened Goods
  import opened Tiles

  /** Kotlin's `Int.MAX_VALUE`. */
  const IntMax: int := 2147483647

  datatype Fortification = None | Stockade | Fort | Fortress

  /** `max(0, min(capacity, value))`. */
  function Clamp(capacity: int, value: int): (r: int)
    ensures capacity >= 0 ==> 0 <= r <= capacity
    ensures 0 <= value <= capacity ==> r == value
    ensures (value <= 0 || capacity <= 0) ==> r == 0
    ensures 0 <= capacity <= value ==> r == capacity
  {
    if value <= 0 || capacity <= 0 then 0
    else if value <= capacity then value
    else capacity
  }

  /** The field after `current += delta`: the getter yields the old field, and
      the setter adds the assigned value to the old field once more. */
  function AfterIncrement(capacity: int, field: int, delta: int): (r: int)
    ensures capacity >= 0 ==> 0 <= r <= capacity
    ensures 0 <= field + (field + delta) <= capacity ==> r - field == field + delta
  {
    Clamp(capacity, 2 * field + delta)
  }

  /** What one storage holds after `advanceTurn`: production first, then
      consumption, each only when the resource is a key of its table. */
  function TurnValue(capacity: int, field: int, r: Resource,
                     production: map<Resource, int>, consumption: map<Resource, int>): int
  {
    var afterProduction := if r in production then AfterIncrement(capacity, field, production[r]) else field;
    if r in consumption then AfterIncrement(capacity, afterProduction, -consumption[r]) else afterProduction
  }

  /** A turn keeps a storage within its capacity. */
  lemma TurnValueBounded(capacity: int, field: int, r: Resource,
                         production: map<Resource, int>, consumption: map<Resource, int>)
    requires 0 <= field <= capacity
    ensures 0 <= TurnValue(capacity, field, r, production, consumption) <= capacity
  {
  }

  /** A resource that is neither produced nor consumed keeps its amount. */
  lemma TurnValueUntouched(capacity: int, field: int, r: Resource,
                           production: map<Resource, int>, consumption: map<Resource, int>)
    requires r !in production && r !in consumption
    ensures TurnValue(capacity, field, r, production, consumption) == field
  {
  }

  /** Because the setter adds to the old field, producing nothing still
      doubles a storage, up to its capacity. */
  lemma ZeroProductionDoubles(capacity: int, field: int, r: Resource)
    requires 0 <= 2 * field <= capacity
    ensures TurnValue(capacity, field, r, map[r := 0], map[]) == 2 * field
  {
  }

  /** Clamping after each step makes the order matter: five produced and
      twenty consumed from an empty storage leave nothing, while the reverse
      order would leave five. */
  lemma ProductionBeforeConsumptionMatters(capacity: int, r: Resource)
    requires capacity >= 5
    ensures TurnValue(capacity, 0, r, map[r := 5], map[r := 20]) == 0
    ensures AfterIncrement(capacity, AfterIncrement(capacity, 0, -20), 5) == 5
  {
    assert AfterIncrement(capacity, 0, 5) == 5;
  }

  class Storage {
    var capacity: int
    /** The backing field of `current`. */
    var current: int

    constructor(capacity: int)
      ensures this.capacity == capacity && current == 0
    {
      this.capacity := capacity;
      current := 0;
    }

    /** The custom `current` setter. */
    method SetCurrent(value: int)
      modifies this
      ensures current == Clamp(capacity, value + old(current))
      ensures capacity == old(capacity)
      ensures capacity >= 0 ==> 0 <= current <= capacity
    {
      current := Clamp(capacity, value + current);
    }
  }

  class Colony {
    const location: Tile
    var fortification: Fortification
    var resourceStorage: map<Resource, Storage>
    var production: map<Resource, int>
    var consumption: map<Resource, int>

    /** No two resources share a storage object. */
    predicate Valid()
      reads this
    {
      forall r, s :: r in resourceStorage && s in resourceStorage && r != s ==>
        resourceStorage[r] != resourceStorage[s]
    }

    constructor(location: Tile)
      ensures Valid()
      ensures this.location == location && fortification == Fortification.None
      ensures production == map[] && consumption == map[]
      ensures forall r :: r in resourceStorage
      ensures forall r :: fresh(resourceStorage[r])
      ensures forall r :: resourceStorage[r].current == 0
      ensures forall r :: resourceStorage[r].capacity == if r == Hammers || r == Horses then IntMax else 100
    {
      var storages: map<Resource, Storage> := map[];
      var i := 0;
      while i < |AllResources|
        invariant 0 <= i <= |AllResources|
        invariant forall k :: 0 <= k < i ==> AllResources[k] in storages
        invariant forall r :: r in storages ==> r in AllResources[..i]
        invariant forall r :: r in storages ==> fresh(storages[r])
        invariant forall r :: r in storages ==>
          storages[r].current == 0 && storages[r].capacity == if r == Hammers || r == Horses then IntMax else 100
        invariant forall r, s :: r in storages && s in storages && r != s ==> storages[r] != storages[s]
      {
        var r := AllResources[i];
        if r == Hammers || r == Horses {
          var s := new Storage(IntMax);
          storages := storages[r := s];
        } else {
          var s := new Storage(100);
          storages := storages[r := s];
        }
        i := i + 1;
      }
      forall r ensures r in storages {
        AllResourcesEnumerates(r);
      }
      this.location := location;
      fortification := Fortification.None;
      resourceStorage := storages;
      production := map[];
      consumption := map[];
    }

    /** `advanceTurn()`.  Each resource touches only its own storage, so the
        result is the same in every iteration order. */
    method AdvanceTurn()
      requires Valid()
      modifies resourceStorage.Values
      ensures resourceStorage == old(resourceStorage)
      ensures production == old(production) && consumption == old(consumption)
      ensures forall r :: r in resourceStorage ==>
        resourceStorage[r].capacity == old(resourceStorage[r].capacity)
      ensures forall r :: r in resourceStorage ==>
        resourceStorage[r].current ==
          TurnValue(old(resourceStorage[r].capacity), old(resourceStorage[r].current), r, production, consumption)
    {
      var todo := resourceStorage.Keys;
      while todo != {}
        invariant todo <= resourceStorage.Keys
        invariant forall r :: r in resourceStorage ==>
          resourceStorage[r].capacity == old(resourceStorage[r].capacity)
        invariant forall r :: r in todo ==> resourceStorage[r].current == old(resourceStorage[r].current)
        invariant forall r :: r in resourceStorage && r !in todo ==>
          resourceStorage[r].current ==
            TurnValue(old(resourceStorage[r].capacity), old(resourceStorage[r].current), r, production, consumption)
        decreases todo
      {
        var r :| r in todo;
        var s := resourceStorage[r];
        if r in production {
          s.SetCurrent(s.current + production[r]);
        }
        if r in consumption {
          s.SetCurrent(s.current - consumption[r]);
        }
        todo := todo - {r};
      }
    }
  }

  /** After a turn every storage of a fresh-style colony, one whose amounts are
      all within capacity, is still within capacity. */
  method AdvanceTurnKeepsBounds(c: Colony)
    requires c.Valid()
    requires forall r :: r in c.resourceStorage ==>
      0 <= c.resourceStorage[r].current <= c.resourceStorage[r].capacity
    modifies c.resourceStorage.Values
    ensures forall r :: r in c.resourceStorage ==>
      0 <= c.resourceStorage[r].current <= c.resourceStorage[r].capacity
  {
    c.AdvanceTurn();
    forall r | r in c.resourceStorage
      ensures 0 <= c.resourceStorage[r].current <= c.resourceStorage[r].capacity
    {
      TurnValueBounded(old(c.resourceStorage[r].capacity), old(c.resourceStorage[r].current), r,
                       c.production, c.consumption);
    }
  }
}
