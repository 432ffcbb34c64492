/** Building.kt: the colony buildings, their lookup tables, the production
    modifiers, and the running production total a building keeps as workers
    come and go. */
module Buildings {
  import Wrappers
  import opened Seqs
  import opened UnitTypes
  import opened Goods
  import opened Units

  /** `Bonus` and its three implementations. */
  datatype Bonus = None | Add(amount: int) | Mult(amount: int)
  {
    function Compute(baseAmount: int): (r: int)
      ensures this.None? ==> r == baseAmount
      ensures this.Add? ==> r - baseAmount == amount
      ensures this.Mult? ==> r == amount * baseAmount
      ensures this.Mult? && amount == 1 ==> r == baseAmount
      ensures this.Mult? && (amount == 0 || baseAmount == 0) ==> r == 0
      ensures this.Mult? && amount >= 1 && baseAmount >= 0 ==> r >= baseAmount
    {
      match this
      case None => baseAmount
      case Add(a) => a + baseAmount
      case Mult(a) => a * baseAmount
    }
  }

  /** In declaration order. */
  datatype BuildingType =
    | TownHall
    | CarpentersShop | LumberMill
    | BlacksmithHouse | BlacksmithShop | IronWorks
    | TobacconistHouse | TobacconistShop | CigarFactory
    | WeaverHouse | WeaverShop | TextileMill
    | FurTraderHouse | FurTradingPost | FurFactory
    | RumDistillerHouse | RumDistillery | RumFactory
    | Armory | Magazine | Arsenal
    | Stockade | Fort | Fortress
    | Church | Cathedral
    | Schoolhouse | College | University
    | Docks | Drydock | Shipyard
    | PrintingPress | Newspaper

  function Ordinal(b: BuildingType): nat {
    match b
    case TownHall => 0
    case CarpentersShop => 1 case LumberMill => 2
    case BlacksmithHouse => 3 case BlacksmithShop => 4 case IronWorks => 5
    case TobacconistHouse => 6 case TobacconistShop => 7 case CigarFactory => 8
    case WeaverHouse => 9 case WeaverShop => 10 case TextileMill => 11
    case FurTraderHouse => 12 case FurTradingPost => 13 case FurFactory => 14
    case RumDistillerHouse => 15 case RumDistillery => 16 case RumFactory => 17
    case Armory => 18 case Magazine => 19 case Arsenal => 20
    case Stockade => 21 case Fort => 22 case Fortress => 23
    case Church => 24 case Cathedral => 25
    case Schoolhouse => 26 case College => 27 case University => 28
    case Docks => 29 case Drydock => 30 case Shipyard => 31
    case PrintingPress => 32 case Newspaper => 33
  }

  /** The `hammers` constructor argument. */
  function Hammers(b: BuildingType): nat {
    match b
    case TownHall => 0
    case CarpentersShop => 64 case LumberMill => 0
    case BlacksmithHouse => 0 case BlacksmithShop => 64 case IronWorks => 240
    case TobacconistHouse => 0 case TobacconistShop => 64 case CigarFactory => 160
    case WeaverHouse => 0 case WeaverShop => 64 case TextileMill => 160
    case FurTraderHouse => 0 case FurTradingPost => 64 case FurFactory => 160
    case RumDistillerHouse => 0 case RumDistillery => 64 case RumFactory => 160
    case Armory => 52 case Magazine => 120 case Arsenal => 240
    case Stockade => 64 case Fort => 120 case Fortress => 320
    case Church => 64 case Cathedral => 176
    case Schoolhouse => 64 case College => 160 case University => 200
    case Docks => 52 case Drydock => 80 case Shipyard => 240
    case PrintingPress => 52 case Newspaper => 120
  }

  /** The `minPopulation` constructor argument. */
  function MinPopulation(b: BuildingType): nat {
    match b
    case TownHall => 1
    case CarpentersShop => 4 case LumberMill => 1
    case BlacksmithHouse => 1 case BlacksmithShop => 4 case IronWorks => 8
    case TobacconistHouse => 1 case TobacconistShop => 4 case CigarFactory => 8
    case WeaverHouse => 1 case WeaverShop => 4 case TextileMill => 8
    case FurTraderHouse => 1 case FurTradingPost => 4 case FurFactory => 8
    case RumDistillerHouse => 1 case RumDistillery => 1 case RumFactory => 8
    case Armory => 1 case Magazine => 8 case Arsenal => 8
    case Stockade => 3 case Fort => 3 case Fortress => 8
    case Church => 3 case Cathedral => 8
    case Schoolhouse => 4 case College => 8 case University => 10
    case Docks => 1 case Drydock => 4 case Shipyard => 8
    case PrintingPress => 1 case Newspaper => 4
  }

  /** The `upgradesFrom` constructor argument. */
  function UpgradesFrom(b: BuildingType): Wrappers.Option<BuildingType> {
    match b
    case LumberMill => Wrappers.Some(CarpentersShop)
    case BlacksmithShop => Wrappers.Some(BlacksmithHouse)
    case IronWorks => Wrappers.Some(BlacksmithShop)
    case TobacconistShop => Wrappers.Some(TobacconistHouse)
    case CigarFactory => Wrappers.Some(TobacconistShop)
    case WeaverShop => Wrappers.Some(WeaverHouse)
    case TextileMill => Wrappers.Some(WeaverShop)
    case FurTradingPost => Wrappers.Some(FurTraderHouse)
    case FurFactory => Wrappers.Some(FurTradingPost)
    case RumDistillery => Wrappers.Some(RumDistillerHouse)
    case RumFactory => Wrappers.Some(RumDistillery)
    case Magazine => Wrappers.Some(Armory)
    case Arsenal => Wrappers.Some(Magazine)
    case Fort => Wrappers.Some(Stockade)
    case Fortress => Wrappers.Some(Fort)
    case Cathedral => Wrappers.Some(Church)
    case College => Wrappers.Some(Schoolhouse)
    case University => Wrappers.Some(College)
    case Drydock => Wrappers.Some(Docks)
    case Shipyard => Wrappers.Some(Drydock)
    case Newspaper => Wrappers.Some(PrintingPress)
    case _ => Wrappers.None
  }

  /** `specialist()`. */
  function Specialist(b: BuildingType): Wrappers.Option<UnitType> {
    match b
    case LumberMill | CarpentersShop => Wrappers.Some(MasterCarpenter)
    case IronWorks | BlacksmithShop | BlacksmithHouse => Wrappers.Some(MasterBlacksmith)
    case CigarFactory | TobacconistShop | TobacconistHouse => Wrappers.Some(MasterTobacconist)
    case TextileMill | WeaverShop | WeaverHouse => Wrappers.Some(MasterWeaver)
    case FurTraderHouse | FurTradingPost | FurFactory => Wrappers.Some(MasterFurTrader)
    case RumDistillerHouse | RumDistillery | RumFactory => Wrappers.Some(MasterDistiller)
    case Armory | Magazine | Arsenal => Wrappers.Some(MasterGunsmith)
    case _ => Wrappers.None
  }

  /** `consumes()`. */
  function Consumes(b: BuildingType): Wrappers.Option<Resource> {
    match b
    case LumberMill | CarpentersShop => Wrappers.Some(Lumber)
    case IronWorks | BlacksmithShop | BlacksmithHouse => Wrappers.Some(Ore)
    case CigarFactory | TobacconistShop | TobacconistHouse => Wrappers.Some(Tobacco)
    case TextileMill | WeaverShop | WeaverHouse => Wrappers.Some(Cotton)
    case FurTraderHouse | FurTradingPost | FurFactory => Wrappers.Some(Furs)
    case RumDistillerHouse | RumDistillery | RumFactory => Wrappers.Some(Sugar)
    case Armory | Magazine | Arsenal => Wrappers.Some(Goods.Tools)
    case _ => Wrappers.None
  }

  /** `produces()`. */
  function Produces(b: BuildingType): Wrappers.Option<Resource> {
    match b
    case LumberMill | CarpentersShop => Wrappers.Some(Goods.Hammers)
    case IronWorks | BlacksmithShop | BlacksmithHouse => Wrappers.Some(Goods.Tools)
    case CigarFactory | TobacconistShop | TobacconistHouse => Wrappers.Some(Cigars)
    case TextileMill | WeaverShop | WeaverHouse => Wrappers.Some(Cloth)
    case FurFactory | FurTradingPost | FurTraderHouse => Wrappers.Some(Coats)
    case RumDistillerHouse | RumDistillery | RumFactory => Wrappers.Some(Rum)
    case Arsenal | Magazine | Armory => Wrappers.Some(Goods.Muskets)
    case _ => Wrappers.None
  }

  /** `productionAmount()`. */
  function ProductionAmount(b: BuildingType): nat {
    match b
    case CarpentersShop | BlacksmithHouse | TobacconistHouse | WeaverHouse
       | FurTraderHouse | RumDistillerHouse | Armory => 3
    case LumberMill | BlacksmithShop | TobacconistShop | WeaverShop
       | FurTradingPost | RumDistillery | Magazine => 6
    case IronWorks | CigarFactory | TextileMill | FurFactory | RumFactory => 9
    case Arsenal => 12
    case _ => 0
  }

  /** A building produces something exactly when it has a specialist, exactly
      when it consumes something, exactly when it names a product. */
  lemma ProducingTablesAgree(b: BuildingType)
    ensures ProductionAmount(b) > 0 <==> Specialist(b).Some?
    ensures Specialist(b).Some? <==> Consumes(b).Some?
    ensures Consumes(b).Some? <==> Produces(b).Some?
  {
  }

  /** A building never consumes what it produces. */
  lemma NoBuildingConsumesItsProduct(b: BuildingType)
    ensures Consumes(b).Some? ==> Consumes(b) != Produces(b)
  {
  }

  /** Upgrading a building keeps its specialist. */
  lemma UpgradeKeepsSpecialist(b: BuildingType)
    ensures UpgradesFrom(b).Some? ==> Specialist(b) == Specialist(UpgradesFrom(b).value)
  {
  }

  /** Upgrading a producing building keeps the goods it consumes and produces. */
  lemma UpgradeKeepsTrade(b: BuildingType)
    requires UpgradesFrom(b).Some? && Specialist(UpgradesFrom(b).value).Some?
    ensures Consumes(b) == Consumes(UpgradesFrom(b).value)
    ensures Produces(b) == Produces(UpgradesFrom(b).value)
  {
  }

  /** Upgrading a producing building raises its output per worker. */
  lemma UpgradeRaisesOutput(b: BuildingType)
    requires UpgradesFrom(b).Some? && Specialist(UpgradesFrom(b).value).Some?
    ensures ProductionAmount(b) > ProductionAmount(UpgradesFrom(b).value)
  {
  }

  /** `upgradesFrom` always names a constant declared earlier. */
  lemma UpgradesFromEarlier(b: BuildingType)
    ensures UpgradesFrom(b).Some? ==> Ordinal(UpgradesFrom(b).value) < Ordinal(b)
  {
  }

  /** Every upgrade costs more hammers and needs at least the population of the
      building it replaces, with the single exception of LumberMill. */
  lemma UpgradeCosts(b: BuildingType)
    requires UpgradesFrom(b).Some? && b != LumberMill
    ensures Hammers(b) > Hammers(UpgradesFrom(b).value)
    ensures MinPopulation(b) >= MinPopulation(UpgradesFrom(b).value)
  {
  }

  /** LumberMill is the exception: it is free and needs one colonist, while
      the CarpentersShop it upgrades costs 64 hammers and needs four. */
  lemma LumberMillCheaperThanPredecessor()
    ensures UpgradesFrom(LumberMill) == Wrappers.Some(CarpentersShop)
    ensures Hammers(LumberMill) < Hammers(CarpentersShop)
    ensures MinPopulation(LumberMill) < MinPopulation(CarpentersShop)
  {
  }

  /** The first building of the upgrade chain that leads to `b`.  Its
      termination is what makes every chain finite. */
  function Root(b: BuildingType): (r: BuildingType)
    ensures UpgradesFrom(r).None?
    ensures Ordinal(r) <= Ordinal(b)
    ensures Specialist(r) == Specialist(b)
    decreases Ordinal(b)
  {
    UpgradesFromEarlier(b);
    UpgradeKeepsSpecialist(b);
    match UpgradesFrom(b)
    case None => b
    case Some(p) => Root(p)
  }

  /** Every specialist a building names is a specialized unit type. */
  lemma SpecialistsAreSpecialized(b: BuildingType)
    ensures Specialist(b).Some? ==> IsSpecialized(Specialist(b).value)
  {
  }

  /** How much one worker of type `t` adds: double for the building's specialist. */
  function WorkerShare(b: BuildingType, t: UnitType): (s: int)
    ensures s == ProductionAmount(b) || s == 2 * ProductionAmount(b)
    ensures s == 2 * ProductionAmount(b) <==> (Specialist(b) == Wrappers.Some(t) || ProductionAmount(b) == 0)
  {
    ProductionAmount(b) * (if Specialist(b) == Wrappers.Some(t) then 2 else 1)
  }

  /** The backing field after `totalResourceAmount += delta`: Kotlin reads the
      property through its getter, so the modifier is applied before adding. */
  function Accrue(m: Bonus, stored: int, delta: int): (r: int)
    ensures m.None? ==> r == stored + delta
    ensures m.Add? ==> r == stored + m.amount + delta
    ensures m.Mult? ==> r == m.amount * stored + delta
  {
    m.Compute(stored) + delta
  }

  /** Under the default modifier, adding a share and taking it away again
      restores the stored total. */
  lemma {:induction false} AccrueRoundTrip(stored: int, share: int)
    ensures Accrue(Bonus.None, Accrue(Bonus.None, stored, share), -share) == stored
  {
  }

  /** Under an `Add(a)` modifier the same round trip leaves the stored total
      off by `2 * a`, because each update folds the modifier into the field. */
  lemma AddModifierDrifts(stored: int, share: int, a: int)
    ensures Accrue(Add(a), Accrue(Add(a), stored, share), -share) == stored + 2 * a
  {
  }

  /** Under a `Mult(a)` modifier each update multiplies the stored total by
      `a` again, so the same round trip leaves `a * a * stored + (a - 1) * share`. */
  lemma MultModifierCompounds(stored: int, share: int, a: int)
    ensures Accrue(Mult(a), Accrue(Mult(a), stored, share), -share) == a * a * stored + (a - 1) * share
  {
    assert a * (a * stored + share) == a * a * stored + a * share;
  }

  class Building {
    const buildingType: BuildingType
    var workers: seq<Unit>
    var productionModifier: Bonus
    /** The backing field of `totalResourceAmount`. */
    var stored: int

    constructor(buildingType: BuildingType)
      ensures this.buildingType == buildingType
      ensures workers == [] && productionModifier == Bonus.None && stored == 0
      ensures TotalResourceAmount() == 0
    {
      this.buildingType := buildingType;
      workers := [];
      productionModifier := Bonus.None;
      stored := 0;
    }

    /** The `totalResourceAmount` getter. */
    function TotalResourceAmount(): (r: int)
      reads this
      ensures productionModifier.None? ==> r == stored
      ensures productionModifier.Add? ==> r == productionModifier.amount + stored
      ensures productionModifier.Mult? ==> r == productionModifier.amount * stored
    {
      productionModifier.Compute(stored)
    }

    method AddWorker(u: Unit)
      modifies this
      ensures workers == old(workers) + [u]
      ensures stored == Accrue(productionModifier, old(stored), WorkerShare(buildingType, u.unitType))
      ensures productionModifier == old(productionModifier)
    {
      workers := workers + [u];
      stored := productionModifier.Compute(stored) + WorkerShare(buildingType, u.unitType);
    }

    /** The JVM `assert` that `u` is present is disabled by default, so an
        absent worker falls through to the failed `remove` and changes nothing. */
    method RemoveWorker(u: Unit)
      modifies this
      ensures u in old(workers) ==> workers == RemoveFirst(old(workers), u)
      ensures u in old(workers) ==> multiset(workers) + multiset{u} == multiset(old(workers))
      ensures u in old(workers) ==>
        stored == Accrue(productionModifier, old(stored), -WorkerShare(buildingType, u.unitType))
      ensures u !in old(workers) ==> workers == old(workers) && stored == old(stored)
      ensures productionModifier == old(productionModifier)
    {
      if u in workers {
        workers := RemoveFirst(workers, u);
        stored := productionModifier.Compute(stored) - WorkerShare(buildingType, u.unitType);
      }
    }
  }

  /** Hiring a worker and letting them go again, under the default modifier,
      restores the total and the multiset of workers. */
  method HireAndDismiss(b: Building, u: Unit)
    requires b.productionModifier.None?
    modifies b
    ensures b.TotalResourceAmount() == old(b.TotalResourceAmount())
    ensures multiset(b.workers) == multiset(old(b.workers))
  {
    b.AddWorker(u);
    b.RemoveWorker(u);
  }
}
