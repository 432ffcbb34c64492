/** UnitType.kt: the colonist professions and which of them count as specialists. */
module UnitTypes {

  /** In declaration order. */
  datatype UnitType =
    | PettyCriminal | FreeColonist | IndenturedServants
    | ExpertFarmer | ExpertFisherman | ExpertFurTrapper | ExpertSilverMiner | ExpertLumbarJack | ExpertOreMiner
    | MasterSugarPlanter | MasterCottonPlanter | MasterTobaccoPlanter
    | FirebrandPreacher | ElderStatesman
    | MasterCarpenter | MasterDistiller | MasterWeaver | MasterTobacconist | MasterFurTrader
    | MasterBlacksmith | MasterGunsmith
    | SeasonedScout | HardyPioneer | VeteranSoldier | JesuitMissionary

  /** The default `type` of a new `Unit`. */
  const DefaultUnitType: UnitType := PettyCriminal

  /** `UnitType.isSpecialized`. */
  predicate IsSpecialized(t: UnitType) {
    t != PettyCriminal && t != FreeColonist && t != IndenturedServants
  }

  /** `UnitType.values()`. */
  const AllUnitTypes: seq<UnitType> := [
    PettyCriminal, FreeColonist, IndenturedServants,
    ExpertFarmer, ExpertFisherman, ExpertFurTrapper, ExpertSilverMiner, ExpertLumbarJack, ExpertOreMiner,
    MasterSugarPlanter, MasterCottonPlanter, MasterTobaccoPlanter,
    FirebrandPreacher, ElderStatesman,
    MasterCarpenter, MasterDistiller, MasterWeaver, MasterTobacconist, MasterFurTrader,
    MasterBlacksmith, MasterGunsmith,
    SeasonedScout, HardyPioneer, VeteranSoldier, JesuitMissionary]

  /** Position of a variant in the declaration (`ordinal`). */
  function Ordinal(t: UnitType): nat {
    match t
    case PettyCriminal => 0 case FreeColonist => 1 case IndenturedServants => 2
    case ExpertFarmer => 3 case ExpertFisherman => 4 case ExpertFurTrapper => 5
    case ExpertSilverMiner => 6 case ExpertLumbarJack => 7 case ExpertOreMiner => 8
    case MasterSugarPlanter => 9 case MasterCottonPlanter => 10 case MasterTobaccoPlanter => 11
    case FirebrandPreacher => 12 case ElderStatesman => 13
    case MasterCarpenter => 14 case MasterDistiller => 15 case MasterWeaver => 16
    case MasterTobacconist => 17 case MasterFurTrader => 18
    case MasterBlacksmith => 19 case MasterGunsmith => 20
    case SeasonedScout => 21 case HardyPioneer => 22 case VeteranSoldier => 23 case JesuitMissionary => 24
  }

  /** How many entries of `s` are specialized. */
  function CountSpecialized(s: seq<UnitType>): (n: nat)
    ensures n <= |s|
  {
    if s == [] then 0 else (if IsSpecialized(s[0]) then 1 else 0) + CountSpecialized(s[1..])
  }

  lemma {:induction false} CountSpecializedAppend(a: seq<UnitType>, b: seq<UnitType>)
    ensures CountSpecialized(a + b) == CountSpecialized(a) + CountSpecialized(b)
  {
    if a == [] {
      assert a + b == b;
    } else {
      assert (a + b)[1..] == a[1..] + b;
      CountSpecializedAppend(a[1..], b);
    }
  }

  /** `values()` lists the 25 variants in declaration order. */
  lemma AllUnitTypesInOrder()
    ensures |AllUnitTypes| == 25
    ensures forall k :: 0 <= k < |AllUnitTypes| ==> Ordinal(AllUnitTypes[k]) == k
  {
  }

  /** Every variant is listed by `values()`, at its ordinal. */
  lemma AllUnitTypesEnumerates(t: UnitType)
    ensures Ordinal(t) < |AllUnitTypes| && AllUnitTypes[Ordinal(t)] == t
  {
  }

  /** Exactly PettyCriminal, FreeColonist and IndenturedServants are not specialized. */
  lemma UnspecializedExactly(t: UnitType)
    ensures !IsSpecialized(t) <==> t in {PettyCriminal, FreeColonist, IndenturedServants}
    ensures !IsSpecialized(DefaultUnitType)
  {
  }

  /** Specialists are exactly the variants from the fourth one on. */
  lemma SpecializedByOrdinal(t: UnitType)
    ensures IsSpecialized(t) <==> Ordinal(t) >= 3
  {
  }

  /** So 22 of the 25 variants are specialized. */
  lemma TwentyTwoSpecialized()
    ensures CountSpecialized(AllUnitTypes) == 22
  {
    AllUnitTypesInOrder();
    forall t | true ensures IsSpecialized(t) <==> Ordinal(t) >= 3 { SpecializedByOrdinal(t); }
    CountFromThird(AllUnitTypes, 0);
  }

  /** The entries from position `from` on are counted when exactly those at
      ordinal 3 or more are specialized. */
  lemma {:induction false} CountFromThird(s: seq<UnitType>, from: nat)
    requires 3 <= |s| && from <= |s|
    requires forall k :: 0 <= k < |s| ==> (IsSpecialized(s[k]) <==> k >= 3)
    ensures CountSpecialized(s[from..]) == |s| - (if from < 3 then 3 else from)
    decreases |s| - from
  {
    if from < |s| {
      CountFromThird(s, from + 1);
      assert s[from..][1..] == s[from + 1..];
    }
  }
}
