/** The goods a colony stores and its buildings turn into one another.
    Only the variants the buildings and the colony refer to are declared. */
module Goods {

  datatype Resource =
    | Hammers | Horses | Lumber | Ore | Tobacco | Cotton | Furs | Sugar
    | Tools | Cigars | Cloth | Coats | Rum | Muskets

  /** `Resource.values()`: every variant exactly once. */
  const AllResources: seq<Resource> :=
    [Hammers, Horses, Lumber, Ore, Tobacco, Cotton, Furs, Sugar,
     Tools, Cigars, Cloth, Coats, Rum, Muskets]

  lemma AllResourcesEnumerates(r: Resource)
    ensures r in AllResources
    ensures forall i, j :: 0 <= i < j < |AllResources| ==> AllResources[i] != AllResources[j]
  {
  }
}
