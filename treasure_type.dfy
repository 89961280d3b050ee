// Treasure kinds and their numeric identifiers.

module TreasureTypes {
  import opened Shared

  datatype TreasureType = Gold | Potion | Armor | Weapon

  predicate IsTreasureId(id: nat) { 1 <= id <= 4 }

  function ToId(t: TreasureType): (id: nat)
    ensures IsTreasureId(id)
  {
    match t
    case Gold => 1
    case Potion => 2
    case Armor => 3
    case Weapon => 4
  }

  /** Inverse of ToId; any other id is the source's panic. */
  function FromId(id: nat): (r: Result<TreasureType>)
    ensures r.Ok? <==> IsTreasureId(id)
    ensures r.Ok? ==> ToId(r.value) == id
    ensures r.Err? ==> r.fault == UnknownTreasureId(id)
  {
    match id
    case 1 => Ok(Gold)
    case 2 => Ok(Potion)
    case 3 => Ok(Armor)
    case 4 => Ok(Weapon)
    case _ => Err(UnknownTreasureId(id))
  }

  lemma FromIdOfToId(t: TreasureType)
    ensures FromId(ToId(t)) == Ok(t)
  {
  }

  lemma ToIdIsBijection()
    ensures forall t, u: TreasureType :: ToId(t) == ToId(u) ==> t == u
    ensures forall id: nat :: IsTreasureId(id) <==> exists t: TreasureType :: ToId(t) == id
  {
    forall id: nat | IsTreasureId(id)
      ensures exists t: TreasureType :: ToId(t) == id
    {
      assert ToId(FromId(id).value) == id;
    }
  }
}
