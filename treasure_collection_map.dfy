// The older treasure collection: a set of unique (id, quantity) items and an
// id-to-quantity map. Its builder steps replace whole fields.

module TreasureCollectionMap {
  import opened Shared

  /** This file declares its own treasure enumeration, separate from TreasureTypes. */
  datatype TreasureType = Gold | Potion | Armor | Weapon

  function ToId(t: TreasureType): (id: nat)
    ensures 1 <= id <= 4
  {
    match t
    case Gold => 1
    case Potion => 2
    case Armor => 3
    case Weapon => 4
  }

  lemma ToIdInjective(t: TreasureType, u: TreasureType)
    requires ToId(t) == ToId(u)
    ensures t == u
  {
  }

  datatype UniqueItem = UniqueItem(id: nat, qty: nat)

  function FromTreasureType(t: TreasureType, quantity: nat): (u: UniqueItem)
    ensures u.id == ToId(t) && u.qty == quantity
  {
    UniqueItem(ToId(t), quantity)
  }

  datatype TreasureCollectionVariant = Uninst | TreasureChest | PlayerInventory

  datatype TreasureCollection = TreasureCollection(
    variant: TreasureCollectionVariant,
    uitems: Option<set<UniqueItem>>,
    items: map<nat, nat>,
    worldCoords: Option<WorldCoordinates>)

  datatype TreasureCollectionBuilder = TreasureCollectionBuilder(
    variant: TreasureCollectionVariant,
    uitems: Option<set<UniqueItem>>,
    items: map<nat, nat>,
    worldCoords: Option<WorldCoordinates>)

  function DefaultBuilder(): (b: TreasureCollectionBuilder)
    ensures b.variant == Uninst && b.uitems == None && b.items == map[] && b.worldCoords == None
  {
    TreasureCollectionBuilder(Uninst, None, map[], None)
  }

  function New(variant: TreasureCollectionVariant): (b: TreasureCollectionBuilder)
    ensures b.variant == variant && b.uitems == None && b.items == map[] && b.worldCoords == None
  {
    TreasureCollectionBuilder(variant, None, map[], None)
  }

  /** The map that inserting the pairs one after another yields: a later pair
      with the same id overwrites an earlier one. */
  function MapFromPairs(pairs: seq<(nat, nat)>): (m: map<nat, nat>)
    ensures |m| <= |pairs|
  {
    if pairs == [] then map[]
    else
      var last := pairs[|pairs| - 1];
      MapFromPairs(pairs[..|pairs| - 1])[last.0 := last.1]
  }

  /** The keys are exactly the ids of the pairs. */
  lemma {:induction false} MapFromPairsKeys(pairs: seq<(nat, nat)>)
    ensures forall id :: id in MapFromPairs(pairs) <==> exists i :: 0 <= i < |pairs| && pairs[i].0 == id
  {
    if pairs != [] {
      var init := pairs[..|pairs| - 1];
      MapFromPairsKeys(init);
      assert MapFromPairs(pairs) == MapFromPairs(init)[pairs[|pairs| - 1].0 := pairs[|pairs| - 1].1];
      forall id | id in MapFromPairs(pairs)
        ensures exists i :: 0 <= i < |pairs| && pairs[i].0 == id
      {
        if id != pairs[|pairs| - 1].0 {
          var i :| 0 <= i < |init| && init[i].0 == id;
          assert pairs[i].0 == id;
        }
      }
      forall id | exists i :: 0 <= i < |pairs| && pairs[i].0 == id
        ensures id in MapFromPairs(pairs)
      {
        var i :| 0 <= i < |pairs| && pairs[i].0 == id;
        if i < |init| {
          assert init[i].0 == id;
        }
      }
    }
  }

  /** Each id maps to the quantity of its last pair. */
  lemma {:induction false} MapFromPairsLastWins(pairs: seq<(nat, nat)>)
    ensures forall i :: 0 <= i < |pairs| && (forall j :: i < j < |pairs| ==> pairs[j].0 != pairs[i].0) ==>
      pairs[i].0 in MapFromPairs(pairs) && MapFromPairs(pairs)[pairs[i].0] == pairs[i].1
  {
    if pairs != [] {
      var init := pairs[..|pairs| - 1];
      var last := pairs[|pairs| - 1];
      MapFromPairsLastWins(init);
      forall i | 0 <= i < |pairs| - 1 && (forall j :: i < j < |pairs| ==> pairs[j].0 != pairs[i].0)
        ensures pairs[i].0 in MapFromPairs(pairs) && MapFromPairs(pairs)[pairs[i].0] == pairs[i].1
      {
        assert init[i] == pairs[i];
        assert forall j :: i < j < |init| ==> init[j] == pairs[j];
        assert pairs[|pairs| - 1].0 != pairs[i].0;
      }
    }
  }

  /** Replaces the unique-item set with the set of the given items; panics on Uninst. */
  function UniqueItems(b: TreasureCollectionBuilder, uitems: seq<UniqueItem>): (r: Result<TreasureCollectionBuilder>)
    ensures r.Ok? <==> b.variant != Uninst
    ensures r.Err? ==> r.fault == ItemsOnUninst
    ensures r.Ok? ==> (r.value.uitems.Some? && r.value.variant == b.variant
                       && r.value.items == b.items && r.value.worldCoords == b.worldCoords)
    ensures r.Ok? ==> forall u :: u in r.value.uitems.value <==> u in uitems
    ensures r.Ok? ==> |r.value.uitems.value| <= |uitems|
  {
    if b.variant == Uninst then Err(ItemsOnUninst)
    else
      var s := set u | u in uitems;
      SetOfSeqSize(uitems);
      Ok(b.(uitems := Some(s)))
  }

  lemma {:induction false} SetOfSeqSize<T>(xs: seq<T>)
    ensures |set u | u in xs| <= |xs|
  {
    if xs != [] {
      SetOfSeqSize(xs[1..]);
      assert (set u | u in xs) == (set u | u in xs[1..]) + {xs[0]};
    }
  }

  /** Replaces the item map wholesale with the given pairs; panics on Uninst. */
  function Items(b: TreasureCollectionBuilder, pairs: seq<(nat, nat)>): (r: Result<TreasureCollectionBuilder>)
    ensures r.Ok? <==> b.variant != Uninst
    ensures r.Err? ==> r.fault == ItemsOnUninst
    ensures r.Ok? ==> (r.value.items == MapFromPairs(pairs) && r.value.variant == b.variant
                       && r.value.uitems == b.uitems && r.value.worldCoords == b.worldCoords)
  {
    if b.variant == Uninst then Err(ItemsOnUninst) else Ok(b.(items := MapFromPairs(pairs)))
  }

  /** Sets the chest's coordinates; panics for any other variant. */
  function Coords(b: TreasureCollectionBuilder, coords: WorldCoordinates): (r: Result<TreasureCollectionBuilder>)
    ensures r.Ok? <==> b.variant == TreasureChest
    ensures r.Err? ==> r.fault == CoordsOnNonChest
    ensures r.Ok? ==> (r.value.worldCoords == Some(coords) && r.value.variant == b.variant
                       && r.value.uitems == b.uitems && r.value.items == b.items)
  {
    if b.variant == TreasureChest then Ok(b.(worldCoords := Some(coords))) else Err(CoordsOnNonChest)
  }

  function Build(b: TreasureCollectionBuilder): (c: TreasureCollection)
    ensures c.variant == b.variant && c.uitems == b.uitems && c.items == b.items && c.worldCoords == b.worldCoords
  {
    TreasureCollection(b.variant, b.uitems, b.items, b.worldCoords)
  }
}
