// The treasure collection whose items are an ordered list of (type, quantity)
// pairs, and the builder that makes one. Each builder step consumes the
// builder and returns it, or panics when the variant does not allow the step.

module TreasureCollectionVec {
  import opened Shared
  import opened TreasureTypes

  datatype TreasureCollectionVariant = Uninst | TreasureChest | PlayerInventory

  datatype TreasureCollection = TreasureCollection(
    variant: TreasureCollectionVariant,
    items: seq<(TreasureType, nat)>,
    worldCoords: Option<WorldCoordinates>)

  datatype TreasureCollectionBuilder = TreasureCollectionBuilder(
    variant: TreasureCollectionVariant,
    items: seq<(TreasureType, nat)>,
    worldCoords: Option<WorldCoordinates>)

  /** Builder invariant: only a chest ever carries world coordinates. */
  predicate CoordsOnlyOnChest(b: TreasureCollectionBuilder) {
    b.worldCoords.Some? ==> b.variant == TreasureChest
  }

  /** The derived default builder, which `TreasureCollection::builder()` returns. */
  function DefaultBuilder(): (b: TreasureCollectionBuilder)
    ensures b.variant == Uninst && b.items == [] && b.worldCoords == None
  {
    TreasureCollectionBuilder(Uninst, [], None)
  }

  function New(variant: TreasureCollectionVariant): (b: TreasureCollectionBuilder)
    ensures b.variant == variant && b.items == [] && b.worldCoords == None
    ensures CoordsOnlyOnChest(b)
  {
    TreasureCollectionBuilder(variant, [], None)
  }

  /** Appends one (type, quantity) item per (id, quantity) pair, in order.
      Panics on an Uninst builder, or at the first id that is not a treasure id. */
  method Items(b: TreasureCollectionBuilder, pairs: seq<(nat, nat)>) returns (r: Result<TreasureCollectionBuilder>)
    ensures r.Ok? <==> b.variant != Uninst && forall i :: 0 <= i < |pairs| ==> IsTreasureId(pairs[i].0)
    ensures r.Err? && b.variant == Uninst ==> r.fault == ItemsOnUninst
    ensures r.Err? && b.variant != Uninst ==>
      exists i :: 0 <= i < |pairs| && !IsTreasureId(pairs[i].0) && r.fault == UnknownTreasureId(pairs[i].0)
        && forall j :: 0 <= j < i ==> IsTreasureId(pairs[j].0)
    ensures r.Ok? ==> r.value.variant == b.variant && r.value.worldCoords == b.worldCoords
    ensures r.Ok? && CoordsOnlyOnChest(b) ==> CoordsOnlyOnChest(r.value)
    ensures r.Ok? ==> |r.value.items| == |b.items| + |pairs| && r.value.items[..|b.items|] == b.items
    ensures r.Ok? ==> forall i :: 0 <= i < |pairs| ==>
      ToId(r.value.items[|b.items| + i].0) == pairs[i].0 && r.value.items[|b.items| + i].1 == pairs[i].1
  {
    if b.variant == Uninst {
      return Err(ItemsOnUninst);
    }
    var items := b.items;
    var i := 0;
    while i < |pairs|
      invariant 0 <= i <= |pairs|
      invariant |items| == |b.items| + i && items[..|b.items|] == b.items
      invariant forall j :: 0 <= j < i ==> IsTreasureId(pairs[j].0)
      invariant forall j :: 0 <= j < i ==>
        ToId(items[|b.items| + j].0) == pairs[j].0 && items[|b.items| + j].1 == pairs[j].1
    {
      var t := FromId(pairs[i].0);
      if t.Err? {
        return Err(t.fault);
      }
      items := items + [(t.value, pairs[i].1)];
      i := i + 1;
    }
    return Ok(b.(items := items));
  }

  /** Sets the chest's coordinates; panics for any other variant. */
  function Coords(b: TreasureCollectionBuilder, coords: WorldCoordinates): (r: Result<TreasureCollectionBuilder>)
    ensures r.Ok? <==> b.variant == TreasureChest
    ensures r.Ok? ==> r.value.worldCoords == Some(coords) && r.value.variant == b.variant && r.value.items == b.items
    ensures r.Ok? ==> CoordsOnlyOnChest(r.value)
    ensures r.Err? ==> r.fault == CoordsOnNonChest
  {
    if b.variant == TreasureChest then Ok(b.(worldCoords := Some(coords))) else Err(CoordsOnNonChest)
  }

  function Build(b: TreasureCollectionBuilder): (c: TreasureCollection)
    ensures c.variant == b.variant && c.items == b.items && c.worldCoords == b.worldCoords
  {
    TreasureCollection(b.variant, b.items, b.worldCoords)
  }
}
