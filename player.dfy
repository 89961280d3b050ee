// The player: a drawing character, a current / proposed / previous position
// triple, a keyring and an inventory whose first item is its gold.

module Players {
  import opened Shared
  import opened MoveDirections
  import TreasureTypes
  import TC = TreasureCollectionVec

  class Player {
    const draw: char
    var position: Vector3
    var newPosition: Vector3
    var previousPosition: Vector3
    var keyring: set<KeyDoorLink>
    var inventory: TC.TreasureCollection

    /** The inventory is a player inventory whose first item is gold. */
    ghost predicate Valid()
      reads this
    {
      && inventory.variant == TC.PlayerInventory
      && |inventory.items| > 0
      && inventory.items[0].0 == TreasureTypes.Gold
    }

    constructor (draw: char, position: Vector3)
      ensures Valid()
      ensures this.draw == draw && this.position == position
      ensures newPosition == position && previousPosition == position
      ensures keyring == {}
      ensures inventory.items == [(TreasureTypes.Gold, 0)] && inventory.worldCoords == None
      ensures GoldQty() == 0
    {
      var builder := TC.New(TC.PlayerInventory);
      var pairs := [(TreasureTypes.ToId(TreasureTypes.Gold), 0)];
      var built := TC.Items(builder, pairs);
      assert pairs[0].0 == 1 && |builder.items| == 0;
      var gold := built.value.items[|builder.items| + 0];
      assert TreasureTypes.ToId(gold.0) == 1 && gold.1 == 0;
      TreasureTypes.ToIdIsBijection();
      assert TreasureTypes.ToId(gold.0) == TreasureTypes.ToId(TreasureTypes.Gold);
      assert built.value.items == [(TreasureTypes.Gold, 0)];
      var inv := TC.Build(built.value);
      this.draw := draw;
      this.position := position;
      this.newPosition := position;
      this.previousPosition := position;
      this.keyring := {};
      this.inventory := inv;
    }

    /** The gold quantity, kept in the inventory's first item. */
    function GoldQty(): (g: nat)
      reads this
      requires Valid()
      ensures inventory.items[0] == (TreasureTypes.Gold, g)
    {
      inventory.items[0].1
    }

    method AddGold(quantity: nat)
      requires Valid()
      modifies this
      ensures Valid()
      ensures GoldQty() == old(GoldQty()) + quantity
      ensures inventory.items[1..] == old(inventory.items[1..])
      ensures inventory.variant == old(inventory.variant) && inventory.worldCoords == old(inventory.worldCoords)
      ensures position == old(position) && newPosition == old(newPosition)
      ensures previousPosition == old(previousPosition) && keyring == old(keyring)
    {
      var gold := inventory.items[0];
      inventory := inventory.(items := inventory.items[0 := (gold.0, gold.1 + quantity)]);
    }

    /** Row (y) of the current position. */
    function Row(): (r: int)
      reads this
      ensures r == position.y
    {
      position.y
    }

    /** Column (x) of the current position. */
    function Col(): (r: int)
      reads this
      ensures r == position.x
    {
      position.x
    }

    /** Row (y) of the proposed position. */
    function NewRow(): (r: int)
      reads this
      ensures r == newPosition.y
    {
      newPosition.y
    }

    /** Column (x) of the proposed position. */
    function NewCol(): (r: int)
      reads this
      ensures r == newPosition.x
    {
      newPosition.x
    }

    /** Proposes a move: remembers the current position and computes the
        proposed one, leaving the current position as it is. */
    method Translate(direction: MoveDirection)
      modifies this
      ensures previousPosition == old(position)
      ensures newPosition == Mul(MoveDirections.Translate(direction), old(position))
      ensures position == old(position) && keyring == old(keyring) && inventory == old(inventory)
      ensures old(position).z == 1 ==>
        NewRow() == old(Row()) + Ty(direction) && NewCol() == old(Col()) + Tx(direction)
    {
      previousPosition := position;
      newPosition := Mul(MoveDirections.Translate(direction), position);
    }

    /** Commits the proposed move. */
    method TranslateInto()
      modifies this
      ensures position == old(newPosition)
      ensures newPosition == old(newPosition) && previousPosition == old(previousPosition)
      ensures keyring == old(keyring) && inventory == old(inventory)
    {
      position := newPosition;
    }

    /** The drawing character fixed at construction. */
    function ToCharId(): (c: char)
      ensures c == draw
    {
      draw
    }
  }
}
