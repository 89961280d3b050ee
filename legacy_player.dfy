// The older player: the same position triple and keyring, with an inventory
// from the set/map treasure collection and no gold accessors.

module LegacyPlayers {
  import opened Shared
  import opened MoveDirections
  import TCM = TreasureCollectionMap

  class Player {
    const draw: char
    var position: Vector3
    var newPosition: Vector3
    var previousPosition: Vector3
    var keyring: set<KeyDoorLink>
    var inventory: TCM.TreasureCollection

    constructor (draw: char, position: Vector3)
      ensures this.draw == draw && this.position == position
      ensures newPosition == position && previousPosition == position
      ensures keyring == {}
      ensures inventory.variant == TCM.PlayerInventory
      ensures inventory.uitems == Some({TCM.UniqueItem(1, 0)})
      ensures inventory.items == map[] && inventory.worldCoords == None
    {
      var gold := TCM.FromTreasureType(TCM.Gold, 0);
      var built := TCM.UniqueItems(TCM.New(TCM.PlayerInventory), [gold]);
      assert built.value.uitems.value == {gold};
      this.draw := draw;
      this.position := position;
      this.newPosition := position;
      this.previousPosition := position;
      this.keyring := {};
      this.inventory := TCM.Build(built.value);
    }

    /** Row (y) of the current position. */
    function Row(): (r: int)
      reads this
      ensures r == position.y
    {
      position.y
    }

    /** Column (x) of the current position. */
    function Col(): (r: int)
      reads this
      ensures r == position.x
    {
      position.x
    }

    /** Row (y) of the proposed position. */
    function NewRow(): (r: int)
      reads this
      ensures r == newPosition.y
    {
      newPosition.y
    }

    /** Column (x) of the proposed position. */
    function NewCol(): (r: int)
      reads this
      ensures r == newPosition.x
    {
      newPosition.x
    }

    /** Proposes a move without committing it. */
    method Translate(direction: MoveDirection)
      modifies this
      ensures previousPosition == old(position)
      ensures newPosition == Mul(MoveDirections.Translate(direction), old(position))
      ensures position == old(position) && keyring == old(keyring) && inventory == old(inventory)
      ensures old(position).z == 1 ==>
        NewRow() == old(Row()) + Ty(direction) && NewCol() == old(Col()) + Tx(direction)
    {
      previousPosition := position;
      newPosition := Mul(MoveDirections.Translate(direction), position);
    }

    /** Commits the proposed move. */
    method TranslateInto()
      modifies this
      ensures position == old(newPosition)
      ensures newPosition == old(newPosition) && previousPosition == old(previousPosition)
      ensures keyring == old(keyring) && inventory == old(inventory)
    {
      position := newPosition;
    }

    /** The drawing character fixed at construction. */
    function ToCharId(): (c: char)
      ensures c == draw
    {
      draw
    }
  }
}
