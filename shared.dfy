// Types shared by the whole engine: grid coordinates, the key-door link,
// and the Option/Result wrappers that stand for the source's panics.

module Shared {

  /** A grid cell's identity: (row, column), both non-negative. */
  type WorldCoordinates = (nat, nat)

  /** An immutable binding from the key cell to the door cell it opens. */
  datatype KeyDoorLink = KeyDoorLink(key: WorldCoordinates, door: WorldCoordinates)

  /** One constructor per place where the source panics. */
  datatype Fault =
    | UnknownTileSymbol(symbol: char)
    | KeyWithoutLink(at: WorldCoordinates)
    | LinkNumberOverflow
    | UnknownTreasureId(id: nat)
    | ItemsOnUninst
    | CoordsOnNonChest
    | IndexOutOfBounds(row: int, col: int)
    | ChangeTileStateUnimplemented

  datatype Option<+T> = None | Some(value: T) {
    predicate IsFailure() { None? }
    function PropagateFailure<U>(): Option<U>
      requires None?
    {
      None
    }
    function Extract(): T
      requires Some?
    {
      value
    }
  }

  datatype Result<+T> = Ok(value: T) | Err(fault: Fault) {
    predicate IsFailure() { Err? }
    function PropagateFailure<U>(): Result<U>
      requires Err?
    {
      Err(fault)
    }
    function Extract(): T
      requires Ok?
    {
      value
    }
  }

  /** The result of an operation that returns nothing but may panic. */
  datatype Outcome = Pass | Fail(fault: Fault)
}
