// Movement and explicit pickup: the glue between a moving player and the
// controller. Both read the grid and push events; neither writes the grid.

module World {
  import opened Shared
  import opened CommonStates
  import opened Tiles
  import opened WorldUpdates
  import opened MoveDirections
  import opened Players
  import opened WorldControllers

  /** How a move onto a tile resolves: whether the proposed position is
      committed, and the event (if any) pushed for the controller. */
  datatype Resolution = Resolution(commit: bool, event: Option<WorldUpdate>)

  function ResolveMove(t: Tile): (r: Resolution)
    ensures r.commit <==> t.Floor? || t.Key? || (t.Door? && t.doorState == UNLOCKED)
    ensures r.event.Some? <==> (t.Key? && t.keyProps.kdl.Some?) || (t.Door? && t.doorState == LOCKED)
    ensures r.event.Some? && t.Key? ==> r.event.value.eventType == KeyPickup(t.keyProps.kdl.value)
    ensures r.event.Some? && t.Door? ==> r.event.value.eventType == TryOpenDoor(t.doorProps.worldCoordinates)
  {
    match t
    case Floor(_) => Resolution(true, None)
    case Key(props) =>
      Resolution(true, if props.kdl.Some? then Some(New(KeyPickup(props.kdl.value))) else None)
    case Door(props, state) =>
      if state == LOCKED then Resolution(false, Some(New(TryOpenDoor(props.worldCoordinates))))
      else if state == UNLOCKED then Resolution(true, None)
      else Resolution(false, None)
    case _ => Resolution(false, None)
  }

  /** A key whose link has been picked up is walked over like floor. */
  lemma ClearedKeyIsFloorLike(t: Tile)
    requires t.Key?
    ensures ResolveMove(ClearedKeyTile(t)) == ResolveMove(Floor(Properties(t)))
  {
  }

  /** An opened door is passable and pushes no further event. */
  lemma OpenedDoorIsPassable(t: Tile)
    requires t.Door?
    ensures ResolveMove(OpenedDoorTile(t)) == Resolution(true, None)
  {
  }

  /** Walls, treasure chests and doors in any other state block without an event. */
  lemma BlockingTiles(t: Tile)
    requires t.Wall? || t.Treasure? || (t.Door? && t.doorState != LOCKED && t.doorState != UNLOCKED)
    ensures ResolveMove(t) == Resolution(false, None)
  {
  }

  /** Moves the player one step in `direction` within the world. */
  method Translate(player: Player, world: WorldController, direction: MoveDirection) returns (r: Outcome)
    modifies player, world
    ensures player.previousPosition == old(player.position)
    ensures player.newPosition == Mul(MoveDirections.Translate(direction), old(player.position))
    ensures player.keyring == old(player.keyring) && player.inventory == old(player.inventory)
    ensures !world.InGrid(player.NewRow(), player.NewCol()) ==>
      && r == Fail(IndexOutOfBounds(player.NewRow(), player.NewCol()))
      && player.position == old(player.position) && world.queue == old(world.queue)
    ensures world.InGrid(player.NewRow(), player.NewCol()) ==>
      var res := ResolveMove(world.grid[player.NewRow(), player.NewCol()]);
      && r == Pass
      && player.position == (if res.commit then player.newPosition else old(player.position))
      && world.queue == old(world.queue) + (if res.event.Some? then multiset{res.event.value} else multiset{})
    ensures unchanged(world.grid)
  {
    player.Translate(direction);
    var (row, col) := (player.NewRow(), player.NewCol());
    if !(0 <= row < world.grid.Length0 && 0 <= col < world.grid.Length1) {
      return Fail(IndexOutOfBounds(row, col));
    }
    r := Pass;
    match world.grid[row, col] {
      case Floor(_) =>
        player.TranslateInto();
      case Key(props) =>
        player.TranslateInto();
        if props.kdl.Some? {
          world.QueueUpdate(New(KeyPickup(props.kdl.value)));
        }
      case Door(props, state) =>
        if state == LOCKED {
          world.QueueUpdate(New(TryOpenDoor(props.worldCoordinates)));
        } else if state == UNLOCKED {
          player.TranslateInto();
        }
      case _ =>
    }
  }

  datatype ExplicitPickupType = TreasureChest

  /** The four orthogonal neighbours of (row, col), in the order up, down, left, right. */
  function Adjacents(row: int, col: int): (cells: seq<(int, int)>)
    ensures |cells| == 4
    ensures forall k :: 0 <= k < 4 ==>
      cells[k] == (row + [UP, DOWN, LEFT, RIGHT][k].row, col + [UP, DOWN, LEFT, RIGHT][k].col)
    ensures forall a, b :: 0 <= a < b < 4 ==> cells[a] != cells[b]
    ensures forall k :: 0 <= k < 4 ==> (cells[k].0 - row) * (cells[k].0 - row) + (cells[k].1 - col) * (cells[k].1 - col) == 1
  {
    [(row - 1, col), (row + 1, col), (row, col - 1), (row, col + 1)]
  }

  /** The neighbours are exactly the cells at distance one. */
  lemma AdjacentsAreUnitDistance(row: int, col: int, r: int, c: int)
    ensures (r, c) in Adjacents(row, col) <==> (r - row) * (r - row) + (c - col) * (c - col) == 1
  {
    var dr, dc := r - row, c - col;
    if dr * dr + dc * dc == 1 {
      SquareSplit(dr, dc);
      var cells := Adjacents(row, col);
      if dr == -1 { assert cells[0] == (r, c); }
      else if dr == 1 { assert cells[1] == (r, c); }
      else if dc == -1 { assert cells[2] == (r, c); }
      else { assert cells[3] == (r, c); }
    }
  }

  /** Two integer squares sum to one only when one is zero and the other is one. */
  lemma SquareSplit(a: int, b: int)
    requires a * a + b * b == 1
    ensures (a == 0 && (b == 1 || b == -1)) || (b == 0 && (a == 1 || a == -1))
  {
  }

  /** The result of scanning cells for treasure: the events pushed, in order,
      and whether a grid index failed before the scan finished. */
  datatype Scan = Scan(events: seq<WorldUpdate>, outcome: Outcome)

  predicate HoldsTreasure(grid: array2<Tile>, row: int, col: int)
    reads grid
  {
    0 <= row < grid.Length0 && 0 <= col < grid.Length1 && Properties(grid[row, col]).treasure.Some?
  }

  /** Scans `cells` in order: a cell the bounds test admits but the grid does
      not hold is a failed index; an admitted cell holding treasure yields a
      PickupTreasure event. */
  function ScanCells(grid: array2<Tile>, cells: seq<(int, int)>, withinBounds: (int, int) -> bool): (s: Scan)
    reads grid
    decreases |cells|
    ensures |s.events| <= |cells|
  {
    if cells == [] then Scan([], Pass)
    else
      var prev := ScanCells(grid, cells[..|cells| - 1], withinBounds);
      var (row, col) := cells[|cells| - 1];
      if prev.outcome.Fail? || !withinBounds(row, col) then prev
      else if !(0 <= row < grid.Length0 && 0 <= col < grid.Length1) then Scan(prev.events, Fail(IndexOutOfBounds(row, col)))
      else if Properties(grid[row, col]).treasure.Some? then Scan(prev.events + [New(PickupTreasure((row, col)))], Pass)
      else prev
  }

  /** Every event of a scan picks up treasure at an admitted, scanned cell that holds it. */
  lemma {:induction false} ScanSound(grid: array2<Tile>, cells: seq<(int, int)>, withinBounds: (int, int) -> bool)
    ensures forall e :: e in ScanCells(grid, cells, withinBounds).events ==> (
      && e.eventType.PickupTreasure?
      && (e.eventType.treasureCoords.0, e.eventType.treasureCoords.1) in cells
      && withinBounds(e.eventType.treasureCoords.0, e.eventType.treasureCoords.1)
      && HoldsTreasure(grid, e.eventType.treasureCoords.0, e.eventType.treasureCoords.1))
    decreases |cells|
  {
    if cells != [] {
      var init := cells[..|cells| - 1];
      ScanSound(grid, init, withinBounds);
      forall c | c in init ensures c in cells {
        var k :| 0 <= k < |init| && init[k] == c;
        assert cells[k] == c;
      }
      var prev := ScanCells(grid, init, withinBounds);
      var s := ScanCells(grid, cells, withinBounds);
      var (row, col) := cells[|cells| - 1];
      if s.events != prev.events {
        assert s.events == prev.events + [New(PickupTreasure((row, col)))];
        assert withinBounds(row, col) && HoldsTreasure(grid, row, col);
      }
    }
  }

  /** A scan that finishes picks up treasure at every admitted cell holding it,
      and every admitted cell lies in the grid. */
  lemma {:induction false} ScanComplete(grid: array2<Tile>, cells: seq<(int, int)>, withinBounds: (int, int) -> bool)
    ensures var s := ScanCells(grid, cells, withinBounds);
      s.outcome.Pass? ==> forall k :: 0 <= k < |cells| && withinBounds(cells[k].0, cells[k].1) ==> (
        && 0 <= cells[k].0 < grid.Length0 && 0 <= cells[k].1 < grid.Length1
        && (HoldsTreasure(grid, cells[k].0, cells[k].1) ==>
             New(PickupTreasure((cells[k].0, cells[k].1))) in s.events))
    decreases |cells|
  {
    if cells != [] {
      var init := cells[..|cells| - 1];
      ScanComplete(grid, init, withinBounds);
      var prev := ScanCells(grid, init, withinBounds);
      var s := ScanCells(grid, cells, withinBounds);
      if s.outcome.Pass? {
        assert prev.outcome.Pass?;
        assert forall e :: e in prev.events ==> e in s.events;
        forall k | 0 <= k < |cells| - 1
          ensures cells[k] == init[k]
        {
        }
      }
    }
  }

  /** A scan fails exactly at an admitted cell outside the grid. */
  lemma {:induction false} ScanFault(grid: array2<Tile>, cells: seq<(int, int)>, withinBounds: (int, int) -> bool)
    ensures var s := ScanCells(grid, cells, withinBounds);
      s.outcome.Fail? ==> exists k :: (
        && 0 <= k < |cells| && withinBounds(cells[k].0, cells[k].1)
        && s.outcome == Fail(IndexOutOfBounds(cells[k].0, cells[k].1))
        && !(0 <= cells[k].0 < grid.Length0 && 0 <= cells[k].1 < grid.Length1))
    decreases |cells|
  {
    if cells != [] {
      var init := cells[..|cells| - 1];
      ScanFault(grid, init, withinBounds);
      var s := ScanCells(grid, cells, withinBounds);
      if ScanCells(grid, init, withinBounds).outcome.Fail? {
        var k :| 0 <= k < |init| && withinBounds(init[k].0, init[k].1)
          && s.outcome == Fail(IndexOutOfBounds(init[k].0, init[k].1))
          && !(0 <= init[k].0 < grid.Length0 && 0 <= init[k].1 < grid.Length1);
        assert cells[k] == init[k];
      } else if s.outcome.Fail? {
        assert s.outcome == Fail(IndexOutOfBounds(cells[|cells| - 1].0, cells[|cells| - 1].1));
      }
    }
  }

  /** Pushes a pickup event for every admitted neighbour of the player that
      holds treasure. */
  method PickupExplicit(player: Player, world: WorldController, kind: ExplicitPickupType,
                        withinBounds: (int, int) -> bool) returns (r: Outcome)
    modifies world
    ensures var s := ScanCells(world.grid, Adjacents(player.Row(), player.Col()), withinBounds);
      r == s.outcome && world.queue == old(world.queue) + multiset(s.events)
    ensures unchanged(world.grid)
  {
    var adjacents := Adjacents(player.Row(), player.Col());
    r := Pass;
    for k := 0 to 4
      invariant var s := ScanCells(world.grid, adjacents[..k], withinBounds);
        s.outcome == Pass && world.queue == old(world.queue) + multiset(s.events)
    {
      ghost var prev := ScanCells(world.grid, adjacents[..k], withinBounds);
      assert adjacents[..k + 1][..k] == adjacents[..k];
      ghost var next := ScanCells(world.grid, adjacents[..k + 1], withinBounds);
      var (row, col) := adjacents[k];
      if !withinBounds(row, col) {
        assert next == prev;
      } else if !(0 <= row < world.grid.Length0 && 0 <= col < world.grid.Length1) {
        r := Fail(IndexOutOfBounds(row, col));
        assert next.outcome == r;
        ScanStopsAtFault(world.grid, adjacents, k + 1, withinBounds);
        assert adjacents[..4] == adjacents;
        return;
      } else if Properties(world.grid[row, col]).treasure.Some? {
        var e := New(PickupTreasure((row, col)));
        assert next == Scan(prev.events + [e], Pass);
        match kind {
          case TreasureChest =>
            world.QueueUpdate(e);
        }
      } else {
        assert next == prev;
      }
    }
    assert adjacents[..4] == adjacents;
  }

  /** Once a scan has failed, scanning further cells changes nothing. */
  lemma {:induction false} ScanStopsAtFault(grid: array2<Tile>, cells: seq<(int, int)>, n: nat, withinBounds: (int, int) -> bool)
    requires n <= |cells|
    requires ScanCells(grid, cells[..n], withinBounds).outcome.Fail?
    ensures ScanCells(grid, cells, withinBounds) == ScanCells(grid, cells[..n], withinBounds)
    decreases |cells| - n
  {
    if n < |cells| {
      assert cells[..|cells| - 1][..n] == cells[..n];
      ScanStopsAtFault(grid, cells[..|cells| - 1], n, withinBounds);
    } else {
      assert cells[..n] == cells;
    }
  }
}
