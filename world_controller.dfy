// The controller: owns the loaded grid and the event queue, and drains the
// queue by applying each event to the grid and to the player.

module WorldControllers {
  import opened Shared
  import opened CommonStates
  import opened Tiles
  import opened WorldUpdates
  import opened Players
  import WorldMaps
  import MoveDirections
  import TreasureCollectionVec

  /** A key tile once its link has been picked up: drawn as floor, no link. */
  function ClearedKeyTile(t: Tile): (r: Tile)
    ensures SameVariant(r, t) && GetState(r) == GetState(t)
    ensures ToCharId(r) == '.' && Properties(r).kdl == None
    ensures Row(r) == Row(t) && Col(r) == Col(t)
    ensures Properties(r).worldCoordinates == Properties(t).worldCoordinates
    ensures Properties(r).treasure == Properties(t).treasure
  {
    WithProperties(t, Properties(t).(kdl := None, drawCharacter := '.'))
  }

  /** A door once it has been opened: drawn as an unlocked door, no link,
      state UNLOCKED (the state change is a no-op on other variants). */
  function OpenedDoorTile(t: Tile): (r: Tile)
    ensures SameVariant(r, t)
    ensures ToCharId(r) == '\\' && Properties(r).kdl == None
    ensures t.Door? ==> GetState(r) == Some(UNLOCKED)
    ensures !(t.Door? || t.Treasure?) ==> GetState(r) == None
    ensures Row(r) == Row(t) && Col(r) == Col(t)
    ensures Properties(r).worldCoordinates == Properties(t).worldCoordinates
    ensures Properties(r).treasure == Properties(t).treasure
  {
    ChangeState(WithProperties(t, Properties(t).(kdl := None, drawCharacter := '\\')), UNLOCKED)
  }

  /** Clearing a key and opening a door are idempotent. */
  lemma EditsIdempotent(t: Tile)
    ensures ClearedKeyTile(ClearedKeyTile(t)) == ClearedKeyTile(t)
    ensures OpenedDoorTile(OpenedDoorTile(t)) == OpenedDoorTile(t)
  {
  }

  /** Opening a door loaded as locked ('|') yields exactly the tile the loader
      builds for an unlocked door ('\') at the same place. */
  lemma OpenedDoorIsUnlockedDoor(at: WorldCoordinates, links: seq<KeyDoorLink>, debug: bool)
    ensures WorldMaps.CellTile('|', at, links, debug).Ok? && WorldMaps.CellTile('\\', at, links, debug).Ok?
    ensures OpenedDoorTile(WorldMaps.CellTile('|', at, links, debug).value) == WorldMaps.CellTile('\\', at, links, debug).value
  {
  }

  /** The cells an event may write. */
  function TargetSet(e: WorldUpdateEventType): set<WorldCoordinates> {
    match e
    case KeyPickup(l) => {l.key}
    case TryOpenDoor(d) => {d}
    case _ => {}
  }

  /** The key cells that the KeyPickup events of `q` pick up. */
  ghost function KeyCells(q: multiset<WorldUpdate>): set<WorldCoordinates> {
    set u | u in q && u.eventType.KeyPickup? :: u.eventType.link.key
  }

  /** The door cells that the TryOpenDoor events of `q` try. */
  ghost function DoorCells(q: multiset<WorldUpdate>): set<WorldCoordinates> {
    set u | u in q && u.eventType.TryOpenDoor? :: u.eventType.doorCoords
  }

  /** The cells the events of `q` may write. */
  ghost function Targets(q: multiset<WorldUpdate>): set<WorldCoordinates> {
    KeyCells(q) + DoorCells(q)
  }

  /** The links that the KeyPickup events of `q` carry. */
  ghost function PickedLinks(q: multiset<WorldUpdate>): set<KeyDoorLink> {
    set u | u in q && u.eventType.KeyPickup? :: u.eventType.link
  }

  ghost predicate HasDoorEvent(q: multiset<WorldUpdate>) {
    exists u :: u in q && u.eventType.TryOpenDoor?
  }

  ghost predicate HasChangeTileState(q: multiset<WorldUpdate>) {
    exists u :: u in q && u.eventType.ChangeTileState?
  }

  /** `q` picks up no key and tries the door at `d` and no other; `keys`
      holds a link that opens it. */
  ghost predicate OpensOnly(q: multiset<WorldUpdate>, keys: set<KeyDoorLink>, d: WorldCoordinates) {
    && PickedLinks(q) == {}
    && DoorCells(q) == {d}
    && exists k :: k in keys && k.door == d
  }

  /** Where a drain starts: the queue, a snapshot of the grid, the player's
      keyring, positions and inventory, and what the drain will be shown to
      do: open only `door` when `opening`, behave as one event `only` when `single`. */
  datatype Start = Start(queue: multiset<WorldUpdate>, cells: seq<seq<Tile>>, keyring: set<KeyDoorLink>,
                         position: MoveDirections.Vector3, newPosition: MoveDirections.Vector3,
                         previousPosition: MoveDirections.Vector3,
                         inventory: TreasureCollectionVec.TreasureCollection,
                         opening: bool, door: WorldCoordinates, single: bool, only: WorldUpdate)

  lemma TargetsAdd(q: multiset<WorldUpdate>, u: WorldUpdate)
    ensures KeyCells(q + multiset{u}) == KeyCells(q) + (if u.eventType.KeyPickup? then {u.eventType.link.key} else {})
    ensures DoorCells(q + multiset{u}) == DoorCells(q) + (if u.eventType.TryOpenDoor? then {u.eventType.doorCoords} else {})
    ensures Targets(q + multiset{u}) == Targets(q) + TargetSet(u.eventType)
    ensures PickedLinks(q + multiset{u}) == PickedLinks(q) + (if u.eventType.KeyPickup? then {u.eventType.link} else {})
  {
  }

  /** The event of a queue that holds exactly one. */
  lemma OnlyEvent(q: multiset<WorldUpdate>) returns (single: bool, only: WorldUpdate)
    ensures single ==> q == multiset{only}
    ensures forall u :: q == multiset{u} ==> single && only == u
  {
    if u :| q == multiset{u} {
      single, only := true, u;
      forall v | q == multiset{v}
        ensures v == u
      {
        assert v in q;
      }
    } else {
      single, only := false, WorldUpdate(Idle);
    }
  }

  /** Every KeyPickup of a queue contributes its link to PickedLinks. */
  lemma PickedHas(q: multiset<WorldUpdate>, u: WorldUpdate)
    requires u in q
    ensures u.eventType.KeyPickup? ==> u.eventType.link in PickedLinks(q)
  {
  }

  /** Targets and picked links depend only on which events occur, not on how often. */
  lemma SameMembers(p: multiset<WorldUpdate>, q: multiset<WorldUpdate>)
    requires forall u :: u in p <==> u in q
    ensures KeyCells(p) == KeyCells(q) && DoorCells(p) == DoorCells(q)
    ensures Targets(p) == Targets(q) && PickedLinks(p) == PickedLinks(q)
  {
  }

  /** The contents of a grid, row by row. */
  ghost function Snapshot(g: array2<Tile>): (s: seq<seq<Tile>>)
    reads g
    ensures |s| == g.Length0
    ensures forall i :: 0 <= i < |s| ==> |s[i]| == g.Length1
    ensures forall i, j :: 0 <= i < g.Length0 && 0 <= j < g.Length1 ==> s[i][j] == g[i, j]
  {
    seq(g.Length0, i requires 0 <= i < g.Length0 reads g =>
      seq(g.Length1, j requires 0 <= j < g.Length1 reads g => g[i, j]))
  }

  class WorldController {
    const grid: array2<Tile>
    var queue: multiset<WorldUpdate>

    constructor (grid: array2<Tile>)
      ensures this.grid == grid && queue == multiset{}
    {
      this.grid := grid;
      queue := multiset{};
    }

    /** Whether (row, col) indexes a cell of the grid; negative indices,
        which become huge once cast to an unsigned index, never do. */
    predicate InGrid(row: int, col: int) {
      0 <= row < grid.Length0 && 0 <= col < grid.Length1
    }

    predicate InBounds(c: WorldCoordinates) {
      InGrid(c.0, c.1)
    }

    /** An event whose processing panics: ChangeTileState, or a grid index out of bounds. */
    predicate Faulty(e: WorldUpdateEventType) {
      match e
      case ChangeTileState(_, _) => true
      case KeyPickup(l) => !InBounds(l.key)
      case TryOpenDoor(d) => !InBounds(d)
      case _ => false
    }

    method QueueUpdate(update: WorldUpdate)
      modifies this
      ensures queue == old(queue) + multiset{update}
    {
      queue := queue + multiset{update};
    }

    /** What applying `u` does, kind by kind: the outcome, the keyring, the
        player's position and the targeted cell. */
    twostate predicate Applied(u: WorldUpdate, r: Outcome, player: Player)
      reads grid, player
    {
      match u.eventType
      case Idle => r == Pass
      case PickupTreasure(_) => r == Pass
      case ChangeTileState(_, _) => r == Fail(ChangeTileStateUnimplemented)
      case KeyPickup(l) =>
        if InBounds(l.key) then
          && r == Pass
          && player.keyring == old(player.keyring) + {l}
          && grid[l.key.0, l.key.1] == ClearedKeyTile(old(grid[l.key.0, l.key.1]))
        else
          && r == Fail(IndexOutOfBounds(l.key.0, l.key.1))
          && player.keyring == old(player.keyring)
      case TryOpenDoor(d) =>
        if !(exists k :: k in old(player.keyring) && k.door == d) then
          && r == Pass && player.keyring == old(player.keyring) && player.position == old(player.position)
          && (InBounds(d) ==> grid[d.0, d.1] == old(grid[d.0, d.1]))
        else if !InBounds(d) then
          && r == Fail(IndexOutOfBounds(d.0, d.1)) && player.keyring == old(player.keyring)
          && player.position == old(player.position)
        else
          && r == Pass
          && (exists k :: k in old(player.keyring) && k.door == d && player.keyring == old(player.keyring) - {k})
          && grid[d.0, d.1] == OpenedDoorTile(old(grid[d.0, d.1]))
          && player.position == old(player.newPosition)
    }

    /** Applied, with the state before the event given as values: the grid as
        a snapshot and the player's keyring and positions. */
    ghost predicate AppliedFrom(u: WorldUpdate, r: Outcome, player: Player, g0: seq<seq<Tile>>,
                                keys0: set<KeyDoorLink>, pos0: MoveDirections.Vector3, next0: MoveDirections.Vector3)
      requires |g0| == grid.Length0 && forall i :: 0 <= i < |g0| ==> |g0[i]| == grid.Length1
      reads grid, player
    {
      match u.eventType
      case Idle => r == Pass
      case PickupTreasure(_) => r == Pass
      case ChangeTileState(_, _) => r == Fail(ChangeTileStateUnimplemented)
      case KeyPickup(l) =>
        if InBounds(l.key) then
          && r == Pass
          && player.keyring == keys0 + {l}
          && grid[l.key.0, l.key.1] == ClearedKeyTile(g0[l.key.0][l.key.1])
        else
          && r == Fail(IndexOutOfBounds(l.key.0, l.key.1))
          && player.keyring == keys0
      case TryOpenDoor(d) =>
        if !(exists k :: k in keys0 && k.door == d) then
          && r == Pass && player.keyring == keys0 && player.position == pos0
          && (InBounds(d) ==> grid[d.0, d.1] == g0[d.0][d.1])
        else if !InBounds(d) then
          && r == Fail(IndexOutOfBounds(d.0, d.1)) && player.keyring == keys0
          && player.position == pos0
        else
          && r == Pass
          && (exists k :: k in keys0 && k.door == d && player.keyring == keys0 - {k})
          && grid[d.0, d.1] == OpenedDoorTile(g0[d.0][d.1])
          && player.position == next0
    }

    /** Applied and AppliedFrom agree when the snapshot is the old grid. */
    twostate lemma AppliedAsFrom(new u: WorldUpdate, new r: Outcome, player: Player, new g0: seq<seq<Tile>>)
      requires |g0| == grid.Length0 && forall i :: 0 <= i < |g0| ==> |g0[i]| == grid.Length1
      requires forall i: nat, j: nat | i < grid.Length0 && j < grid.Length1 :: g0[i][j] == old(grid[i, j])
      ensures Applied(u, r, player) <==>
        AppliedFrom(u, r, player, g0, old(player.keyring), old(player.position), old(player.newPosition))
    {
    }

    /** Everything applying `u` does: its own effect (Applied), and nothing
        else — cells other than its target, the player's proposed and previous
        positions and inventory stay; the position moves only onto the
        proposed one, and only for a door; the keyring changes only for a key
        or a door, and grows by at most the picked-up link; a panic comes only
        from a faulty event. */
    twostate predicate Effects(u: WorldUpdate, r: Outcome, player: Player)
      reads grid, player
    {
      && player.newPosition == old(player.newPosition) && player.previousPosition == old(player.previousPosition)
      && player.inventory == old(player.inventory)
      && (r.Fail? ==> Faulty(u.eventType))
      && (forall i: nat, j: nat | i < grid.Length0 && j < grid.Length1 && (i, j) !in TargetSet(u.eventType) ::
            grid[i, j] == old(grid[i, j]))
      && (player.position == old(player.position) || player.position == player.newPosition)
      && (!u.eventType.TryOpenDoor? ==> player.position == old(player.position))
      && (!u.eventType.KeyPickup? && !u.eventType.TryOpenDoor? ==> player.keyring == old(player.keyring))
      && player.keyring <= old(player.keyring) + (if u.eventType.KeyPickup? then {u.eventType.link} else {})
      && Applied(u, r, player)
    }

    /** Applies one event to the grid and the player. */
    method ApplyUpdate(u: WorldUpdate, player: Player) returns (r: Outcome)
      modifies grid, player
      ensures Effects(u, r, player)
    {
      match u.eventType {
        case Idle =>
          r := Pass;
        case ChangeTileState(_, _) =>
          r := Fail(ChangeTileStateUnimplemented);
        case KeyPickup(kdl) =>
          var (kr, kc) := (kdl.key.0, kdl.key.1);
          if !(kr < grid.Length0 && kc < grid.Length1) {
            return Fail(IndexOutOfBounds(kr, kc));
          }
          var tile := grid[kr, kc];
          player.keyring := player.keyring + {kdl};
          grid[kr, kc] := WithProperties(tile, Properties(tile).(kdl := None, drawCharacter := '.'));
          r := Pass;
        case TryOpenDoor(doorCoords) =>
          r := Pass;
          if exists k :: k in player.keyring && k.door == doorCoords {
            var (dr, dc) := (doorCoords.0, doorCoords.1);
            if !(dr < grid.Length0 && dc < grid.Length1) {
              return Fail(IndexOutOfBounds(dr, dc));
            }
            var toRemove :| toRemove in player.keyring && toRemove.door == doorCoords;
            player.keyring := player.keyring - {toRemove};
            var tile := grid[dr, dc];
            tile := WithProperties(tile, Properties(tile).(kdl := None, drawCharacter := '\\'));
            grid[dr, dc] := ChangeState(tile, UNLOCKED);
            player.TranslateInto();
          }
        case PickupTreasure(_) =>
          r := Pass;
      }
    }

    /** Takes one event of highest priority off the queue and applies it. */
    method ApplyNext(player: Player) returns (u: WorldUpdate, r: Outcome)
      requires queue != multiset{}
      modifies this, grid, player
      ensures u in old(queue) && |queue| < |old(queue)|
      ensures forall v :: v in queue ==> v in old(queue)
      ensures forall v :: v in old(queue) && v != u ==> v in queue
      ensures forall v :: v in old(queue) ==> Priority(v.eventType) <= Priority(u.eventType)
      ensures HasChangeTileState(old(queue)) ==> u.eventType.ChangeTileState?
      ensures Effects(u, r, player)
    {
      HighestExists(queue);
      u :| u in queue && forall v :: v in queue ==> Priority(v.eventType) <= Priority(u.eventType);
      if HasChangeTileState(queue) {
        // a ChangeTileState outranks every other event
        var w :| w in queue && w.eventType.ChangeTileState?;
        assert Priority(w.eventType) == 2;
      }
      queue := queue - multiset{u};
      r := ApplyUpdate(u, player);
    }

    /** The start of a drain is well formed: the snapshot has the grid's
        shape, and the door and the single event it plans for are there. */
    ghost predicate StartOk(s0: Start) {
      && |s0.cells| == grid.Length0 && (forall i :: 0 <= i < |s0.cells| ==> |s0.cells[i]| == grid.Length1)
      && (s0.opening ==> OpensOnly(s0.queue, s0.keyring, s0.door) && InBounds(s0.door))
      && (s0.single ==> s0.queue == multiset{s0.only})
    }

    /** The queue so far: what is left and what has been processed together
        hold every event of the start, and a panic came from a processed event. */
    ghost predicate QueueInv(s0: Start, processed: multiset<WorldUpdate>, r: Outcome)
      reads this
    {
      && (forall u :: u in processed ==> u in s0.queue)
      && (forall u :: u in queue ==> u in s0.queue)
      && (r.Pass? ==> forall u :: u in s0.queue ==> u in queue || u in processed)
      && (r.Fail? ==> exists u :: u in processed && Faulty(u.eventType))
      && (processed == multiset{} ==> queue == s0.queue)
    }

    /** The player so far: only the keyring and the position move, the
        position only onto the proposed one, and the keyring only by the
        links picked up; a ChangeTileState in the queue stops the drain first. */
    ghost predicate PlayerInv(s0: Start, processed: multiset<WorldUpdate>, r: Outcome, player: Player)
      reads player
    {
      && player.newPosition == s0.newPosition && player.previousPosition == s0.previousPosition
      && player.inventory == s0.inventory
      && (player.position == s0.position || player.position == player.newPosition)
      && player.keyring <= s0.keyring + PickedLinks(processed)
      && (!HasDoorEvent(s0.queue) ==> player.position == s0.position)
      && (r.Pass? && !HasDoorEvent(s0.queue) ==> player.keyring == s0.keyring + PickedLinks(processed))
      && (processed == multiset{} ==> player.keyring == s0.keyring && player.position == s0.position)
      && (HasChangeTileState(s0.queue) ==>
            && (processed == multiset{} || r == Fail(ChangeTileStateUnimplemented))
            && Targets(processed) == {}
            && player.keyring == s0.keyring && player.position == s0.position)
    }

    /** The grid so far: only cells that a processed event targets differ from the start. */
    ghost predicate GridInv(s0: Start, processed: multiset<WorldUpdate>)
      requires StartOk(s0)
      reads grid
    {
      forall i: nat, j: nat | i < grid.Length0 && j < grid.Length1 && (i, j) !in Targets(processed) ::
        grid[i, j] == s0.cells[i][j]
    }

    /** Every picked-up key cell that no door event targets is cleared, and
        every processed door event is one of the start's. */
    ghost predicate KeysInv(s0: Start, processed: multiset<WorldUpdate>)
      requires StartOk(s0)
      reads grid
    {
      && (forall i: nat, j: nat | (i < grid.Length0 && j < grid.Length1
            && (i, j) in KeyCells(processed) && (i, j) !in DoorCells(s0.queue)) ::
            grid[i, j] == ClearedKeyTile(s0.cells[i][j]))
      && DoorCells(processed) <= DoorCells(s0.queue)
    }

    /** For a queue that opens only `s0.door`: until its door event the
        keyring and the door cell are as they started, and from then on the
        door is open with the player on it. */
    ghost predicate DoorInv(s0: Start, processed: multiset<WorldUpdate>, r: Outcome, player: Player)
      requires StartOk(s0)
      reads grid, player
    {
      && (s0.opening && r.Pass? && DoorCells(processed) == {} ==>
            player.keyring == s0.keyring && grid[s0.door.0, s0.door.1] == s0.cells[s0.door.0][s0.door.1])
      && (s0.opening && r.Pass? && DoorCells(processed) != {} ==>
            && grid[s0.door.0, s0.door.1] == OpenedDoorTile(s0.cells[s0.door.0][s0.door.1])
            && player.position == player.newPosition)
    }

    /** For a queue of one event: it is still queued, or it has been applied. */
    ghost predicate SingleInv(s0: Start, processed: multiset<WorldUpdate>, r: Outcome, player: Player)
      requires StartOk(s0)
      reads this, grid, player
    {
      && (s0.single && processed == multiset{} ==> queue == multiset{s0.only})
      && (s0.single && processed != multiset{} ==>
            && queue == multiset{}
            && AppliedFrom(s0.only, r, player, s0.cells, s0.keyring, s0.position, s0.newPosition))
    }

    /** One drain step keeps QueueInv. */
    twostate lemma QueueStep(new s0: Start, new prev: multiset<WorldUpdate>, new u: WorldUpdate, new r: Outcome, player: Player)
      requires old(QueueInv(s0, prev, Pass))
      requires u in old(queue) && |queue| < |old(queue)|
      requires forall v :: v in queue ==> v in old(queue)
      requires forall v :: v in old(queue) && v != u ==> v in queue
      requires Effects(u, r, player)
      ensures QueueInv(s0, prev + multiset{u}, r)
    {
    }

    /** One drain step keeps PlayerInv. */
    twostate lemma PlayerStep(new s0: Start, new prev: multiset<WorldUpdate>, new u: WorldUpdate, new r: Outcome, player: Player)
      requires old(QueueInv(s0, prev, Pass)) && old(PlayerInv(s0, prev, Pass, player))
      requires u in old(queue)
      requires HasChangeTileState(old(queue)) ==> u.eventType.ChangeTileState?
      requires Effects(u, r, player)
      ensures PlayerInv(s0, prev + multiset{u}, r, player)
    {
      TargetsAdd(prev, u);
      assert u in s0.queue;
      if HasChangeTileState(s0.queue) {
        // nothing has been processed yet, so the queue still holds the ChangeTileState
        var w :| w in s0.queue && w.eventType.ChangeTileState?;
        assert w in old(queue);
      }
      if u.eventType.KeyPickup? {
        assert u.eventType.link in PickedLinks(s0.queue);
      }
    }

    /** One drain step keeps GridInv. */
    twostate lemma GridStep(new s0: Start, new prev: multiset<WorldUpdate>, new u: WorldUpdate, new r: Outcome, player: Player)
      requires StartOk(s0) && old(GridInv(s0, prev))
      requires Effects(u, r, player)
      ensures GridInv(s0, prev + multiset{u})
    {
      TargetsAdd(prev, u);
    }

    /** One drain step keeps KeysInv: a key cell it clears stays cleared,
        clearing twice is clearing once, and other cells keep their tiles. */
    twostate lemma KeysStep(new s0: Start, new prev: multiset<WorldUpdate>, new u: WorldUpdate, new r: Outcome, player: Player)
      requires StartOk(s0)
      requires old(QueueInv(s0, prev, Pass) && GridInv(s0, prev) && KeysInv(s0, prev))
      requires u in old(queue)
      requires Effects(u, r, player)
      ensures KeysInv(s0, prev + multiset{u})
    {
      TargetsAdd(prev, u);
      assert u in s0.queue;
      if u.eventType.TryOpenDoor? {
        assert u.eventType.doorCoords in DoorCells(s0.queue);
      }
      forall i: nat, j: nat | (i < grid.Length0 && j < grid.Length1
          && (i, j) in KeyCells(prev + multiset{u}) && (i, j) !in DoorCells(s0.queue))
        ensures grid[i, j] == ClearedKeyTile(s0.cells[i][j])
      {
        EditsIdempotent(s0.cells[i][j]);
        if u.eventType.KeyPickup? && u.eventType.link.key == (i, j) {
          assert grid[i, j] == ClearedKeyTile(old(grid[i, j]));
        } else {
          assert (i, j) !in TargetSet(u.eventType);
        }
      }
    }

    /** One drain step keeps DoorInv: the queue picks up no key, so only its
        door event changes the keyring, and it opens the door. */
    twostate lemma DoorStep(new s0: Start, new prev: multiset<WorldUpdate>, new u: WorldUpdate, new r: Outcome, player: Player)
      requires StartOk(s0)
      requires old(QueueInv(s0, prev, Pass) && KeysInv(s0, prev) && DoorInv(s0, prev, Pass, player))
      requires u in old(queue)
      requires Effects(u, r, player)
      ensures DoorInv(s0, prev + multiset{u}, r, player)
    {
      if s0.opening && r.Pass? {
        TargetsAdd(prev, u);
        EditsIdempotent(s0.cells[s0.door.0][s0.door.1]);
        assert u in s0.queue;
        PickedHas(s0.queue, u);
        if u.eventType.TryOpenDoor? {
          assert u.eventType.doorCoords in DoorCells(s0.queue);
        }
      }
    }

    /** One drain step keeps SingleInv: the one event is the one applied. */
    twostate lemma SingleStep(new s0: Start, new prev: multiset<WorldUpdate>, new u: WorldUpdate, new r: Outcome, player: Player)
      requires StartOk(s0)
      requires old(QueueInv(s0, prev, Pass) && PlayerInv(s0, prev, Pass, player))
      requires old(GridInv(s0, prev) && SingleInv(s0, prev, Pass, player))
      requires u in old(queue) && |queue| < |old(queue)|
      requires Effects(u, r, player)
      ensures SingleInv(s0, prev + multiset{u}, r, player)
    {
      if s0.single {
        assert prev == multiset{};
      }
    }

    /** A drain that has processed nothing satisfies its invariants. */
    lemma DrainStart(s0: Start, player: Player)
      requires StartOk(s0)
      requires s0.queue == queue && s0.keyring == player.keyring && s0.position == player.position
      requires s0.newPosition == player.newPosition && s0.previousPosition == player.previousPosition
      requires s0.inventory == player.inventory
      requires forall i, j :: 0 <= i < grid.Length0 && 0 <= j < grid.Length1 ==> s0.cells[i][j] == grid[i, j]
      ensures QueueInv(s0, multiset{}, Pass) && PlayerInv(s0, multiset{}, Pass, player)
      ensures GridInv(s0, multiset{}) && KeysInv(s0, multiset{})
      ensures DoorInv(s0, multiset{}, Pass, player) && SingleInv(s0, multiset{}, Pass, player)
    {
    }

    /** The door a queue opens when it opens only one, in bounds. */
    lemma OnlyDoor(q: multiset<WorldUpdate>, keys: set<KeyDoorLink>) returns (opening: bool, door: WorldCoordinates)
      ensures opening ==> OpensOnly(q, keys, door) && InBounds(door)
      ensures forall d :: OpensOnly(q, keys, d) && InBounds(d) ==> opening && door == d
    {
      if d :| OpensOnly(q, keys, d) && InBounds(d) {
        opening, door := true, d;
        forall e | OpensOnly(q, keys, e) && InBounds(e)
          ensures e == d
        {
          assert e in DoorCells(q);
        }
      } else {
        opening, door := false, (0, 0);
      }
    }

    /** The loop of UpdateWorld: applies events until the queue is empty or
        one panics, keeping the drain's invariants from the start `s0`. */
    method Drain(player: Player, ghost s0: Start) returns (r: Outcome, ghost processed: multiset<WorldUpdate>)
      requires StartOk(s0)
      requires QueueInv(s0, multiset{}, Pass) && PlayerInv(s0, multiset{}, Pass, player)
      requires GridInv(s0, multiset{}) && KeysInv(s0, multiset{})
      requires DoorInv(s0, multiset{}, Pass, player) && SingleInv(s0, multiset{}, Pass, player)
      modifies this, grid, player
      ensures queue == multiset{} || r.Fail?
      ensures QueueInv(s0, processed, r) && PlayerInv(s0, processed, r, player)
      ensures GridInv(s0, processed) && KeysInv(s0, processed)
      ensures DoorInv(s0, processed, r, player) && SingleInv(s0, processed, r, player)
    {
      r := Pass;
      processed := multiset{};
      while queue != multiset{} && r.Pass?
        invariant QueueInv(s0, processed, r) && PlayerInv(s0, processed, r, player)
        invariant GridInv(s0, processed) && KeysInv(s0, processed)
        invariant DoorInv(s0, processed, r, player) && SingleInv(s0, processed, r, player)
        decreases |queue|
      {
        label Before:
        var u;
        u, r := ApplyNext(player);
        QueueStep@Before(s0, processed, u, r, player);
        PlayerStep@Before(s0, processed, u, r, player);
        GridStep@Before(s0, processed, u, r, player);
        KeysStep@Before(s0, processed, u, r, player);
        DoorStep@Before(s0, processed, u, r, player);
        SingleStep@Before(s0, processed, u, r, player);
        processed := processed + multiset{u};
      }
    }

    /** Drains the queue, highest priority first (ties in any order), and
        stops at the first event that panics. */
    method UpdateWorld(player: Player) returns (r: Outcome)
      modifies this, grid, player
      ensures r.Pass? ==> queue == multiset{}
      ensures r.Fail? ==> exists u :: u in old(queue) && Faulty(u.eventType)
      ensures (forall u :: u in old(queue) ==> !Faulty(u.eventType)) ==> r.Pass?
      ensures HasChangeTileState(old(queue)) ==>
        && r == Fail(ChangeTileStateUnimplemented)
        && (forall i, j | 0 <= i < grid.Length0 && 0 <= j < grid.Length1 :: grid[i, j] == old(grid[i, j]))
        && player.position == old(player.position) && player.keyring == old(player.keyring)
      ensures forall i: nat, j: nat | i < grid.Length0 && j < grid.Length1 && (i, j) !in Targets(old(queue)) ::
        grid[i, j] == old(grid[i, j])
      ensures player.newPosition == old(player.newPosition) && player.previousPosition == old(player.previousPosition)
      ensures player.inventory == old(player.inventory)
      ensures player.position == old(player.position) || player.position == player.newPosition
      ensures player.keyring <= old(player.keyring) + PickedLinks(old(queue))
      ensures !HasDoorEvent(old(queue)) ==> player.position == old(player.position)
      ensures r.Pass? && !HasDoorEvent(old(queue)) ==> player.keyring == old(player.keyring) + PickedLinks(old(queue))
      ensures r.Pass? ==> forall i: nat, j: nat | (i < grid.Length0 && j < grid.Length1
                            && (i, j) in KeyCells(old(queue)) && (i, j) !in DoorCells(old(queue))) ::
        grid[i, j] == ClearedKeyTile(old(grid[i, j]))
      ensures forall d: WorldCoordinates | OpensOnly(old(queue), old(player.keyring), d) && InBounds(d) ::
        r.Pass? ==> grid[d.0, d.1] == OpenedDoorTile(old(grid[d.0, d.1])) && player.position == player.newPosition
      ensures forall u :: old(queue) == multiset{u} ==> Applied(u, r, player)
    {
      ghost var processed: multiset<WorldUpdate>;
      ghost var opening, door := OnlyDoor(queue, player.keyring);
      ghost var single, only := OnlyEvent(queue);
      ghost var s0 := Start(queue, Snapshot(grid), player.keyring, player.position, player.newPosition,
                            player.previousPosition, player.inventory, opening, door, single, only);
      DrainStart(s0, player);
      r, processed := Drain(player, s0);
      if r.Pass? {
        SameMembers(processed, old(queue));
      }
      if single {
        AppliedAsFrom(only, r, player, s0.cells);
      }
    }
  }
}
