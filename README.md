# Ferrisyum world core in Dafny

A model of the world-simulation core of Ferrisyum, a small terminal dungeon
game written in Rust, together with proofs about that model. The modelled
parts are:

- **Tiles and their states.** `Tile` is a closed variant: Door, Floor, Key,
  Treasure or Wall. Each variant wraps a properties record holding the
  position, the draw character, an optional treasure payload and an optional
  key-door link. Doors and treasure also carry a two-valued `CommonState`.
- **The map loader.** It turns map text into a grid. Body lines come first.
  The `~K(r,c) = D(r,c)` directive lines that follow link each key to a door.
- **World updates.** These are deferred mutation requests: Idle,
  ChangeTileState, KeyPickup, TryOpenDoor and PickupTreasure. The file also
  holds the comparator the event heap uses.
- **The world controller.** It owns the grid and the event queue, and drains
  the queue against the player.
- **Movement and explicit pickup.**
  - Movement proposes a step, inspects the target tile, and then commits the
    step or blocks it. It may also queue an event.
  - Explicit pickup probes the four orthogonal neighbours for treasure.
- **The players, old and new, and their treasure collections.**
  - The current player keeps a vector-backed inventory whose first item is
    gold.
  - The older player keeps a set/map-backed inventory.

## How the model is laid out

Each Rust source file becomes one Dafny module:

| module | file |
|---|---|
| `Shared` | `shared.dfy`: coordinates, links, fault codes, `Option`, `Result` and `Outcome` |
| `CommonStates` | `common_state.dfy` |
| `TreasureTypes` | `treasure_type.dfy` |
| `TreasureCollectionVec` | `treasure_collection_vec.dfy` |
| `TreasureCollectionMap` | `treasure_collection_map.dfy` |
| `MoveDirections` | `move_direction.dfy` |
| `Tiles` | `tile.dfy` |
| `WorldUpdates` | `world_update.dfy` |
| `WorldMaps` | `world_map.dfy` |
| `WorldControllers` | `world_controller.dfy` |
| `World` | `world.dfy` |
| `Players` | `player.dfy` |
| `LegacyPlayers` | `legacy_player.dfy` |

Modelling choices:

- **Panics.** Every `panic!`, `todo!()`, failed `unwrap` and out-of-range
  grid index in the source becomes an error value.
  - Pure code returns `Result.Err(fault)`. Stateful code returns
    `Outcome.Fail(fault)`.
  - The `Fault` constructor names the cause, for example
    `UnknownTileSymbol(c)`, `KeyWithoutLink(at)` or
    `IndexOutOfBounds(row, col)`.
  - Error cases are not ruled out by preconditions, with one exception.
    `Players.Player.GoldQty` and `Players.Player.AddGold` require the
    player invariant `Valid()`: the inventory's first item is gold. The
    source indexes `items[0]` on the same assumption. The constructor
    establishes the invariant, and every method of the player keeps it.
  - A `\d` capture that is a non-ASCII decimal digit is an exception the
    other way. The source panics on it, and the model skips the line (see
    "## Left out").
- **Tiles are values.** The source mutates a tile through a
  `&mut TileProperties` borrow. The model instead computes the new tile
  (`WithProperties`, `SetPosition`, `LinkDoor`, `ChangeState`) and writes it
  back into the grid cell.
- **Stateful objects are classes.**
  - The grid is an `array2<Tile>`.
  - The controller is a class with the grid and a `multiset` queue.
  - The players are classes whose position, keyring and inventory fields
    the methods update in place.
  - Loops in the source are `for`/`while` loops here. Their loop invariants
    tie each loop to a specification function (`ScanCells`, `ExpectedCell`,
    `Priority`).
- **Queue order.** The queue is a max-heap. `UpdateWorld` pops an event of
  highest *intended* priority, breaking ties arbitrarily:
  - ChangeTileState first;
  - Idle last;
  - the other kinds equal.

  The source's comparator does not give that order (see "## Findings").
- **Stand-ins for what the source does not define.**
  - `within_bounds` is not part of this model. It becomes the parameter
    `withinBounds` of `World.PickupExplicit`.
  - The build profile becomes the `debug` flag of `Tiles.FromCharId`. That
    flag decides whether keys are drawn as `K` or as floor.

## Model

| member | source | states |
|---|---|---|
| CommonStates.ToId | src/shared/common_state.rs:24-26 | the id is a byte; it is 1 exactly for UNLOCKED and 2 exactly for LOCKED |
| CommonStates.ToIdInjective | src/shared/common_state.rs:24-26 | states with equal ids are equal |
| CommonStates.StateCodes | src/shared/common_state.rs:16-19 | UNLOCKED and COLLECTED coincide, LOCKED and UNCOLLECTED coincide, with ids 1 and 2 |
| TreasureTypes.ToId | src/shared/treasure/treasure_type.rs:16-23 | every type maps to an id in 1..4 |
| TreasureTypes.FromId | src/shared/treasure/treasure_type.rs:27-35 | succeeds exactly on 1..4 and then inverts ToId; any other id is the UnknownTreasureId panic |
| TreasureTypes.FromIdOfToId | src/shared/treasure/treasure_type.rs:16-35 | from_id(to_id(t)) == t for every type |
| TreasureTypes.ToIdIsBijection | src/shared/treasure/treasure_type.rs:16-35 | to_id is injective and its image is exactly 1..4 |
| TreasureCollectionVec.DefaultBuilder | src/shared/treasure/treasure_collection.rs:51-56 | the derived default builder is Uninst, with no items and no coordinates |
| TreasureCollectionVec.New | src/shared/treasure/treasure_collection.rs:69-75 | a fresh builder of the given variant has no items and no coordinates, so only a chest can ever carry coordinates |
| TreasureCollectionVec.Items | src/shared/treasure/treasure_collection.rs:90-107 | Uninst panics; otherwise each (id, qty) pair is appended in order as (from_id(id), qty); the first unknown id panics; the existing items, variant and coordinates are kept, so a builder whose coordinates are only on a chest stays that way |
| TreasureCollectionVec.Coords | src/shared/treasure/treasure_collection.rs:122-133 | only a chest accepts coordinates, which then become Some(coords); any other variant panics; the result still has coordinates only on a chest |
| TreasureCollectionVec.Build | src/shared/treasure/treasure_collection.rs:148-154 | the collection holds exactly the builder's variant, items and coordinates |

| TreasureCollectionMap.ToId | src/shared/treasure_collection.rs:135-144 | this file's own treasure types map to ids in 1..4 |
| TreasureCollectionMap.ToIdInjective | src/shared/treasure_collection.rs:135-144 | types with equal ids are equal |
| TreasureCollectionMap.FromTreasureType | src/shared/treasure_collection.rs:20-25 | a unique item carries the type's id and the given quantity |
| TreasureCollectionMap.DefaultBuilder | src/shared/treasure_collection.rs:56-62 | the derived default builder is Uninst, with no unique items, an empty map and no coordinates |
| TreasureCollectionMap.New | src/shared/treasure_collection.rs:65-72 | a fresh builder of the given variant is otherwise empty |
| TreasureCollectionMap.MapFromPairs | src/shared/treasure_collection.rs:92 | the map from collecting the pairs has at most one entry per pair |
| TreasureCollectionMap.MapFromPairsKeys | src/shared/treasure_collection.rs:92 | the keys are exactly the ids of the pairs |
| TreasureCollectionMap.MapFromPairsLastWins | src/shared/treasure_collection.rs:92 | an id maps to the quantity of its last pair |
| TreasureCollectionMap.UniqueItems | src/shared/treasure_collection.rs:74-86 | Uninst panics; otherwise the unique-item set becomes exactly the set of the given items (no larger than the list) and the other fields are kept |
| TreasureCollectionMap.Items | src/shared/treasure_collection.rs:88-100 | Uninst panics; otherwise the map is replaced by the pairs' map and the other fields are kept |
| TreasureCollectionMap.Coords | src/shared/treasure_collection.rs:102-113 | only a chest accepts coordinates; any other variant panics |
| TreasureCollectionMap.Build | src/shared/treasure_collection.rs:115-122 | the collection holds exactly the builder's fields |
| MoveDirections.Translate | src/shared/move_direction.rs:29-42 | the matrix keeps points in the z = 1 plane and moves (x, y, 1) by (tx, ty), each being the delta scaled by the speed when there is one |
| MoveDirections.UnitSteps | src/shared/move_direction.rs:24-27 | UP, DOWN, LEFT and RIGHT each move one step along one axis |
| MoveDirections.TranslateCompose | src/shared/move_direction.rs:29-42 | two translations compose by adding their offsets |
| MoveDirections.OppositesCancel | src/shared/move_direction.rs:24-42 | UP then DOWN, DOWN then UP, LEFT then RIGHT and RIGHT then LEFT give back the starting point |
| Tiles.DefaultProperties | src/shared/tile.rs:232-242 | default properties: position (0, 0), draw '?', no treasure, no link |
| Tiles.DefaultTile | src/shared/tile.rs:38-40 | the default tile is a floor with default properties |
| Tiles.Properties | src/shared/tile.rs:62-70 | the record read is exactly the one the tile's variant wraps, whatever the variant |
| Tiles.WithProperties | src/shared/tile.rs:49-57 | writing through the properties borrow keeps the variant and the state and installs the new record |
| Tiles.PropertiesLens | src/shared/tile.rs:49-70 | writing back what was read changes nothing, and the last write wins |
| Tiles.ChangeState | src/shared/tile.rs:76-82 | doors and treasure take the new state; other variants are unchanged; properties are never touched |
| Tiles.GetState | src/shared/tile.rs:89-96 | there is a state exactly for doors and treasure |
| Tiles.Row | src/shared/tile.rs:104-106 | the row is the one kept in the properties record, and changing the tile's state does not change it |
| Tiles.Col | src/shared/tile.rs:109-111 | the column is the one kept in the properties record, and changing the tile's state does not change it |
| Tiles.PositionFromProperties | src/shared/tile.rs:104-111 | row and col read the properties record and nothing else |
| Tiles.SetPosition | src/shared/tile.rs:214-217 | row, col and world coordinates become the given coordinates; the other fields are kept |
| Tiles.LinkDoor | src/shared/tile.rs:225-227 | the link becomes Some(link); the other fields are kept |
| Tiles.FromCharId | src/shared/tile.rs:131-177 | decoding succeeds exactly on the seven map symbols and panics on anything else; a decoded tile has default properties apart from its draw character |
| Tiles.SymbolRoundTrip | src/shared/tile.rs:131-189 | drawing a decoded tile gives its symbol back, except a key outside debug builds, which is drawn as '.' |
| Tiles.SymbolVariants | src/shared/tile.rs:131-177 | which variant and which state each symbol decodes to |
| Tiles.ToCharId | src/shared/tile.rs:187-189 | the drawing character is the one kept in the properties record; changing the state does not redraw a tile, so an unlocked door keeps its '\|' |
| WorldUpdates.New | src/world/world_update.rs:34-38 | wraps the event type unchanged |
| WorldUpdates.WithNoPayload | src/world/world_update.rs:41-45 | builds the same update as New |
| WorldUpdates.Cmp | src/world/world_update.rs:52-58 | as written: ChangeTileState on the left is Greater, otherwise Idle on the right is Less, otherwise Equal |
| WorldUpdates.PartialCmp | src/world/world_update.rs:64-66 | partial_cmp always agrees with cmp |
| WorldUpdates.CmpDependsOnlyOnTags | src/world/world_update.rs:52-58 | the comparison ignores payloads |
| WorldUpdates.CmpIsNotAnOrder | src/world/world_update.rs:52-58 | as written, Idle vs Idle is Less, ChangeTileState vs itself is Greater, KeyPickup vs Idle is Less while Idle vs KeyPickup is Equal, so cmp violates the Ord contract |
| WorldUpdates.CmpRanksIdleAboveKeyPickup | src/world/world_update.rs:52-58 | as written, a max-heap ranks Idle above KeyPickup, against the intended priority |
| WorldUpdates.Priority | src/world/world_update.rs:14-20 | intended priority: ChangeTileState alone is highest, Idle alone is lowest |
| WorldUpdates.CmpByPriority | src/world/world_update.rs:52-58 | the corrected comparator is Equal or Greater exactly as the priorities are equal or larger |
| WorldUpdates.CmpByPriorityIsOrder | src/world/world_update.rs:52-58 | the corrected comparator is a total preorder that ranks ChangeTileState strictly first, Idle strictly last and the rest equal |
| WorldUpdates.HighestExists | src/world/world_controller.rs:170 | a non-empty queue always has an event of highest priority to pop |
| WorldMaps.NewlineIndex | src/world/world_map.rs:59 | the index of the first line break, or the length if there is none |
| WorldMaps.Lines | src/world/world_map.rs:59 | str::lines: no resulting line contains a line break |
| WorldMaps.LinesOfUnlines | src/world/world_map.rs:59 | joining break-free, CR-free lines with '\n' and splitting them again gives the lines back |
| WorldMaps.ExtractMapLines | src/world/world_map.rs:57-63 | the body is the longest prefix of lines not starting with '~' |
| WorldMaps.DirectiveLines | src/world/world_map.rs:70-72 | the directives are the lines from the first '~' line on |
| WorldMaps.BodyThenDirectives | src/world/world_map.rs:57-72 | body and directives split the lines, and the directives, if any, start with a '~' line |
| WorldMaps.DigitRun | src/world/world_map.rs:68 | the longest prefix of ASCII digits |
| WorldMaps.Literal | src/world/world_map.rs:68 | a literal prefix match returns exactly the remainder |
| WorldMaps.Number | src/world/world_map.rs:68 | a `\d+` capture is a non-empty maximal run of digits |
| WorldMaps.MatchLinkLine | src/world/world_map.rs:68 | a match yields four digit captures that rebuild the whole line (the anchors are respected) |
| WorldMaps.MatchLinkLineComplete | src/world/world_map.rs:68 | every line of the form ~K(a,b) = D(c,d) with digit runs a, b, c, d matches with exactly those captures |
| WorldMaps.DecimalRoundTrip | src/world/world_map.rs:75-76 | parse() of the shortest decimal rendering of n gives back n |
| WorldMaps.LinkOf | src/world/world_map.rs:74-77 | a capture whose numbers do not fit a usize is the unwrap panic; otherwise the link holds the four parsed numbers |
| WorldMaps.LinksFrom | src/world/world_map.rs:70-79 | filter_map keeps at most one link per directive line, and its only failure is the unwrap panic on a number too large for usize |
| WorldMaps.LinksFromFails | src/world/world_map.rs:74-77 | parsing the directives panics exactly when some matching line has a number too large for usize |
| WorldMaps.FormatLinkParses | src/world/world_map.rs:68-79 | a directive written for a link parses back to exactly that link |
| WorldMaps.LinksFromSingle | src/world/world_map.rs:70-79 | a single matching, non-overflowing line yields exactly its link |
| WorldMaps.LinksFromSkipped | src/world/world_map.rs:73-78 | a line the regex does not match yields no link and no panic |
| WorldMaps.LinksFromAppend | src/world/world_map.rs:70-79 | parsing two runs of lines one after the other is parsing each: the links are the first run's followed by the second's, in line order, and it panics exactly when either run panics |
| WorldMaps.ParseKeyDoorLinks | src/world/world_map.rs:66-79 | the links are parsed from the lines after the body, and parsing panics exactly when one of those lines matches with a number too large for usize |
| WorldMaps.FirstLinkFor | src/world/world_map.rs:39 | find returns None exactly when no link has the key, and otherwise the first link whose key matches |
| WorldMaps.CellTile | src/world/world_map.rs:31-45 | a body character loads exactly when it is a tile symbol and, for a key, some link names its position (the loaded tile itself is described by LoadedCell) |
| WorldMaps.LoadedCell | src/world/world_map.rs:29-49 | a loaded cell sits at its own position, keeps its symbol's variant, state and drawing, has no treasure, and has a link exactly when it is a key (then the first link for its position) |
| WorldMaps.OnlyKeysLinked | src/world/world_map.rs:24-49 | only keys carry links after loading; grid cells the body does not reach keep the default tile |
| WorldMaps.BodyLoadsIff | src/world/world_map.rs:31-45 | the body loads exactly when every character is a tile symbol and every key has a link |
| WorldMaps.FromText | src/world/world_map.rs:19-54 | loading succeeds exactly when the directives parse and the body loads; the grid is new, has as many rows as body lines and twice the first line's length as columns, and every cell is the expected tile |
| WorldMaps.LoadRow | src/world/world_map.rs:30-50 | one body line loads exactly when all its characters load; its cells inside the grid then hold their expected tiles; other rows are untouched |
| WorldControllers.ClearedKeyTile | src/world/world_controller.rs:188-192 | a picked-up key keeps its variant, state, position and treasure, has no link and is drawn as '.' |
| WorldControllers.OpenedDoorTile | src/world/world_controller.rs:219-221 | an opened door keeps its variant, position and treasure, has no link, is drawn as '\' and is UNLOCKED |
| WorldControllers.EditsIdempotent | src/world/world_controller.rs:188-221 | clearing a key twice, or opening a door twice, is the same as doing it once |
| WorldControllers.OpenedDoorIsUnlockedDoor | src/world/world_controller.rs:219-221 | opening a door loaded from '\|' gives exactly the tile that loading '\\' gives |
| WorldControllers.WorldController.constructor | src/world/world_controller.rs:56-68 | the controller holds the given grid and an empty queue |
| WorldControllers.WorldController.QueueUpdate | src/world/world_controller.rs:160-162 | the queue gains exactly the pushed event |
| WorldControllers.WorldController.ApplyUpdate | src/world/world_controller.rs:171-224 | Idle and PickupTreasure do nothing; ChangeTileState panics; KeyPickup adds the link to the keyring and clears the key tile, or panics out of bounds; TryOpenDoor without a matching link does nothing, and with one removes exactly one such link, opens the door and commits the player's move, or panics out of bounds. Around that: only the targeted cell changes, a failure comes only from a faulty event, the proposed and previous positions and the inventory never change, and the position moves (to the proposed one) only on a door event |
| WorldControllers.WorldController.ApplyNext | src/world/world_controller.rs:170-224 | pops one event of highest priority, which is a ChangeTileState whenever the queue holds one, shrinks the queue by it, and has on grid and player exactly the effects ApplyUpdate states for that event |
| WorldControllers.WorldController.UpdateWorld | src/world/world_controller.rs:169-227 | drains the queue: a pass empties it; a failure is caused by a faulty queued event; a queue with a ChangeTileState fails before changing anything; only targeted cells change; the keyring grows by at most the picked links, and by exactly those when there is no door event and the drain passes; the position is the old one or the proposed one; on a pass every picked key that is not also a door target is cleared; when the queue's only events are door attempts at one in-bounds door that the keyring opens, a pass opens that door and moves the player onto the proposed position; a one-event queue has exactly the effect of ApplyUpdate on that event |
| WorldControllers.WorldController.Drain | src/world/world_controller.rs:170-226 | the pop-and-apply loop stops with an empty queue or a failure, and keeps the facts UpdateWorld promises about the events applied so far: the queue left is the rest of the start queue, the player facts, the cells outside the targets, the cleared keys, the opened door, and a single event's exact effect |
| World.ResolveMove | src/world/mod.rs:56-87 | floor, key and unlocked door commit the move; a key with a link queues its KeyPickup; a locked door queues TryOpenDoor for its coordinates and blocks; everything else blocks silently |
| World.ClearedKeyIsFloorLike | src/world/mod.rs:64-71 | a key whose link has been picked up resolves like floor |
| World.OpenedDoorIsPassable | src/world/mod.rs:76-84 | an opened door commits the move and queues nothing |
| World.BlockingTiles | src/world/mod.rs:82-86 | walls, treasure, and doors in any other state block without an event |
| World.Translate | src/world/mod.rs:45-88 | the player's previous position becomes the current one and the proposed position the translated one; off the grid it panics; otherwise the position and the queue follow ResolveMove of the target tile; the grid is never written |
| World.Adjacents | src/world/mod.rs:112-117 | exactly the four cells (row-1, col), (row+1, col), (row, col-1), (row, col+1) in that order: pairwise distinct, each at distance one |
| World.AdjacentsAreUnitDistance | src/world/mod.rs:112-117 | a cell is among the neighbours exactly when it is at Euclidean distance one from the position |
| World.ScanCells | src/world/mod.rs:120-130 | scanning yields at most one event per cell |
| World.ScanSound | src/world/mod.rs:120-130 | every queued pickup is for a scanned, admitted cell that holds treasure |
| World.ScanComplete | src/world/mod.rs:120-130 | a scan that passes queues a pickup for every admitted cell holding treasure, and every admitted cell lies in the grid |
| World.ScanFault | src/world/mod.rs:121-122 | a scan fails only at an admitted cell outside the grid, with that cell's index error |
| World.ScanStopsAtFault | src/world/mod.rs:120-130 | once a scan has failed, later cells change neither its events nor its outcome |
| World.PickupExplicit | src/world/mod.rs:104-131 | the queue gains exactly the scan's events of the four neighbours, the outcome is the scan's, and the grid is never written |
| Players.Player.constructor | src/player.rs:42-56 | current, proposed and previous positions are all the given one; the keyring is empty; the inventory is [(Gold, 0)], so gold is 0 |
| Players.Player.GoldQty | src/player.rs:60-62 | the gold quantity is the quantity of the inventory's first item, which is gold |
| Players.Player.AddGold | src/player.rs:66-68 | gold rises by exactly the amount; the other items, positions and keyring are unchanged |
| Players.Player.Translate | src/player.rs:92-96 | previous := current, proposed := translated current, current unchanged, so the proposed row and col move by (ty, tx) |
| Players.Player.TranslateInto | src/player.rs:98-100 | current := proposed, and nothing else changes, so repeating it changes nothing |
| Players.Player.Row | src/player.rs:73-75 | the row is the y coordinate of the current position |
| Players.Player.Col | src/player.rs:77-79 | the column is the x coordinate of the current position |
| Players.Player.NewCol | src/player.rs:84-86 | the proposed column is the x coordinate of the proposed position |
| Players.Player.NewRow | src/player.rs:88-90 | the proposed row is the y coordinate of the proposed position |
| Players.Player.ToCharId | src/player.rs:105-107 | the drawing character is the one fixed at construction |
| LegacyPlayers.Player.constructor | src/player/mod.rs:34-49 | all three positions are the given one; the keyring is empty; the inventory's unique items are {(Gold id, 0)} |
| LegacyPlayers.Player.Translate | src/player/mod.rs:71-75 | previous := current, proposed := translated current, current unchanged |
| LegacyPlayers.Player.TranslateInto | src/player/mod.rs:77-79 | current := proposed; nothing else changes |
| LegacyPlayers.Player.Row | src/player/mod.rs:53-55 | the row is the y coordinate of the current position |
| LegacyPlayers.Player.Col | src/player/mod.rs:57-59 | the column is the x coordinate of the current position |
| LegacyPlayers.Player.NewCol | src/player/mod.rs:63-65 | the proposed column is the x coordinate of the proposed position |
| LegacyPlayers.Player.NewRow | src/player/mod.rs:67-69 | the proposed row is the y coordinate of the proposed position |
| LegacyPlayers.Player.ToCharId | src/player/mod.rs:83-85 | the drawing character is the one fixed at construction |

## Left out

- Machine integers are unbounded here.
  - `usize` grid coordinates, `i64` positions and `u64` quantities are all
    mathematical integers.
  - Players.Player.AddGold: does not model the `u64` overflow of `+=`, which
    panics in debug builds and wraps in release builds.
  - World.PickupExplicit: the `wrapping_sub` and `wrapping_add` on `usize`
    followed by the cast to `isize` become plain `row - 1`, `row + 1`,
    `col - 1` and `col + 1`. They differ only at the extremes of the 64-bit
    range.
  - Players.Player.Translate: the `i64` multiplications in the matrix
    product do not wrap.
  - Players.Player.Row, Players.Player.Col, Players.Player.NewRow and
    Players.Player.NewCol return the `i64` coordinate itself. The source
    casts it to `usize`, which turns a negative value into a huge one. The
    same holds for the LegacyPlayers.Player accessors.
- Negative coordinates: a negative proposed row or column becomes a huge
  `usize` in the source, so it always indexes outside the grid. The model
  reports it as `IndexOutOfBounds` with the negative value.
- `within_bounds` is not part of this model and is a parameter of
  World.PickupExplicit.
  - If it admits a cell the grid does not hold, the grid index panics, and
    the model reports `IndexOutOfBounds`.
  - An inclusive upper bound would be one such case.
- WorldControllers.WorldController.UpdateWorld: the heap's tie-break among
  equal-priority events is not modelled. Any event of highest priority may
  be popped.
- PickupTreasure has no arm in `update_world`. Applying it has no effect
  here.
- WorldController::new reads the map from a file. The constructor instead
  takes the loaded grid. WorldMaps.FromText takes the decoded text, and
  `from_utf8_lossy` is not modelled.
- `\d` in the directive regex matches every Unicode decimal digit. The model
  accepts ASCII digits only.
  - WorldMaps.LinksFrom: a directive line whose captures hold a non-ASCII
    decimal digit matches in the source, and then `parse()` fails and the
    `unwrap` panics. The model does not match such a line, so it skips it
    and reports no panic.
- Column indices: the loader's `char_indices` gives byte offsets, and
  `len()` counts bytes.
  - On every successful load all characters are ASCII tile symbols, so byte
    offsets and character offsets agree.
  - A non-ASCII character is reported as an unknown symbol, as the source
    reports it.
- Zero-size grids: the `grid` crate turns a grid with zero rows or zero
  columns into an empty 0 x 0 grid. The model keeps the given dimensions,
  and such a grid has no cells either way.
- WorldMaps.FromText: the `debug` flag stands for `cfg!(debug_assertions)`.
- `generate_map`, the rendering widget, `main` and the terminal loop are
  display and I/O code. They are not modelled.
- The `Moveable` and `Positionable` traits are not modelled separately.
  `World.Translate` takes the concrete current player, and
  `World.PickupExplicit` reads only its row and column.
- LegacyPlayers.Player: the older player has no gold accessors in the
  source, so none are modelled.

## Findings

| source | as written | input that shows it | evidently intended | confidence | as-written member | corrected member |
|---|---|---|---|---|---|---|
| src/world/world_update.rs:52-58 | `cmp` maps (anything but ChangeTileState, Idle) to Less, and it is not reflexive (Idle vs Idle is Less, ChangeTileState vs ChangeTileState is Greater) | push an Idle and then a KeyPickup onto an empty heap: sift-up compares the KeyPickup with the Idle at the root, finds it Less and stops, so `pop` returns the Idle first (pushed the other way round, the Idle compares Equal to the KeyPickup and the KeyPickup stays first) | ChangeTileState strictly highest, Idle strictly lowest, the others equal, as a total preorder | not executed | WorldUpdates.CmpIsNotAnOrder | WorldUpdates.CmpByPriorityIsOrder |
