// Grid cells: a closed set of variants, each wrapping a properties record;
// doors and treasure also carry a CommonState.

module Tiles {
  import opened Shared
  import opened CommonStates
  import TreasureCollectionVec

  datatype TileProperties = TileProperties(
    row: nat,
    col: nat,
    worldCoordinates: WorldCoordinates,
    drawCharacter: char,
    treasure: Option<TreasureCollectionVec.TreasureCollection>,
    kdl: Option<KeyDoorLink>)

  datatype Tile =
    | Door(doorProps: TileProperties, doorState: CommonState)
    | Floor(floorProps: TileProperties)
    | Key(keyProps: TileProperties)
    | Treasure(treasureProps: TileProperties, treasureState: CommonState)
    | Wall(wallProps: TileProperties)

  /** The variant tag of a tile, without its data. */
  predicate SameVariant(t: Tile, u: Tile) {
    (t.Door? && u.Door?) || (t.Floor? && u.Floor?) || (t.Key? && u.Key?)
    || (t.Treasure? && u.Treasure?) || (t.Wall? && u.Wall?)
  }

  function DefaultProperties(): (p: TileProperties)
    ensures p.row == 0 && p.col == 0 && p.worldCoordinates == (0, 0)
    ensures p.drawCharacter == '?' && p.treasure == None && p.kdl == None
  {
    TileProperties(0, 0, (0, 0), '?', None, None)
  }

  /** The default tile: a floor with default properties. */
  function DefaultTile(): (t: Tile)
    ensures t.Floor? && Properties(t) == DefaultProperties()
  {
    Floor(DefaultProperties())
  }

  /** The wrapped properties record, whatever the variant. */
  function Properties(t: Tile): (p: TileProperties)
    ensures t.Door? ==> t == Door(p, t.doorState)
    ensures t.Treasure? ==> t == Treasure(p, t.treasureState)
    ensures t.Floor? ==> t == Floor(p)
    ensures t.Key? ==> t == Key(p)
    ensures t.Wall? ==> t == Wall(p)
  {
    match t
    case Door(p, _) => p
    case Floor(p) => p
    case Key(p) => p
    case Wall(p) => p
    case Treasure(p, _) => p
  }

  /** The tile after writing `p` through the mutable properties reference. */
  function WithProperties(t: Tile, p: TileProperties): (r: Tile)
    ensures SameVariant(r, t) && Properties(r) == p && GetState(r) == GetState(t)
  {
    match t
    case Door(_, s) => Door(p, s)
    case Floor(_) => Floor(p)
    case Key(_) => Key(p)
    case Wall(_) => Wall(p)
    case Treasure(_, s) => Treasure(p, s)
  }

  /** Writing back what was read changes nothing, and the last write wins. */
  lemma PropertiesLens(t: Tile, p: TileProperties, q: TileProperties)
    ensures WithProperties(t, Properties(t)) == t
    ensures WithProperties(WithProperties(t, p), q) == WithProperties(t, q)
  {
  }

  /** Sets the state of a door or a treasure; a no-op for the other variants. */
  function ChangeState(t: Tile, newState: CommonState): (r: Tile)
    ensures SameVariant(r, t) && Properties(r) == Properties(t)
    ensures (t.Door? || t.Treasure?) ==> GetState(r) == Some(newState)
    ensures !(t.Door? || t.Treasure?) ==> r == t
  {
    match t
    case Door(p, _) => Door(p, newState)
    case Treasure(p, _) => Treasure(p, newState)
    case _ => t
  }

  /** Only doors and treasure have a state. */
  function GetState(t: Tile): (r: Option<CommonState>)
    ensures r.Some? <==> (t.Door? || t.Treasure?)
  {
    match t
    case Door(_, s) => Some(s)
    case Treasure(_, s) => Some(s)
    case Floor(_) => None
    case Key(_) => None
    case Wall(_) => None
  }

  /** The row kept in the properties record; a change of state does not move the tile. */
  function Row(t: Tile): (r: nat)
    ensures r == Properties(t).row
    ensures forall s :: Properties(ChangeState(t, s)).row == r
  {
    Properties(t).row
  }

  /** The column kept in the properties record; a change of state does not move the tile. */
  function Col(t: Tile): (c: nat)
    ensures c == Properties(t).col
    ensures forall s :: Properties(ChangeState(t, s)).col == c
  {
    Properties(t).col
  }

  /** The positional accessors read the properties record, and only it. */
  lemma PositionFromProperties(t: Tile, p: TileProperties)
    ensures Row(WithProperties(t, p)) == p.row && Col(WithProperties(t, p)) == p.col
    ensures Row(ChangeState(t, UNLOCKED)) == Row(t) && Col(ChangeState(t, LOCKED)) == Col(t)
  {
  }

  /** Moves the record to `coords`; nothing else changes. */
  function SetPosition(p: TileProperties, coords: WorldCoordinates): (r: TileProperties)
    ensures r.row == coords.0 && r.col == coords.1 && r.worldCoordinates == coords
    ensures r.drawCharacter == p.drawCharacter && r.treasure == p.treasure && r.kdl == p.kdl
  {
    p.(row := coords.0, col := coords.1, worldCoordinates := coords)
  }

  /** Attaches a key-door link; nothing else changes. */
  function LinkDoor(p: TileProperties, link: KeyDoorLink): (r: TileProperties)
    ensures r.kdl == Some(link) && r == p.(kdl := Some(link))
  {
    p.(kdl := Some(link))
  }

  /** The symbols of the map format. */
  predicate IsTileSymbol(c: char) {
    c in {'|', '\\', '.', 'K', 'D', '0', '#'}
  }

  /** The tile a map symbol stands for. A key is drawn as 'K' only in debug
      builds, and as floor otherwise; any other character is the source's panic. */
  function FromCharId(c: char, debug: bool): (r: Result<Tile>)
    ensures r.Ok? <==> IsTileSymbol(c)
    ensures r.Err? ==> r.fault == UnknownTileSymbol(c)
    ensures r.Ok? ==> Properties(r.value) == DefaultProperties().(drawCharacter := ToCharId(r.value))
  {
    match c
    case '|' => Ok(Door(DefaultProperties().(drawCharacter := '|'), LOCKED))
    case '\\' => Ok(Door(DefaultProperties().(drawCharacter := '\\'), UNLOCKED))
    case '.' => Ok(Floor(DefaultProperties().(drawCharacter := '.')))
    case 'K' => Ok(Key(DefaultProperties().(drawCharacter := if debug then 'K' else '.')))
    case 'D' => Ok(Treasure(DefaultProperties().(drawCharacter := 'D'), UNCOLLECTED))
    case '0' => Ok(Treasure(DefaultProperties().(drawCharacter := '0'), COLLECTED))
    case '#' => Ok(Wall(DefaultProperties().(drawCharacter := '#')))
    case _ => Err(UnknownTileSymbol(c))
  }

  /** The drawing character kept in the properties record. A change of state
      does not redraw the tile: an unlocked door keeps the character it had. */
  function ToCharId(t: Tile): (c: char)
    ensures c == Properties(t).drawCharacter
    ensures forall s :: Properties(ChangeState(t, s)).drawCharacter == c
  {
    Properties(t).drawCharacter
  }

  /** Decoding a symbol and drawing the tile gives the symbol back, except a
      key outside debug builds. */
  lemma SymbolRoundTrip(c: char, debug: bool)
    requires IsTileSymbol(c)
    ensures FromCharId(c, debug).Ok?
    ensures c != 'K' ==> ToCharId(FromCharId(c, debug).value) == c
    ensures c == 'K' ==> ToCharId(FromCharId(c, debug).value) == (if debug then 'K' else '.')
  {
  }

  /** Which variant and which state each symbol decodes to. */
  lemma SymbolVariants(c: char, debug: bool)
    requires IsTileSymbol(c)
    ensures var t := FromCharId(c, debug).value;
      && (t.Door? <==> c == '|' || c == '\\')
      && (t.Treasure? <==> c == 'D' || c == '0')
      && (t.Floor? <==> c == '.')
      && (t.Key? <==> c == 'K')
      && (t.Wall? <==> c == '#')
      && (GetState(t) == Some(LOCKED) <==> c == '|' || c == 'D')
      && (GetState(t) == Some(UNLOCKED) <==> c == '\\' || c == '0')
  {
  }
}
