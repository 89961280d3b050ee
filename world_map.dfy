// Loading a map from its text: body lines become the grid, the `~` directive
// lines supply key-door links, and every key tile is bound to its link.

module WorldMaps {
  import opened Shared
  import opened Tiles

  // ---------------------------------------------------------------------------
  // Lines

  /** Index of the first newline, or |s| when there is none. */
  function NewlineIndex(s: string): (i: nat)
    ensures i <= |s| && (i < |s| ==> s[i] == '\n')
    ensures forall k :: 0 <= k < i ==> s[k] != '\n'
  {
    if s == [] || s[0] == '\n' then 0 else 1 + NewlineIndex(s[1..])
  }

  /** Drops one carriage return that ended a line before its newline. */
  function StripCR(l: string): string {
    if |l| > 0 && l[|l| - 1] == '\r' then l[..|l| - 1] else l
  }

  /** The text's lines: split at "\n" (a "\r" just before it is dropped too),
      and a final line ending adds no empty line. */
  function Lines(text: string): (ls: seq<string>)
    ensures forall k :: 0 <= k < |ls| ==> '\n' !in ls[k]
    decreases |text|
  {
    if text == [] then []
    else
      var i := NewlineIndex(text);
      if i == |text| then [text] else [StripCR(text[..i])] + Lines(text[i + 1..])
  }

  /** Joins lines, ending each with a newline. */
  function Unlines(ls: seq<string>): string {
    if ls == [] then [] else ls[0] + "\n" + Unlines(ls[1..])
  }

  /** Splitting joined lines gives the lines back, as long as no line holds
      a newline or ends with a carriage return. */
  lemma {:induction false} LinesOfUnlines(ls: seq<string>)
    requires forall k :: 0 <= k < |ls| ==> '\n' !in ls[k] && (|ls[k]| == 0 || ls[k][|ls[k]| - 1] != '\r')
    ensures Lines(Unlines(ls)) == ls
  {
    if ls != [] {
      var l, rest := ls[0], Unlines(ls[1..]);
      var text := l + "\n" + rest;
      assert Unlines(ls) == text;
      NewlineIndexOf(l, rest);
      assert text[..|l|] == l;
      assert text[|l| + 1..] == rest;
      LinesOfUnlines(ls[1..]);
    }
  }

  lemma {:induction false} NewlineIndexOf(l: string, rest: string)
    requires '\n' !in l
    ensures NewlineIndex(l + "\n" + rest) == |l|
  {
    if l != [] {
      assert (l + "\n" + rest)[1..] == l[1..] + "\n" + rest;
      NewlineIndexOf(l[1..], rest);
    }
  }

  // ---------------------------------------------------------------------------
  // Body and directive lines

  predicate StartsWithTilde(l: string) {
    |l| > 0 && l[0] == '~'
  }

  /** The body: the longest prefix of lines none of which starts with '~'. */
  function ExtractMapLines(lines: seq<string>): (body: seq<string>)
    ensures |body| <= |lines| && body == lines[..|body|]
    ensures forall k :: 0 <= k < |body| ==> !StartsWithTilde(body[k])
    ensures |body| < |lines| ==> StartsWithTilde(lines[|body|])
  {
    if lines == [] || StartsWithTilde(lines[0]) then [] else [lines[0]] + ExtractMapLines(lines[1..])
  }

  /** The lines from the first '~' line on (skip-while). */
  function DirectiveLines(lines: seq<string>): (ds: seq<string>)
    ensures ds == lines[|ExtractMapLines(lines)|..]
  {
    if lines == [] || StartsWithTilde(lines[0]) then lines else DirectiveLines(lines[1..])
  }

  /** Body and directives split the lines with nothing lost or repeated. */
  lemma BodyThenDirectives(lines: seq<string>)
    ensures lines == ExtractMapLines(lines) + DirectiveLines(lines)
    ensures DirectiveLines(lines) != [] ==> StartsWithTilde(DirectiveLines(lines)[0])
  {
  }

  // ---------------------------------------------------------------------------
  // The link directive grammar: ~K(<digits>,<digits>) = D(<digits>,<digits>)

  predicate IsDigit(c: char) { '0' <= c <= '9' }

  predicate AllDigits(s: string) {
    forall k :: 0 <= k < |s| ==> IsDigit(s[k])
  }

  /** Length of the leading run of digits. */
  function DigitRun(s: string): (n: nat)
    ensures n <= |s| && AllDigits(s[..n]) && (n < |s| ==> !IsDigit(s[n]))
  {
    if s == [] || !IsDigit(s[0]) then 0 else 1 + DigitRun(s[1..])
  }

  /** The rest of `s` after the literal `lit`, if `s` starts with it. */
  function Literal(s: string, lit: string): (r: Option<string>)
    ensures r.Some? <==> |lit| <= |s| && s[..|lit|] == lit
    ensures r.Some? ==> s == lit + r.value
  {
    if |lit| <= |s| && s[..|lit|] == lit then Some(s[|lit|..]) else None
  }

  /** A maximal non-empty run of digits and what follows it. */
  function Number(s: string): (r: Option<(string, string)>)
    ensures r.Some? ==> s == r.value.0 + r.value.1 && |r.value.0| > 0 && AllDigits(r.value.0)
    ensures r.Some? ==> r.value.1 == [] || !IsDigit(r.value.1[0])
  {
    var n := DigitRun(s);
    if n == 0 then None else Some((s[..n], s[n..]))
  }

  /** The four digit strings a link directive captures. */
  datatype LinkCaptures = LinkCaptures(keyRow: string, keyCol: string, doorRow: string, doorCol: string)

  predicate WellFormed(c: LinkCaptures) {
    && |c.keyRow| > 0 && AllDigits(c.keyRow)
    && |c.keyCol| > 0 && AllDigits(c.keyCol)
    && |c.doorRow| > 0 && AllDigits(c.doorRow)
    && |c.doorCol| > 0 && AllDigits(c.doorCol)
  }

  /** The directive line that has exactly these captures. */
  function Assemble(c: LinkCaptures): string {
    "~K(" + (c.keyRow + ("," + (c.keyCol + (") = D(" + (c.doorRow + ("," + (c.doorCol + ")")))))))
  }

  /** Matches a whole line against the link grammar. */
  function MatchLinkLine(l: string): (m: Option<LinkCaptures>)
    ensures m.Some? ==> WellFormed(m.value) && l == Assemble(m.value)
  {
    var s1 :- Literal(l, "~K(");
    var n1 :- Number(s1);
    var s2 :- Literal(n1.1, ",");
    var n2 :- Number(s2);
    var s3 :- Literal(n2.1, ") = D(");
    var n3 :- Number(s3);
    var s4 :- Literal(n3.1, ",");
    var n4 :- Number(s4);
    if n4.1 == ")" then Some(LinkCaptures(n1.0, n2.0, n3.0, n4.0)) else None
  }

  lemma {:induction false} DigitRunOf(d: string, rest: string)
    requires AllDigits(d) && (rest == [] || !IsDigit(rest[0]))
    ensures DigitRun(d + rest) == |d|
  {
    if d != [] {
      assert (d + rest)[1..] == d[1..] + rest;
      DigitRunOf(d[1..], rest);
    }
  }

  lemma NumberOf(d: string, rest: string)
    requires |d| > 0 && AllDigits(d) && (rest == [] || !IsDigit(rest[0]))
    ensures Number(d + rest) == Some((d, rest))
  {
    DigitRunOf(d, rest);
    assert (d + rest)[..|d|] == d;
    assert (d + rest)[|d|..] == rest;
  }

  lemma LiteralOf(lit: string, rest: string)
    ensures Literal(lit + rest, lit) == Some(rest)
  {
    assert (lit + rest)[..|lit|] == lit;
    assert (lit + rest)[|lit|..] == rest;
  }

  /** Every line of the grammar's form matches, with exactly its captures:
      together with MatchLinkLine's contract, a line matches if and only if
      it is Assemble(c) for well-formed captures c. */
  lemma MatchLinkLineComplete(c: LinkCaptures)
    requires WellFormed(c)
    ensures MatchLinkLine(Assemble(c)) == Some(c)
  {
    var t4 := "," + (c.doorCol + ")");
    var t3 := ") = D(" + (c.doorRow + t4);
    var t2 := "," + (c.keyCol + t3);
    var t1 := c.keyRow + t2;
    assert Assemble(c) == "~K(" + t1;
    LiteralOf("~K(", t1);
    NumberOf(c.keyRow, t2);
    LiteralOf(",", c.keyCol + t3);
    NumberOf(c.keyCol, t3);
    LiteralOf(") = D(", c.doorRow + t4);
    NumberOf(c.doorRow, t4);
    LiteralOf(",", c.doorCol + ")");
    NumberOf(c.doorCol, ")");
  }

  // ---------------------------------------------------------------------------
  // Decimal numbers

  /** Numbers parsed into a 64-bit usize must be below this bound. */
  const USIZE_LIMIT: nat := 0x1_0000_0000_0000_0000

  function DigitValue(c: char): nat
    requires IsDigit(c)
  {
    (c as int - '0' as int) as nat
  }

  function DecimalValue(d: string): nat
    requires AllDigits(d)
  {
    if d == [] then 0 else 10 * DecimalValue(d[..|d| - 1]) + DigitValue(d[|d| - 1])
  }

  /** The shortest decimal representation of n. */
  function ToDecimal(n: nat): (d: string)
    ensures |d| > 0 && AllDigits(d)
  {
    var last := ['0' + (n % 10) as char];
    if n < 10 then last else ToDecimal(n / 10) + last
  }

  lemma {:induction false} DecimalRoundTrip(n: nat)
    ensures DecimalValue(ToDecimal(n)) == n
  {
    var d := ToDecimal(n);
    if n >= 10 {
      DecimalRoundTrip(n / 10);
      assert d[..|d| - 1] == ToDecimal(n / 10);
    }
  }

  // ---------------------------------------------------------------------------
  // Link table

  predicate Overflows(c: LinkCaptures)
    requires WellFormed(c)
  {
    || DecimalValue(c.keyRow) >= USIZE_LIMIT || DecimalValue(c.keyCol) >= USIZE_LIMIT
    || DecimalValue(c.doorRow) >= USIZE_LIMIT || DecimalValue(c.doorCol) >= USIZE_LIMIT
  }

  /** The link the captures denote; a number too large for usize is the source's panic. */
  function LinkOf(c: LinkCaptures): (r: Result<KeyDoorLink>)
    requires WellFormed(c)
    ensures r.Err? <==> Overflows(c)
    ensures r.Ok? ==> r.value == KeyDoorLink((DecimalValue(c.keyRow), DecimalValue(c.keyCol)),
                                             (DecimalValue(c.doorRow), DecimalValue(c.doorCol)))
  {
    if Overflows(c) then Err(LinkNumberOverflow)
    else Ok(KeyDoorLink((DecimalValue(c.keyRow), DecimalValue(c.keyCol)),
                        (DecimalValue(c.doorRow), DecimalValue(c.doorCol))))
  }

  /** Keeps, in order, the links of the lines that match the grammar; other lines are skipped. */
  function LinksFrom(ds: seq<string>): (r: Result<seq<KeyDoorLink>>)
    ensures r.Ok? ==> |r.value| <= |ds|
    ensures r.Err? ==> r.fault == LinkNumberOverflow
  {
    if ds == [] then Ok([])
    else
      var rest := LinksFrom(ds[1..]);
      match MatchLinkLine(ds[0])
      case None => rest
      case Some(c) =>
        if Overflows(c) then Err(LinkNumberOverflow)
        else if rest.Err? then rest
        else Ok([LinkOf(c).value] + rest.value)
  }

  /** A line that matches the grammar but names a number too large for usize. */
  predicate LineOverflows(l: string) {
    MatchLinkLine(l).Some? && Overflows(MatchLinkLine(l).value)
  }

  /** Parsing the directives fails exactly when one of them overflows. */
  lemma {:induction false} LinksFromFails(ds: seq<string>)
    ensures LinksFrom(ds).Err? <==> exists k :: 0 <= k < |ds| && LineOverflows(ds[k])
  {
    if ds != [] {
      var rest := ds[1..];
      LinksFromFails(rest);
      assert LineOverflows(ds[0]) ==> LinksFrom(ds).Err?;
      assert !LineOverflows(ds[0]) ==> LinksFrom(ds).Err? == LinksFrom(rest).Err?;
      if LinksFrom(rest).Err? {
        var k :| 0 <= k < |rest| && LineOverflows(rest[k]);
        assert LineOverflows(ds[k + 1]);
      }
      if exists k :: 0 <= k < |ds| && LineOverflows(ds[k]) {
        var k :| 0 <= k < |ds| && LineOverflows(ds[k]);
        if k > 0 {
          assert rest[k - 1] == ds[k];
        }
      }
    }
  }

  /** The links of the directive lines, in order; a directive whose number
      does not fit a usize is the source's panic. */
  function ParseKeyDoorLinks(lines: seq<string>): (r: Result<seq<KeyDoorLink>>)
    ensures r == LinksFrom(lines[|ExtractMapLines(lines)|..])
    ensures r.Err? <==> exists k :: |ExtractMapLines(lines)| <= k < |lines| && LineOverflows(lines[k])
  {
    var ds := DirectiveLines(lines);
    LinksFromFails(ds);
    assert forall k :: 0 <= k < |ds| ==> ds[k] == lines[|ExtractMapLines(lines)| + k];
    LinksFrom(ds)
  }

  /** A line that does not match the grammar contributes no link. */
  lemma LinksFromSkipped(l: string)
    requires MatchLinkLine(l).None?
    ensures LinksFrom([l]) == Ok([])
  {
    assert [l][1..] == [];
  }

  /** Parsing the directives of two blocks is parsing each block and
      concatenating the links; it fails when either block fails. */
  lemma {:induction false} LinksFromAppend(ds1: seq<string>, ds2: seq<string>)
    ensures LinksFrom(ds1 + ds2) ==
      if LinksFrom(ds1).Ok? && LinksFrom(ds2).Ok? then Ok(LinksFrom(ds1).value + LinksFrom(ds2).value)
      else Err(LinkNumberOverflow)
  {
    if ds1 == [] {
      assert ds1 + ds2 == ds2;
      if LinksFrom(ds2).Ok? {
        assert LinksFrom(ds1).value + LinksFrom(ds2).value == LinksFrom(ds2).value;
      }
    } else {
      var ds := ds1 + ds2;
      assert ds[0] == ds1[0] && ds[1..] == ds1[1..] + ds2;
      LinksFromAppend(ds1[1..], ds2);
      match MatchLinkLine(ds1[0])
      case None =>
      case Some(c) =>
        if !Overflows(c) && LinksFrom(ds1[1..]).Ok? && LinksFrom(ds2).Ok? {
          var k := LinkOf(c).value;
          assert [k] + (LinksFrom(ds1[1..]).value + LinksFrom(ds2).value)
              == ([k] + LinksFrom(ds1[1..]).value) + LinksFrom(ds2).value;
        }
    }
  }

  /** The directive line that a map author writes for a link. */
  function FormatLink(k: KeyDoorLink): string {
    Assemble(LinkCaptures(ToDecimal(k.key.0), ToDecimal(k.key.1), ToDecimal(k.door.0), ToDecimal(k.door.1)))
  }

  /** A formatted link parses back to itself. */
  lemma FormatLinkParses(k: KeyDoorLink)
    requires k.key.0 < USIZE_LIMIT && k.key.1 < USIZE_LIMIT && k.door.0 < USIZE_LIMIT && k.door.1 < USIZE_LIMIT
    ensures LinksFrom([FormatLink(k)]) == Ok([k])
  {
    var c := LinkCaptures(ToDecimal(k.key.0), ToDecimal(k.key.1), ToDecimal(k.door.0), ToDecimal(k.door.1));
    MatchLinkLineComplete(c);
    DecimalRoundTrip(k.key.0);
    DecimalRoundTrip(k.key.1);
    DecimalRoundTrip(k.door.0);
    DecimalRoundTrip(k.door.1);
    assert LinkOf(c) == Ok(k);
    LinksFromSingle(FormatLink(k), c);
  }

  lemma LinksFromSingle(l: string, c: LinkCaptures)
    requires MatchLinkLine(l) == Some(c) && WellFormed(c) && !Overflows(c)
    ensures LinksFrom([l]) == Ok([LinkOf(c).value])
  {
    var ds := [l];
    assert ds[0] == l && ds[1..] == [];
    assert LinksFrom(ds[1..]) == Ok([]);
    assert MatchLinkLine(ds[0]) == Some(c);
    var k := LinkOf(c).value;
    assert [k] + [] == [k];
    assert LinksFrom(ds).value == [k] + [];
  }

  /** The first link, in directive order, whose key is `key`. */
  function FirstLinkFor(links: seq<KeyDoorLink>, key: WorldCoordinates): (r: Option<KeyDoorLink>)
    ensures r.None? <==> forall k :: 0 <= k < |links| ==> links[k].key != key
    ensures r.Some? ==> exists i :: (0 <= i < |links| && links[i] == r.value && r.value.key == key
                                     && forall j :: 0 <= j < i ==> links[j].key != key)
  {
    if links == [] then None
    else if links[0].key == key then Some(links[0])
    else
      var r := FirstLinkFor(links[1..], key);
      assert forall k :: 0 < k < |links| ==> links[k] == links[1..][k - 1];
      if r.Some? then
        ghost var i :| 0 <= i < |links[1..]| && links[1..][i] == r.value && r.value.key == key
          && forall j :: 0 <= j < i ==> links[1..][j].key != key;
        assert links[i + 1] == r.value;
        r
      else r
  }

  // ---------------------------------------------------------------------------
  // Grid

  function Body(text: string): seq<string> {
    ExtractMapLines(Lines(text))
  }

  /** Twice the length of the first body line, or 0 for an empty body. */
  function GridWidth(body: seq<string>): nat {
    if body == [] then 0 else 2 * |body[0]|
  }

  /** The tile for body character `c` at `at`: decoded, stamped with its
      position and, for a key, bound to its link. */
  function CellTile(c: char, at: WorldCoordinates, links: seq<KeyDoorLink>, debug: bool): (r: Result<Tile>)
    ensures r.Ok? <==> IsTileSymbol(c) && (c == 'K' ==> FirstLinkFor(links, at).Some?)
  {
    var t :- FromCharId(c, debug);
    var placed := WithProperties(t, SetPosition(Properties(t), at));
    if placed.Key? then
      match FirstLinkFor(links, at)
      case None => Err(KeyWithoutLink(at))
      case Some(link) => Ok(WithProperties(placed, LinkDoor(Properties(placed), link)))
    else Ok(placed)
  }

  /** Every body character decodes, and every key finds a link. */
  predicate BodyLoads(body: seq<string>, links: seq<KeyDoorLink>, debug: bool) {
    forall i :: 0 <= i < |body| ==> RowLoads(body, links, debug, i)
  }

  /** Every character of body line `i` loads. */
  predicate RowLoads(body: seq<string>, links: seq<KeyDoorLink>, debug: bool, i: nat)
    requires i < |body|
  {
    forall j :: 0 <= j < |body[i]| ==> CellTile(body[i][j], (i, j), links, debug).Ok?
  }

  /** What the loaded grid holds at (i, j): the body's tile there, or the
      default tile where the body has no character. */
  function ExpectedCell(body: seq<string>, links: seq<KeyDoorLink>, debug: bool, i: nat, j: nat): Tile {
    if i < |body| && j < |body[i]| && CellTile(body[i][j], (i, j), links, debug).Ok?
    then CellTile(body[i][j], (i, j), links, debug).value
    else DefaultTile()
  }

  /** A loaded body cell is the decoded symbol, stamped with its own
      position; it carries no treasure, and it carries a link exactly when it
      is a key, namely the first link in directive order for its position. */
  lemma LoadedCell(body: seq<string>, links: seq<KeyDoorLink>, debug: bool, i: nat, j: nat)
    requires i < |body| && j < |body[i]| && CellTile(body[i][j], (i, j), links, debug).Ok?
    ensures var t := ExpectedCell(body, links, debug, i, j);
      && Row(t) == i && Col(t) == j && Properties(t).worldCoordinates == (i, j)
      && SameVariant(t, FromCharId(body[i][j], debug).value)
      && GetState(t) == GetState(FromCharId(body[i][j], debug).value)
      && ToCharId(t) == (if body[i][j] == 'K' && !debug then '.' else body[i][j])
      && Properties(t).treasure == None
      && (Properties(t).kdl.Some? <==> t.Key?)
      && (t.Key? ==> Properties(t).kdl == FirstLinkFor(links, (i, j)))
  {
    SymbolRoundTrip(body[i][j], debug);
  }

  /** Only key tiles carry a link after loading; grid cells the body does not
      reach hold the default tile. */
  lemma OnlyKeysLinked(body: seq<string>, links: seq<KeyDoorLink>, debug: bool, i: nat, j: nat)
    ensures var t := ExpectedCell(body, links, debug, i, j);
      Properties(t).kdl.Some? ==> t.Key?
    ensures i >= |body| || j >= |body[i]| ==> ExpectedCell(body, links, debug, i, j) == DefaultTile()
  {
    if i < |body| && j < |body[i]| && CellTile(body[i][j], (i, j), links, debug).Ok? {
      SymbolRoundTrip(body[i][j], debug);
    }
  }

  /** Loading succeeds exactly when every body character is a tile symbol and
      every key has some link for its position. */
  lemma BodyLoadsIff(body: seq<string>, links: seq<KeyDoorLink>, debug: bool)
    ensures BodyLoads(body, links, debug) <==>
      forall i, j :: 0 <= i < |body| && 0 <= j < |body[i]| ==>
        IsTileSymbol(body[i][j]) && (body[i][j] == 'K' ==> exists k :: 0 <= k < |links| && links[k].key == (i, j))
  {
    if BodyLoads(body, links, debug) {
      forall i, j | 0 <= i < |body| && 0 <= j < |body[i]|
        ensures CellTile(body[i][j], (i, j), links, debug).Ok?
      {
        assert RowLoads(body, links, debug, i);
      }
    } else {
      var i :| 0 <= i < |body| && !RowLoads(body, links, debug, i);
    }
  }

  /** Loads a map; fails on a link number too large for usize, an unknown
      symbol, or a key with no link. */
  method FromText(text: string, debug: bool) returns (r: Result<array2<Tile>>)
    ensures r.Ok? <==> ParseKeyDoorLinks(Lines(text)).Ok?
                       && BodyLoads(Body(text), ParseKeyDoorLinks(Lines(text)).value, debug)
    ensures r.Ok? ==> fresh(r.value)
    ensures r.Ok? ==> r.value.Length0 == |Body(text)| && r.value.Length1 == GridWidth(Body(text))
    ensures r.Ok? ==> forall i, j :: 0 <= i < r.value.Length0 && 0 <= j < r.value.Length1 ==>
      r.value[i, j] == ExpectedCell(Body(text), ParseKeyDoorLinks(Lines(text)).value, debug, i, j)
  {
    var lines := Lines(text);
    var body := ExtractMapLines(lines);
    var parsed := ParseKeyDoorLinks(lines);
    if parsed.Err? {
      return Err(parsed.fault);
    }
    var links := parsed.value;
    var width := if |body| == 0 then 0 else |body[0]| * 2;
    var grid := new Tile[|body|, width]((i, j) => DefaultTile());
    for row := 0 to |body|
      invariant forall i, j :: 0 <= i < |body| && 0 <= j < width ==>
        grid[i, j] == if i < row then ExpectedCell(body, links, debug, i, j) else DefaultTile()
      invariant forall i :: 0 <= i < row ==> RowLoads(body, links, debug, i)
    {
      var done := LoadRow(grid, body, links, debug, row);
      if done.Fail? {
        return Err(done.fault);
      }
    }
    return Ok(grid);
  }

  /** The inner loop of the loader: decodes, stamps and links the tiles of
      body line `row` and stores those that fall inside the grid. */
  method LoadRow(grid: array2<Tile>, body: seq<string>, links: seq<KeyDoorLink>, debug: bool, row: nat)
    returns (r: Outcome)
    requires row < |body| && grid.Length0 == |body| && grid.Length1 == GridWidth(body)
    requires forall j :: 0 <= j < grid.Length1 ==> grid[row, j] == DefaultTile()
    modifies grid
    ensures r.Pass? <==> RowLoads(body, links, debug, row)
    ensures r.Pass? ==> forall j :: 0 <= j < grid.Length1 ==> grid[row, j] == ExpectedCell(body, links, debug, row, j)
    ensures forall i, j :: 0 <= i < grid.Length0 && i != row && 0 <= j < grid.Length1 ==> grid[i, j] == old(grid[i, j])
  {
    r := Pass;
    var line := body[row];
    var width := grid.Length1;
    for col := 0 to |line|
      invariant forall j :: 0 <= j < width ==>
        grid[row, j] == if j < col then ExpectedCell(body, links, debug, row, j) else DefaultTile()
      invariant forall j :: 0 <= j < col ==> CellTile(line[j], (row, j), links, debug).Ok?
      invariant forall i, j :: 0 <= i < grid.Length0 && i != row && 0 <= j < width ==> grid[i, j] == old(grid[i, j])
    {
      var decoded := FromCharId(line[col], debug);
      if decoded.Err? {
        assert !CellTile(line[col], (row, col), links, debug).Ok?;
        return Fail(decoded.fault);
      }
      var tile := decoded.value;
      tile := WithProperties(tile, SetPosition(Properties(tile), (row, col)));
      if tile.Key? {
        var link := FirstLinkFor(links, (Row(tile), Col(tile)));
        if link.None? {
          assert !CellTile(line[col], (row, col), links, debug).Ok?;
          return Fail(KeyWithoutLink((row, col)));
        }
        tile := WithProperties(tile, LinkDoor(Properties(tile), link.value));
      }
      assert CellTile(line[col], (row, col), links, debug) == Ok(tile);
      if col < width && row < grid.Length0 {
        grid[row, col] := tile;
      }
    }
  }
}
