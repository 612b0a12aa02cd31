/**
 What the manifest scanner reads, as functions of the text that is left: the value and the rest, or
 nothing when the scanner throws.
 */
module JsonReader {
  import opened Options
  import opened JsonGrammar

  datatype Parsed<T> = Parsed(value: T, rest: Text)

  const MAX_DEPTH: nat := 64

  function SpaceRun(s: Text): (n: nat)
    ensures n <= |s| && AllSpace(s[..n]) && (n < |s| ==> !Whitespace(s[n]))
  {
    if s == [] || !Whitespace(s[0]) then 0 else 1 + SpaceRun(s[1..])
  }

  function DigitRun(s: Text): (n: nat)
    ensures n <= |s| && AllDigits(s[..n]) && (n < |s| ==> !Digit(s[n]))
  {
    if s == [] || !Digit(s[0]) then 0 else 1 + DigitRun(s[1..])
  }

  predicate StartsWith(s: Text, u: Unit) {
    s != [] && s[0] == u
  }

  // ---- strings -------------------------------------------------------------------------------

  /** Where the string ends: the first quote that no backslash takes with it. */
  function QuoteAt(s: Text): (n: Option<nat>)
    ensures n.Some? ==> n.value < |s| && s[n.value] == QUOTE
    decreases |s|
  {
    if s == [] then None
    else if s[0] == BACKSLASH then
      if |s| == 1 then None
      else var r := QuoteAt(s[2..]); if r.None? then None else Some(r.value + 2)
    else if s[0] == QUOTE then Some(0)
    else var r := QuoteAt(s[1..]); if r.None? then None else Some(r.value + 1)
  }

  function ReadPiece(s: Text): (r: Option<Parsed<Piece>>)
    requires s != []
    ensures r.Some? ==> PieceOk(r.value.value) && s == PrintPiece(r.value.value) + r.value.rest
  {
    if s[0] != BACKSLASH then
      if PieceOk(Plain(s[0])) then Some(Parsed(Plain(s[0]), s[1..])) else None
    else if |s| >= 2 && EscapeLetter(s[1]) then Some(Parsed(Short(s[1]), s[2..]))
    else if |s| >= 6 && s[1] == 117 && PieceOk(Hex(s[2], s[3], s[4], s[5])) then Some(Parsed(Hex(s[2], s[3], s[4], s[5]), s[6..]))
    else None
  }

  /** `JSON.parse` of what stands between the quotes */
  function ReadPieces(s: Text): (r: Option<seq<Piece>>)
    ensures r.Some? ==> PiecesOk(r.value) && s == PrintPieces(r.value)
    decreases |s|
  {
    if s == [] then Some([])
    else
      var p := ReadPiece(s);
      if p.None? then None
      else
        var ps := ReadPieces(p.value.rest);
        if ps.None? then None else Some([p.value.value] + ps.value)
  }

  /** `parseString` */
  function ReadString(s: Text): (r: Option<Parsed<seq<Piece>>>)
    ensures r.Some? ==> |r.value.rest| < |s| && PiecesOk(r.value.value) && s == PrintString(r.value.value) + r.value.rest
  {
    if !StartsWith(s, QUOTE) then None
    else
      var n := QuoteAt(s[1..]);
      if n.None? then None
      else
        var ps := ReadPieces(s[1..1 + n.value]);
        if ps.None? then None else Some(Parsed(ps.value, s[n.value + 2..]))
  }

  // ---- numbers and literals ------------------------------------------------------------------

  function ReadFraction(s: Text): (r: Parsed<Text>)
    ensures AllDigits(r.value) && s == PrintFraction(r.value) + r.rest
  {
    if !StartsWith(s, DOT) then Parsed([], s)
    else
      var n := DigitRun(s[1..]);
      if n == 0 then Parsed([], s)
      else
        assert s == [s[0]] + s[1..][..n] + s[1..][n..];
        Parsed(s[1..][..n], s[1..][n..])
  }

  function ReadDigits(s: Text): (r: Option<Parsed<Text>>)
    ensures r.Some? ==> r.value.value != [] && AllDigits(r.value.value) && s == r.value.value + r.value.rest
  {
    var n := DigitRun(s);
    if n == 0 then None else Some(Parsed(s[..n], s[n..]))
  }

  function ReadSign(s: Text): Text {
    if StartsWith(s, PLUS) || StartsWith(s, MINUS) then [s[0]] else []
  }

  function ReadExponent(s: Text): (r: Parsed<Option<Exponent>>)
    ensures |r.rest| <= |s|
  {
    if !StartsWith(s, 101) && !StartsWith(s, 69) then Parsed(None, s)
    else
      var sign := ReadSign(s[1..]);
      var digits := ReadDigits(s[1..][|sign|..]);
      if digits.None? then Parsed(None, s)
      else Parsed(Some(Exponent(s[0], sign, digits.value.value)), digits.value.rest)
  }

  function ReadWhole(s: Text): (r: Option<Parsed<Text>>)
    ensures r.Some? ==> WholeOk(r.value.value) && s == r.value.value + r.value.rest && |r.value.rest| < |s|
  {
    var n := if StartsWith(s, ZERO) then 1 else DigitRun(s);
    if n == 0 then None else Some(Parsed(s[..n], s[n..]))
  }

  function ReadNumber(s: Text): (r: Option<Parsed<Number>>)
    ensures r.Some? ==> |r.value.rest| < |s|
  {
    var negative := StartsWith(s, MINUS);
    var whole := ReadWhole(if negative then s[1..] else s);
    if whole.None? then None
    else
      var fraction := ReadFraction(whole.value.rest);
      var exponent := ReadExponent(fraction.rest);
      assert |exponent.rest| <= |fraction.rest| <= |whole.value.rest|;
      Some(Parsed(Number(negative, whole.value.value, fraction.value, exponent.value), exponent.rest))
  }

  function ReadToken(s: Text): (r: Option<Parsed<Node>>)
    ensures r.Some? ==> |r.value.rest| < |s|
  {
    if TRUE <= s then Some(Parsed(True, s[4..]))
    else if FALSE <= s then Some(Parsed(False, s[5..]))
    else if NULL <= s then Some(Parsed(Null, s[4..]))
    else
      var n := ReadNumber(s);
      if n.None? then None else Some(Parsed(Num(n.value.value), n.value.rest))
  }

  // ---- values --------------------------------------------------------------------------------

  function Fuel(levels: int): nat {
    if levels < 0 then 0 else levels + 1
  }

  /** `parseValue`: `levels` more levels are allowed below this one. */
  function ReadTree(s: Text, levels: int): (r: Option<Parsed<Tree>>)
    ensures r.Some? ==> |r.value.rest| < |s|
    decreases Fuel(levels), |s|, 2
  {
    if levels < 0 then None
    else
      var n := SpaceRun(s);
      var node := ReadNode(s[n..], levels);
      if node.None? then None else Some(Parsed(Tree(s[..n], node.value.value), node.value.rest))
  }

  function ReadNode(s: Text, levels: int): (r: Option<Parsed<Node>>)
    requires levels >= 0
    ensures r.Some? ==> |r.value.rest| < |s|
    decreases Fuel(levels), |s|, 1
  {
    if StartsWith(s, OPEN_BRACE) then
      var body := s[1..];
      var n := SpaceRun(body);
      if StartsWith(body[n..], CLOSE_BRACE) then Some(Parsed(Obj(body[..n], []), body[n + 1..]))
      else
        var members := ReadMembers(body, levels, {});
        if members.None? then None else Some(Parsed(Obj([], members.value.value), members.value.rest))
    else if StartsWith(s, OPEN_BRACKET) then
      var body := s[1..];
      var n := SpaceRun(body);
      if StartsWith(body[n..], CLOSE_BRACKET) then Some(Parsed(Arr(body[..n], []), body[n + 1..]))
      else
        var items := ReadItems(body, levels);
        if items.None? then None else Some(Parsed(Arr([], items.value.value), items.value.rest))
    else if StartsWith(s, QUOTE) then
      var pieces := ReadString(s);
      if pieces.None? then None else Some(Parsed(Str(pieces.value.value), pieces.value.rest))
    else ReadToken(s)
  }

  /** The loop over the items of an array */
  function ReadItems(s: Text, levels: int): (r: Option<Parsed<seq<Item>>>)
    requires levels >= 0
    ensures r.Some? ==> |r.value.rest| < |s| && r.value.value != []
    decreases Fuel(levels), |s|, 0
  {
    var tree := ReadTree(s, levels - 1);
    if tree.None? then None
    else
      var n := SpaceRun(tree.value.rest);
      var item, after := Item(tree.value.value, tree.value.rest[..n]), tree.value.rest[n..];
      if StartsWith(after, CLOSE_BRACKET) then Some(Parsed([item], after[1..]))
      else if !StartsWith(after, COMMA) then None
      else
        var items := ReadItems(after[1..], levels);
        if items.None? then None else Some(Parsed([item] + items.value.value, items.value.rest))
  }

  /** The start of a member, up to its value: its key must not be one of `keys`. */
  function ReadKey(s: Text, keys: set<Text>): (r: Option<Parsed<Member>>)
    ensures r.Some? ==> |r.value.rest| < |s|
  {
    var n := SpaceRun(s);
    var key := ReadString(s[n..]);
    if key.None? || Decode(key.value.value) in keys then None
    else
      var k := SpaceRun(key.value.rest);
      if !StartsWith(key.value.rest[k..], COLON) then None
      else Some(Parsed(Member(s[..n], key.value.value, key.value.rest[..k], Tree([], Null), []), key.value.rest[k + 1..]))
  }

  /** The loop over the members of an object */
  function ReadMembers(s: Text, levels: int, keys: set<Text>): (r: Option<Parsed<seq<Member>>>)
    requires levels >= 0
    ensures r.Some? ==> |r.value.rest| < |s| && r.value.value != []
    decreases Fuel(levels), |s|, 0
  {
    var start := ReadKey(s, keys);
    if start.None? then None
    else
      var tree := ReadTree(start.value.rest, levels - 1);
      if tree.None? then None
      else
        var n := SpaceRun(tree.value.rest);
        var member := start.value.value.(tree := tree.value.value, trail := tree.value.rest[..n]);
        var after := tree.value.rest[n..];
        if StartsWith(after, CLOSE_BRACE) then Some(Parsed([member], after[1..]))
        else if !StartsWith(after, COMMA) then None
        else
          var members := ReadMembers(after[1..], levels, keys + {Decode(member.key)});
          if members.None? then None else Some(Parsed([member] + members.value.value, members.value.rest))
  }

  /** The whole scan: one value, then nothing but whitespace. */
  function Scan(source: Text): (r: Option<Tree>) {
    var tree := ReadTree(source, MAX_DEPTH);
    if tree.Some? && SpaceRun(tree.value.rest) == |tree.value.rest| then Some(tree.value.value) else None
  }
}
