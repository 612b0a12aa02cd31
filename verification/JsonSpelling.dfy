/**
 What a name spells, by the table of RFC 8259, section 7, and not by the decoder: a character stands
 for itself, for one of eight short escapes, or for the four digits of its number.  The scanner
 refuses exactly the objects in which two names spell one text.
 */
module JsonSpelling {
  import opened Options
  import opened JsonGrammar
  import opened JsonReader
  import opened JsonScanTheorems

  // ---- the table -------------------------------------------------------------------------------

  const LOWER_DIGITS := "0123456789abcdef"
  const UPPER_DIGITS := "0123456789ABCDEF"

  /** The unit is the digit of this value, in either case. */
  predicate IsDigitOf(u: Unit, value: nat) {
    value < 16 && (u == LOWER_DIGITS[value] as int || u == UPPER_DIGITS[value] as int)
  }

  /** The short escapes: the letter behind the backslash, and what it stands for. */
  const SHORT_ESCAPES: seq<(char, int)> :=
    [('\"', 0x22), ('\\', 0x5C), ('/', 0x2F), ('b', 0x08), ('f', 0x0C), ('n', 0x0A), ('r', 0x0D), ('t', 0x09)]

  predicate IsShortOf(letter: Unit, u: Unit) {
    exists i :: 0 <= i < |SHORT_ESCAPES| && SHORT_ESCAPES[i].0 as int == letter && SHORT_ESCAPES[i].1 == u
  }

  /** The piece is a spelling of the unit. */
  predicate Spells(p: Piece, u: Unit) {
    match p
    case Plain(c) => c == u && u >= 0x20 && u != '\"' as int && u != '\\' as int
    case Short(letter) => IsShortOf(letter, u)
    case Hex(a, b, c, d) =>
      IsDigitOf(a, u / 4096) && IsDigitOf(b, u / 256 % 16) && IsDigitOf(c, u / 16 % 16) && IsDigitOf(d, u % 16)
  }

  predicate SpellsText(ps: seq<Piece>, t: Text) {
    |ps| == |t| && forall i :: 0 <= i < |ps| ==> Spells(ps[i], t[i])
  }

  /** White space and line terminators of ECMA-262, which are what `\s` matches and `trim` removes. */
  const WHITE_SPACE: seq<int> :=
    [0x09, 0x0A, 0x0B, 0x0C, 0x0D, 0x20, 0xA0, 0x1680, 0x2000, 0x2001, 0x2002, 0x2003, 0x2004, 0x2005, 0x2006, 0x2007, 0x2008,
     0x2009, 0x200A, 0x2028, 0x2029, 0x202F, 0x205F, 0x3000, 0xFEFF]

  lemma WhitespaceExactly(u: Unit)
    ensures Whitespace(u) <==> u in WHITE_SPACE
  {
    assert 9 <= u <= 13 ==> WHITE_SPACE[u - 9] == u;
    assert 0x2000 <= u <= 0x200A ==> WHITE_SPACE[u - 0x2000 + 8] == u;
    assert WHITE_SPACE[5] == 0x20 && WHITE_SPACE[6] == 0xA0 && WHITE_SPACE[7] == 0x1680 && WHITE_SPACE[19] == 0x2028 && WHITE_SPACE[20] == 0x2029;
    assert WHITE_SPACE[21] == 0x202F && WHITE_SPACE[22] == 0x205F && WHITE_SPACE[23] == 0x3000 && WHITE_SPACE[24] == 0xFEFF;
  }

  /** The text in ASCII. */
  predicate IsText(t: Text, s: string) {
    |t| == |s| && forall i :: 0 <= i < |s| ==> t[i] == s[i] as int
  }

  lemma LiteralNames()
    ensures IsText(TRUE, "true") && IsText(FALSE, "false") && IsText(NULL, "null")
    ensures IsText([OPEN_BRACE, CLOSE_BRACE, OPEN_BRACKET, CLOSE_BRACKET, COLON, COMMA, QUOTE, BACKSLASH], "{}[]:,\"\\")
  {
  }

  // ---- decoding --------------------------------------------------------------------------------

  lemma DigitHasValue(u: Unit, value: nat)
    ensures IsDigitOf(u, value) <==> HexDigit(u) && HexValue(u) == value
  {
  }

  lemma Base16(u: Unit, a: nat, b: nat, c: nat, d: nat)
    requires a < 16 && b < 16 && c < 16 && d < 16
    ensures u == 4096 * a + 256 * b + 16 * c + d <==> a == u / 4096 && b == u / 256 % 16 && c == u / 16 % 16 && d == u % 16
  {
    assert u / 256 == 16 * (u / 4096) + u / 256 % 16;
    assert u / 16 == 16 * (u / 256) + u / 16 % 16;
  }

  /** A piece is well formed and decodes to a unit exactly when it is a spelling of the unit. */
  lemma DecodesExactly(p: Piece, u: Unit)
    ensures PieceOk(p) && DecodePiece(p) == u <==> Spells(p, u)
  {
    match p
    case Plain(_) =>
    case Short(letter) => ShortExactly(letter, u);
    case Hex(a, b, c, d) =>
      DigitHasValue(a, u / 4096);
      DigitHasValue(b, u / 256 % 16);
      DigitHasValue(c, u / 16 % 16);
      DigitHasValue(d, u % 16);
      Base16(u, HexValue(a), HexValue(b), HexValue(c), HexValue(d));
  }

  lemma ShortExactly(letter: Unit, u: Unit)
    ensures PieceOk(Short(letter)) && DecodePiece(Short(letter)) == u <==> IsShortOf(letter, u)
  {
    assert SHORT_ESCAPES[0] == ('\"', 0x22) && SHORT_ESCAPES[1] == ('\\', 0x5C) && SHORT_ESCAPES[2] == ('/', 0x2F) && SHORT_ESCAPES[3] == ('b', 0x08);
    assert SHORT_ESCAPES[4] == ('f', 0x0C) && SHORT_ESCAPES[5] == ('n', 0x0A) && SHORT_ESCAPES[6] == ('r', 0x0D) && SHORT_ESCAPES[7] == ('t', 0x09);
  }

  /** So for whole names. */
  lemma {:induction false} DecodeExactly(ps: seq<Piece>, t: Text)
    ensures PiecesOk(ps) && Decode(ps) == t <==> SpellsText(ps, t)
    decreases |ps|
  {
    hide PieceOk, DecodePiece, Spells;
    if ps == [] {
    } else if t != [] {
      DecodesExactly(ps[0], t[0]);
      DecodeExactly(ps[1..], t[1..]);
      assert Decode(ps) == t <==> DecodePiece(ps[0]) == t[0] && Decode(ps[1..]) == t[1..] by {
        assert t == [t[0]] + t[1..];
        assert Decode(ps)[0] == DecodePiece(ps[0]) && Decode(ps)[1..] == Decode(ps[1..]);
      }
      assert PiecesOk(ps) <==> PieceOk(ps[0]) && PiecesOk(ps[1..]) by { PiecesOkStep(ps); }
      SpellsStep(ps, t);
    }
  }

  lemma {:induction false} PiecesOkStep(ps: seq<Piece>)
    requires ps != []
    ensures PiecesOk(ps) <==> PieceOk(ps[0]) && PiecesOk(ps[1..])
  {
    forall i | 0 <= i < |ps| && PieceOk(ps[0]) && PiecesOk(ps[1..]) ensures PieceOk(ps[i]) {
      if i > 0 { assert ps[i] == ps[1..][i - 1]; }
    }
  }

  lemma {:induction false} SpellsStep(ps: seq<Piece>, t: Text)
    requires ps != [] && t != []
    ensures SpellsText(ps, t) <==> Spells(ps[0], t[0]) && SpellsText(ps[1..], t[1..])
  {
    hide Spells;
    forall i | 0 <= i < |ps| && |ps| == |t| && Spells(ps[0], t[0]) && SpellsText(ps[1..], t[1..]) ensures Spells(ps[i], t[i]) {
      if i > 0 { assert ps[i] == ps[1..][i - 1] && t[i] == t[1..][i - 1]; }
    }
    forall i | 0 <= i < |ps[1..]| && SpellsText(ps, t) ensures Spells(ps[1..][i], t[1..][i]) {
      assert ps[1..][i] == ps[i + 1] && t[1..][i] == t[i + 1];
    }
  }

  // ---- repeated names --------------------------------------------------------------------------

  /** Two members of the object spell one name, however they write it. */
  ghost predicate SameName(members: seq<Member>, i: nat, j: nat) {
    i < j < |members| && exists t :: SpellsText(members[i].key, t) && SpellsText(members[j].key, t)
  }

  /** Some object in the tree has two such members. */
  ghost predicate Repeats(n: Node) {
    match n
    case Arr(_, items) => exists i :: i in items && Repeats(i.tree.node)
    case Obj(_, members) => (exists i, j :: SameName(members, i, j)) || (exists m :: m in members && Repeats(m.tree.node))
    case _ => false
  }

  lemma {:induction false} KeysDifferExactly(members: seq<Member>)
    requires forall m :: m in members ==> PiecesOk(m.key)
    ensures KeysDiffer(members) <==> !exists i, j :: SameName(members, i, j)
  {
    hide Decode, SpellsText;
    forall i, j | 0 <= i < j < |members| ensures Decode(members[i].key) == Decode(members[j].key) <==> SameName(members, i, j) {
      assert members[i] in members && members[j] in members;
      DecodeExactly(members[i].key, Decode(members[i].key));
      DecodeExactly(members[j].key, Decode(members[i].key));
      if SameName(members, i, j) {
        var t :| SpellsText(members[i].key, t) && SpellsText(members[j].key, t);
        DecodeExactly(members[i].key, t);
        DecodeExactly(members[j].key, t);
      }
    }
    if !KeysDiffer(members) {
      var i, j :| 0 <= i < j < |members| && Decode(members[i].key) == Decode(members[j].key);
      assert SameName(members, i, j);
    }
  }

  lemma {:induction false} DistinctExactly(n: Node)
    requires NodeOk(n)
    ensures Distinct(n) <==> !Repeats(n)
    decreases n
  {
    hide SameName, PiecesOk, AllSpace;
    match n
    case Arr(_, items) =>
      forall i | i in items ensures Distinct(i.tree.node) <==> !Repeats(i.tree.node) {
        assert ItemOk(i) && TreeOk(i.tree) && NodeOk(i.tree.node);
        DistinctExactly(i.tree.node);
      }
    case Obj(_, members) =>
      forall m | m in members ensures PiecesOk(m.key) && (Distinct(m.tree.node) <==> !Repeats(m.tree.node)) {
        assert MemberOk(m) && TreeOk(m.tree) && NodeOk(m.tree.node);
        DistinctExactly(m.tree.node);
      }
      KeysDifferExactly(members);
    case _ =>
  }

  // ---- depth -----------------------------------------------------------------------------------

  /** How many brackets and braces stand around the innermost value. */
  function Depth(n: Node): nat {
    match n
    case Arr(_, items) => ItemsDepth(items)
    case Obj(_, members) => MembersDepth(members)
    case _ => 0
  }

  function ItemsDepth(items: seq<Item>): nat {
    if items == [] then 0
    else
      var first, rest := 1 + Depth(items[0].tree.node), ItemsDepth(items[1..]);
      if first < rest then rest else first
  }

  function MembersDepth(members: seq<Member>): nat {
    if members == [] then 0
    else
      var first, rest := 1 + Depth(members[0].tree.node), MembersDepth(members[1..]);
      if first < rest then rest else first
  }

  lemma {:induction false} WithinExactly(n: Node, levels: nat)
    ensures Within(n, levels) <==> Depth(n) <= levels
    decreases n, 1
  {
    match n
    case Arr(_, items) => ItemsWithinExactly(items, levels);
    case Obj(_, members) => MembersWithinExactly(members, levels);
    case _ =>
  }

  lemma {:induction false} ItemsWithinExactly(items: seq<Item>, levels: nat)
    ensures (forall i :: i in items ==> Within(i.tree.node, levels - 1)) <==> ItemsDepth(items) <= levels
    decreases items, 0
  {
    if items != [] {
      assert items[0] in items && forall i :: i in items <==> i == items[0] || i in items[1..];
      if levels > 0 { WithinExactly(items[0].tree.node, levels - 1); }
      ItemsWithinExactly(items[1..], levels);
    }
  }

  lemma {:induction false} MembersWithinExactly(members: seq<Member>, levels: nat)
    ensures (forall m :: m in members ==> Within(m.tree.node, levels - 1)) <==> MembersDepth(members) <= levels
    decreases members, 0
  {
    if members != [] {
      assert members[0] in members && forall m :: m in members <==> m == members[0] || m in members[1..];
      if levels > 0 { WithinExactly(members[0].tree.node, levels - 1); }
      MembersWithinExactly(members[1..], levels);
    }
  }

  /** The text of a value is accepted, and read whole, exactly when it is at most 64 levels deep and no object in it repeats a name. */
  lemma {:induction false} RepeatedNamesRefused(t: Tree, trail: Text)
    requires TreeOk(t) && AllSpace(trail)
    ensures Scan(Print(t) + trail) == if Depth(t.node) <= 64 && !Repeats(t.node) then Some(t) else None
  {
    hide Scan, Print, Distinct, Repeats, Within, NodeOk, AllSpace, Depth;
    PrintedIsAccepted(t, trail);
    WithinExactly(t.node, 64);
    DistinctExactly(t.node);
  }
}
