/**
 The scanner accepts exactly the texts of values that are nested at most 64 deep and whose objects
 have no two members with the same decoded name.
 */
module JsonScanTheorems {
  import opened Options
  import opened JsonGrammar
  import opened JsonReader

  // ---- what is read is what is printed ---------------------------------------------------------

  lemma {:induction false} NumberSound(s: Text)
    ensures var r := ReadNumber(s);
            r.Some? ==> NumberOk(r.value.value) && s == PrintNumber(r.value.value) + r.value.rest
  {
    hide PrintFraction, PrintExponent, WholeOk, ExponentOk, AllDigits, ReadFraction, ReadExponent, ReadWhole;
    var negative := StartsWith(s, MINUS);
    var unsigned := if negative then s[1..] else s;
    var whole := ReadWhole(unsigned);
    if whole.Some? {
      var fraction := ReadFraction(whole.value.rest);
      var exponent := ReadExponent(fraction.rest);
      ExponentSound(fraction.rest);
      Regroup(whole.value.value, PrintFraction(fraction.value), PrintExponent(exponent.value), exponent.rest);
      if negative { assert s == [MINUS] + unsigned; }
    }
  }

  lemma {:induction false} ExponentSound(s: Text)
    ensures var r := ReadExponent(s);
            (r.value.Some? ==> ExponentOk(r.value.value)) && s == PrintExponent(r.value) + r.rest
  {
    hide ReadDigits, AllDigits;
    if ReadExponent(s).value.Some? {
      var sign := ReadSign(s[1..]);
      assert s == [s[0]] + s[1..] && s[1..] == sign + s[1..][|sign|..];
      Regroup([s[0]], sign, ReadExponent(s).value.value.digits, ReadExponent(s).rest);
    }
  }

  lemma {:induction false} Regroup(a: Text, b: Text, c: Text, d: Text)
    ensures a + (b + (c + d)) == (a + b + c) + d
    ensures [MINUS] + (a + (b + (c + d))) == ([MINUS] + a + b + c) + d
    ensures a + b + c == [] + a + b + c
  {
  }

  lemma {:induction false} TokenSound(s: Text)
    ensures var r := ReadToken(s);
            r.Some? ==> NodeOk(r.value.value) && s == PrintNode(r.value.value) + r.value.rest && Distinct(r.value.value)
  {
    hide ReadNumber, PrintNumber, NumberOk;
    NumberSound(s);
  }

  /** What `Within` and `Distinct` ask of the items of an array, of the members of an object. */
  predicate ItemsGood(items: seq<Item>, levels: int) {
    forall i :: i in items ==> ItemOk(i) && Distinct(i.tree.node) && Within(i.tree.node, levels)
  }

  predicate MembersGood(members: seq<Member>, levels: int, keys: set<Text>) {
    && (forall m :: m in members ==> MemberOk(m) && Distinct(m.tree.node) && Within(m.tree.node, levels) && Decode(m.key) !in keys)
    && KeysDiffer(members)
  }

  ghost predicate TreeGood(t: Tree, levels: int) {
    TreeOk(t) && Distinct(t.node) && Within(t.node, levels)
  }

  lemma {:induction false} TreeSound(s: Text, levels: int)
    requires ReadTree(s, levels).Some?
    ensures var r := ReadTree(s, levels).value;
            s == Print(r.value) + r.rest && TreeGood(r.value, levels)
    decreases Fuel(levels), |s|, 2
  {
    hide PrintNode, NodeOk, Distinct, Within, ReadNode;
    var n := SpaceRun(s);
    NodeSound(s[n..], levels);
    var node := ReadNode(s[n..], levels).value;
    assert s == s[..n] + s[n..];
    Associate(s[..n], PrintNode(node.value), node.rest);
  }

  lemma {:induction false} Associate(a: Text, b: Text, c: Text)
    ensures a + (b + c) == (a + b) + c
  {
  }

  lemma {:induction false} NodeSound(s: Text, levels: int)
    requires levels >= 0 && ReadNode(s, levels).Some?
    ensures var r := ReadNode(s, levels).value;
            s == PrintNode(r.value) + r.rest && NodeOk(r.value) && Distinct(r.value) && Within(r.value, levels)
    decreases Fuel(levels), |s|, 1
  {
    hide ReadMembers, ReadItems, PrintMembers, PrintItems, MembersGood, ItemsGood, ReadToken, ReadString, PrintString, SpaceRun, NodeOk, Distinct, Within, PiecesOk, AllSpace;
    if StartsWith(s, OPEN_BRACE) {
      var n := SpaceRun(s[1..]);
      if StartsWith(s[1..][n..], CLOSE_BRACE) {
        Bracketed(s, n);
        EmptyOk(s[1..][..n], levels);
      } else {
        MembersSound(s[1..], levels, {});
        var members := ReadMembers(s[1..], levels, {}).value;
        MembersWithin(members.value, levels);
        assert s == [OPEN_BRACE] + s[1..];
        Associate([OPEN_BRACE], PrintMembers(members.value), members.rest);
      }
    } else if StartsWith(s, OPEN_BRACKET) {
      var n := SpaceRun(s[1..]);
      if StartsWith(s[1..][n..], CLOSE_BRACKET) {
        Bracketed(s, n);
        EmptyOk(s[1..][..n], levels);
      } else {
        ItemsSound(s[1..], levels);
        var items := ReadItems(s[1..], levels).value;
        ItemsWithin(items.value, levels);
        assert s == [OPEN_BRACKET] + s[1..];
        Associate([OPEN_BRACKET], PrintItems(items.value), items.rest);
      }
    } else if StartsWith(s, QUOTE) {
      StringOk(s, levels);
    } else {
      TokenSound(s);
      TokenWithin(s, levels);
    }
  }

  lemma {:induction false} EmptyOk(pad: Text, levels: nat)
    requires AllSpace(pad)
    ensures NodeOk(Arr(pad, [])) && Distinct(Arr(pad, [])) && Within(Arr(pad, []), levels)
    ensures NodeOk(Obj(pad, [])) && Distinct(Obj(pad, [])) && Within(Obj(pad, []), levels)
  {
  }

  lemma {:induction false} StringOk(s: Text, levels: nat)
    requires ReadString(s).Some?
    ensures var r := ReadString(s).value;
            var n := Str(r.value);
            s == PrintNode(n) + r.rest && NodeOk(n) && Distinct(n) && Within(n, levels)
  {
  }

  lemma {:induction false} Bracketed(s: Text, n: nat)
    requires n + 2 <= |s|
    ensures s == [s[0]] + (s[1..][..n] + [s[1..][n]]) + s[1..][n + 1..]
  {
  }

  lemma {:induction false} TokenWithin(s: Text, levels: nat)
    requires ReadToken(s).Some?
    ensures Within(ReadToken(s).value.value, levels)
  {
    hide ReadNumber;
  }

  lemma {:induction false} ItemsWithin(items: seq<Item>, levels: nat)
    requires ItemsGood(items, levels - 1)
    ensures NodeOk(Arr([], items)) && Distinct(Arr([], items)) && Within(Arr([], items), levels)
  {
  }

  lemma {:induction false} MembersWithin(members: seq<Member>, levels: nat)
    requires MembersGood(members, levels - 1, {})
    ensures NodeOk(Obj([], members)) && Distinct(Obj([], members)) && Within(Obj([], members), levels)
  {
  }

  /** The text of a list, item by item. */
  lemma {:induction false} ItemsText(item: Item, items: seq<Item>, levels: int)
    requires ItemOk(item) && Distinct(item.tree.node) && Within(item.tree.node, levels) && (items != [] ==> ItemsGood(items, levels))
    ensures PrintItems([item] + items)
         == Print(item.tree) + item.trail + (if items == [] then [CLOSE_BRACKET] else [COMMA] + PrintItems(items))
    ensures ItemsGood([item] + items, levels)
  {
    assert ([item] + items)[1..] == items;
  }

  lemma {:induction false} ItemsSound(s: Text, levels: int)
    requires levels >= 0 && ReadItems(s, levels).Some?
    ensures var r := ReadItems(s, levels).value;
            s == PrintItems(r.value) + r.rest && ItemsGood(r.value, levels - 1)
    decreases Fuel(levels), |s|, 0
  {
    hide PrintItems, ItemsGood, Print, ReadTree, Distinct, Within, TreeOk;
    TreeSound(s, levels - 1);
    var tree := ReadTree(s, levels - 1).value;
    var n := SpaceRun(tree.rest);
    var item, after := Item(tree.value, tree.rest[..n]), tree.rest[n..];
    assert tree.rest == item.trail + after && after == after[..1] + after[1..];
    if StartsWith(after, CLOSE_BRACKET) {
      assert after[..1] == [CLOSE_BRACKET];
      ItemsText(item, [], levels - 1);
      Split3(Print(item.tree), item.trail, [CLOSE_BRACKET], after[1..]);
      assert [item] + [] == [item];
    } else {
      assert after[..1] == [COMMA];
      ItemsSound(after[1..], levels);
      var items := ReadItems(after[1..], levels).value;
      ItemsText(item, items.value, levels - 1);
      Split5(Print(item.tree), item.trail, [COMMA], PrintItems(items.value), items.rest);
    }
  }

  lemma {:induction false} Split5(a: Text, b: Text, c: Text, d: Text, e: Text)
    ensures a + (b + (c + (d + e))) == (a + b + (c + d)) + e
  {
  }

  lemma {:induction false} Split3(a: Text, b: Text, c: Text, d: Text)
    ensures a + (b + (c + d)) == (a + b + c) + d
  {
  }

  lemma {:induction false} KeySound(s: Text, keys: set<Text>)
    requires ReadKey(s, keys).Some?
    ensures var r := ReadKey(s, keys).value;
            && s == r.value.lead + PrintString(r.value.key) + r.value.mid + [COLON] + r.rest
            && AllSpace(r.value.lead) && PiecesOk(r.value.key) && AllSpace(r.value.mid) && Decode(r.value.key) !in keys
  {
    hide ReadString, PrintString, SpaceRun, Decode;
    var n := SpaceRun(s);
    var key := ReadString(s[n..]).value;
    var k := SpaceRun(key.rest);
    var after := key.rest[k..];
    assert after == [COLON] + after[1..] && after[1..] == key.rest[k + 1..];
    assert s == s[..n] + s[n..];
    assert key.rest == key.rest[..k] + after;
    Split4(s[..n], PrintString(key.value), key.rest[..k], [COLON], after[1..]);
  }

  lemma {:induction false} Split4(a: Text, b: Text, c: Text, d: Text, e: Text)
    ensures a + (b + (c + (d + e))) == a + b + c + d + e
  {
  }

  lemma {:induction false} MembersText(member: Member, members: seq<Member>, levels: int, keys: set<Text>)
    requires MemberOk(member) && Distinct(member.tree.node) && Within(member.tree.node, levels) && Decode(member.key) !in keys
    requires members != [] ==> MembersGood(members, levels, keys + {Decode(member.key)})
    ensures PrintMembers([member] + members)
         == member.lead + PrintString(member.key) + member.mid + [COLON] + Print(member.tree) + member.trail
            + (if members == [] then [CLOSE_BRACE] else [COMMA] + PrintMembers(members))
    ensures MembersGood([member] + members, levels, keys)
  {
    hide Decode, Distinct, Within, MemberOk;
    assert ([member] + members)[1..] == members;
  }

  lemma {:induction false} MembersSound(s: Text, levels: int, keys: set<Text>)
    requires levels >= 0 && ReadMembers(s, levels, keys).Some?
    ensures var r := ReadMembers(s, levels, keys).value;
            s == PrintMembers(r.value) + r.rest && MembersGood(r.value, levels - 1, keys)
    decreases Fuel(levels), |s|, 0
  {
    hide ReadKey, PrintString, PrintMembers, MembersGood, Print, ReadTree, Distinct, Within, TreeOk, PiecesOk, Decode;
    KeySound(s, keys);
    var start := ReadKey(s, keys).value;
    TreeSound(start.rest, levels - 1);
    var tree := ReadTree(start.rest, levels - 1).value;
    var n := SpaceRun(tree.rest);
    var member := start.value.(tree := tree.value, trail := tree.rest[..n]);
    var after := tree.rest[n..];
    var head := member.lead + PrintString(member.key) + member.mid + [COLON];
    assert s == head + start.rest;
    assert tree.rest == member.trail + after && after == after[..1] + after[1..];
    if StartsWith(after, CLOSE_BRACE) {
      assert after[..1] == [CLOSE_BRACE];
      MembersText(member, [], levels - 1, keys);
      Split4(head, Print(member.tree), member.trail, [CLOSE_BRACE], after[1..]);
      assert [member] + [] == [member];
    } else {
      assert after[..1] == [COMMA];
      MembersSound(after[1..], levels, keys + {Decode(member.key)});
      var members := ReadMembers(after[1..], levels, keys + {Decode(member.key)}).value;
      MembersText(member, members.value, levels - 1, keys);
      Split6(head, Print(member.tree), member.trail, [COMMA], PrintMembers(members.value), members.rest);
    }
  }

  lemma {:induction false} Split6(a: Text, b: Text, c: Text, d: Text, e: Text, f: Text)
    ensures a + (b + (c + (d + (e + f)))) == (a + b + c + (d + e)) + f
  {
  }

  // ---- what is printed is read -----------------------------------------------------------------

  lemma {:induction false} SpaceRead(t: Text, rest: Text)
    requires AllSpace(t) && (rest == [] || !Whitespace(rest[0]))
    ensures SpaceRun(t + rest) == |t| && (t + rest)[..|t|] == t && (t + rest)[|t|..] == rest
  {
    if t == [] {
      assert t + rest == rest;
    } else {
      assert (t + rest)[1..] == t[1..] + rest;
      SpaceRead(t[1..], rest);
    }
  }

  lemma {:induction false} DigitsRead(t: Text, rest: Text)
    requires AllDigits(t) && (rest == [] || !Digit(rest[0]))
    ensures DigitRun(t + rest) == |t| && (t + rest)[..|t|] == t && (t + rest)[|t|..] == rest
  {
    if t == [] {
      assert t + rest == rest;
    } else {
      assert (t + rest)[1..] == t[1..] + rest;
      DigitsRead(t[1..], rest);
    }
  }

  lemma {:induction false} PieceRead(p: Piece, rest: Text)
    requires PieceOk(p)
    ensures PrintPiece(p) + rest != [] && ReadPiece(PrintPiece(p) + rest) == Some(Parsed(p, rest))
  {
    var s := PrintPiece(p) + rest;
    assert s[|PrintPiece(p)|..] == rest;
  }

  function Shift(n: Option<nat>, k: nat): Option<nat> {
    if n.None? then None else Some(n.value + k)
  }

  lemma {:induction false} QuoteSkips(u: Unit, rest: Text)
    requires u != QUOTE && u != BACKSLASH
    ensures QuoteAt([u] + rest) == Shift(QuoteAt(rest), 1)
  {
    assert ([u] + rest)[1..] == rest;
  }

  lemma {:induction false} QuoteSkipsTwo(u: Unit, rest: Text)
    ensures QuoteAt([BACKSLASH, u] + rest) == Shift(QuoteAt(rest), 2)
  {
    assert ([BACKSLASH, u] + rest)[2..] == rest;
  }

  lemma {:induction false} PieceHoldsNoQuote(p: Piece, rest: Text)
    requires PieceOk(p)
    ensures QuoteAt(PrintPiece(p) + rest) == Shift(QuoteAt(rest), |PrintPiece(p)|)
  {
    hide QuoteAt;
    match p
    case Plain(u) => QuoteSkips(u, rest);
    case Short(u) => QuoteSkipsTwo(u, rest);
    case Hex(a, b, c, d) =>
      QuoteSkips(d, rest);
      QuoteSkips(c, [d] + rest);
      QuoteSkips(b, [c] + ([d] + rest));
      QuoteSkips(a, [b] + ([c] + ([d] + rest)));
      QuoteSkipsTwo(117, [a] + ([b] + ([c] + ([d] + rest))));
      assert [BACKSLASH, 117] + ([a] + ([b] + ([c] + ([d] + rest)))) == PrintPiece(p) + rest;
  }

  lemma {:induction false} PiecesRead(ps: seq<Piece>, rest: Text)
    requires PiecesOk(ps)
    ensures ReadPieces(PrintPieces(ps)) == Some(ps)
    ensures QuoteAt(PrintPieces(ps) + ([QUOTE] + rest)) == Some(|PrintPieces(ps)|)
  {
    if ps == [] {
      assert PrintPieces(ps) + ([QUOTE] + rest) == [QUOTE] + rest;
    } else {
      PieceRead(ps[0], PrintPieces(ps[1..]));
      PiecesRead(ps[1..], rest);
      assert [ps[0]] + ps[1..] == ps;
      PieceHoldsNoQuote(ps[0], PrintPieces(ps[1..]) + ([QUOTE] + rest));
      Associate(PrintPiece(ps[0]), PrintPieces(ps[1..]), [QUOTE] + rest);
    }
  }

  lemma {:induction false} StringRead(ps: seq<Piece>, rest: Text)
    requires PiecesOk(ps)
    ensures ReadString(PrintString(ps) + rest) == Some(Parsed(ps, rest))
  {
    hide PiecesOk, QuoteAt, ReadPieces, PrintPieces;
    PiecesRead(ps, rest);
    var t := PrintPieces(ps);
    var s := PrintString(ps) + rest;
    assert s[1..] == t + ([QUOTE] + rest);
    assert s[1..1 + |t|] == t && s[|t| + 2..] == rest;
  }

  /** What may follow a value: the end, whitespace, or a separator. */
  predicate Delimited(rest: Text) {
    rest == [] || Whitespace(rest[0]) || rest[0] == COMMA || rest[0] == CLOSE_BRACE || rest[0] == CLOSE_BRACKET
  }

  lemma {:induction false} ExponentRead(e: Option<Exponent>, rest: Text)
    requires (e.Some? ==> ExponentOk(e.value)) && Delimited(rest)
    ensures ReadExponent(PrintExponent(e) + rest) == Parsed(e, rest)
  {
    if e.None? {
      assert PrintExponent(e) + rest == rest;
    } else {
      hide ReadDigits, AllDigits, ReadSign;
      ExponentSplit(e.value, rest);
      SignRead(e.value, rest);
      DigitsReadAll(e.value.digits, rest);
    }
  }

  lemma {:induction false} ExponentSplit(e: Exponent, rest: Text)
    ensures var s := PrintExponent(Some(e)) + rest;
            s[0] == e.letter && s[1..] == e.sign + (e.digits + rest) && s[1..][|e.sign|..] == e.digits + rest
  {
  }

  /** The sign is read off where it stands, and only there. */
  lemma {:induction false} SignRead(e: Exponent, rest: Text)
    requires ExponentOk(e)
    ensures ReadSign(e.sign + (e.digits + rest)) == e.sign
  {
    DigitsStart(e.digits);
    if e.sign == [] { assert (e.sign + (e.digits + rest))[0] == e.digits[0]; }
  }

  lemma {:induction false} DigitsReadAll(t: Text, rest: Text)
    requires t != [] && AllDigits(t) && (rest == [] || !Digit(rest[0]))
    ensures ReadDigits(t + rest) == Some(Parsed(t, rest))
  {
    DigitsRead(t, rest);
  }

  lemma {:induction false} DigitsStart(t: Text)
    requires t != [] && AllDigits(t)
    ensures Digit(t[0])
  {
  }

  lemma {:induction false} ExponentHead(e: Option<Exponent>, rest: Text)
    requires (e.Some? ==> ExponentOk(e.value)) && Delimited(rest)
    ensures var s := PrintExponent(e) + rest; s == [] || (!Digit(s[0]) && s[0] != DOT)
  {
  }

  lemma {:induction false} FractionHead(t: Text, rest: Text)
    requires rest == [] || !Digit(rest[0])
    ensures var s := PrintFraction(t) + rest; s == [] || !Digit(s[0])
  {
  }

  lemma {:induction false} FractionRead(t: Text, rest: Text)
    requires AllDigits(t) && (rest == [] || (!Digit(rest[0]) && rest[0] != DOT))
    ensures ReadFraction(PrintFraction(t) + rest) == Parsed(t, rest)
  {
    var s := PrintFraction(t) + rest;
    if t == [] {
      assert s == rest;
    } else {
      DigitsRead(t, rest);
      assert s[1..] == t + rest;
    }
  }

  lemma {:induction false} WholeRead(t: Text, rest: Text)
    requires WholeOk(t) && (rest == [] || !Digit(rest[0]))
    ensures ReadWhole(t + rest) == Some(Parsed(t, rest))
  {
    if t == [ZERO] {
      assert (t + rest)[..1] == t && (t + rest)[1..] == rest;
    } else {
      DigitsRead(t, rest);
    }
  }

  lemma {:induction false} NumberRead(n: Number, rest: Text)
    requires NumberOk(n) && Delimited(rest)
    ensures ReadNumber(PrintNumber(n) + rest) == Some(Parsed(n, rest))
  {
    hide ReadFraction, ReadExponent, ReadWhole, AllDigits, PrintFraction, PrintExponent, WholeOk, ExponentOk, Delimited;
    var e := PrintExponent(n.exponent) + rest;
    var f := PrintFraction(n.fraction) + e;
    ExponentRead(n.exponent, rest);
    ExponentHead(n.exponent, rest);
    FractionRead(n.fraction, e);
    FractionHead(n.fraction, e);
    WholeRead(n.whole, f);
    WholeStart(n.whole);
    NumberText(n, rest);
  }

  lemma {:induction false} NumberText(n: Number, rest: Text)
    ensures var unsigned := n.whole + (PrintFraction(n.fraction) + (PrintExponent(n.exponent) + rest));
            PrintNumber(n) + rest == if n.negative then [MINUS] + unsigned else unsigned
    ensures n.negative ==> (PrintNumber(n) + rest)[1..] == n.whole + (PrintFraction(n.fraction) + (PrintExponent(n.exponent) + rest))
  {
    hide PrintFraction, PrintExponent;
  }

  lemma {:induction false} WholeStart(t: Text)
    requires WholeOk(t)
    ensures t != [] && Digit(t[0])
  {
  }

  /** A value starts with a character of its own. */
  lemma NodeStart(n: Node)
    requires NodeOk(n)
    ensures var s := PrintNode(n);
            s != [] && !Whitespace(s[0]) && s[0] != CLOSE_BRACE && s[0] != CLOSE_BRACKET
    ensures n.Num? ==> FirstUnit(n) != OPEN_BRACE && FirstUnit(n) != OPEN_BRACKET && FirstUnit(n) != QUOTE
                       && FirstUnit(n) != TRUE[0] && FirstUnit(n) != FALSE[0] && FirstUnit(n) != NULL[0]
  {
    hide PrintItems, PrintMembers, PrintPieces;
    if n.Num? { WholeStart(n.number.whole); }
  }

  function FirstUnit(n: Node): Unit {
    if PrintNode(n) != [] then PrintNode(n)[0] else 0
  }

  lemma {:induction false} TokenRead(n: Node, rest: Text)
    requires NodeOk(n) && (n.True? || n.False? || n.Null? || n.Num?) && Delimited(rest)
    ensures ReadToken(PrintNode(n) + rest) == Some(Parsed(n, rest))
  {
    hide ReadNumber, NumberOk, PrintNumber;
    var s := PrintNode(n) + rest;
    if n.Num? {
      NodeStart(n);
      NumberRead(n.number, rest);
      NotLiteral(s);
    } else {
      assert s[|PrintNode(n)|..] == rest;
      assert s[..|PrintNode(n)|] == PrintNode(n);
      assert s[0] == PrintNode(n)[0] == (match n case True => 116 case False => 102 case _ => 110);
    }
  }

  lemma {:induction false} NotLiteral(s: Text)
    requires s != [] && s[0] != TRUE[0] && s[0] != FALSE[0] && s[0] != NULL[0]
    ensures !(TRUE <= s) && !(FALSE <= s) && !(NULL <= s)
  {
  }

  lemma {:induction false} TreeRead(t: Tree, rest: Text, levels: int)
    requires TreeOk(t) && Delimited(rest)
    ensures ReadTree(Print(t) + rest, levels) == if TreeGood(t, levels) then Some(Parsed(t, rest)) else None
    decreases t
  {
    hide PrintNode, NodeOk, Distinct, Within, ReadNode;
    if levels < 0 {
      TooDeep(t.node, levels);
    } else {
      NodeStart(t.node);
      SpaceRead(t.lead, PrintNode(t.node) + rest);
      Associate(t.lead, PrintNode(t.node), rest);
      NodeRead(t.node, rest, levels);
    }
  }

  lemma TooDeep(n: Node, levels: int)
    requires levels < 0
    ensures !Within(n, levels)
  {
  }

  lemma {:induction false} NodeRead(n: Node, rest: Text, levels: int)
    requires NodeOk(n) && Delimited(rest) && levels >= 0
    ensures ReadNode(PrintNode(n) + rest, levels)
         == if Distinct(n) && Within(n, levels) then Some(Parsed(n, rest)) else None
    decreases n, 1
  {
    hide ReadToken, ReadString, PrintString, Delimited, ReadMembers, ReadItems, PrintMembers, PrintItems;
    var s := PrintNode(n) + rest;
    match n
    case Obj(pad, members) => ObjectRead(pad, members, rest, levels);
    case Arr(pad, items) => ArrayRead(pad, items, rest, levels);
    case Str(pieces) =>
      StringRead(pieces, rest);
      NodeStartsString(pieces, rest);
    case _ =>
      TokenRead(n, rest);
      NodeStart(n);
      assert s[0] == PrintNode(n)[0];
  }

  lemma {:induction false} ObjectRead(pad: Text, members: seq<Member>, rest: Text, levels: int)
    requires NodeOk(Obj(pad, members)) && levels >= 0
    ensures ReadNode(PrintNode(Obj(pad, members)) + rest, levels)
         == if Distinct(Obj(pad, members)) && Within(Obj(pad, members), levels) then Some(Parsed(Obj(pad, members), rest)) else None
    decreases members, 1
  {
    hide PrintMembers, ReadMembers, MembersGood, SpaceRun, MemberOk;
    if members == [] {
      PadRead(OPEN_BRACE, pad, CLOSE_BRACE, rest);
    } else {
      assert pad == [];
      ListText(OPEN_BRACE, PrintMembers(members), rest);
      MembersStart(members, rest);
      MembersRead(members, rest, levels, {});
      MembersGoodExactly(members, levels);
    }
  }

  lemma {:induction false} ArrayRead(pad: Text, items: seq<Item>, rest: Text, levels: int)
    requires NodeOk(Arr(pad, items)) && levels >= 0
    ensures ReadNode(PrintNode(Arr(pad, items)) + rest, levels)
         == if Distinct(Arr(pad, items)) && Within(Arr(pad, items), levels) then Some(Parsed(Arr(pad, items), rest)) else None
    decreases items, 1
  {
    hide PrintItems, ReadItems, ItemsGood, SpaceRun, ItemOk;
    if items == [] {
      PadRead(OPEN_BRACKET, pad, CLOSE_BRACKET, rest);
    } else {
      assert pad == [];
      ListText(OPEN_BRACKET, PrintItems(items), rest);
      ItemsStart(items, rest);
      ItemsRead(items, rest, levels);
      ItemsGoodExactly(items, levels);
    }
  }

  lemma {:induction false} PadRead(opening: Unit, pad: Text, closing: Unit, rest: Text)
    requires AllSpace(pad) && !Whitespace(closing)
    ensures var s := [opening] + (pad + [closing]) + rest;
            && s[0] == opening && SpaceRun(s[1..]) == |pad| && StartsWith(s[1..][|pad|..], closing)
            && s[1..][..|pad|] == pad && s[1..][|pad| + 1..] == rest
  {
    var s := [opening] + (pad + [closing]) + rest;
    assert s[1..] == pad + ([closing] + rest);
    SpaceRead(pad, [closing] + rest);
  }

  lemma {:induction false} ListText(opening: Unit, list: Text, rest: Text)
    ensures var s := [opening] + list + rest; s[0] == opening && s[1..] == list + rest
  {
  }

  lemma {:induction false} NodeStartsString(pieces: seq<Piece>, rest: Text)
    ensures (PrintString(pieces) + rest)[0] == QUOTE
  {
  }

  lemma {:induction false} MembersStart(members: seq<Member>, rest: Text)
    requires members != [] && MemberOk(members[0])
    ensures var s := PrintMembers(members) + rest; !StartsWith(s[SpaceRun(s)..], CLOSE_BRACE)
  {
    hide PrintPieces;
    var s := PrintMembers(members) + rest;
    var tail := s[|members[0].lead|..];
    assert s == members[0].lead + tail && tail[0] == QUOTE;
    SpaceRead(members[0].lead, tail);
  }

  lemma {:induction false} Split2(a: Text, b: Text, c: Text, d: Text, e: Text)
    ensures ((a + b) + c + d) + e == a + (b + (c + d + e))
  {
  }

  lemma {:induction false} ItemsStart(items: seq<Item>, rest: Text)
    requires items != [] && ItemOk(items[0])
    ensures var s := PrintItems(items) + rest; !StartsWith(s[SpaceRun(s)..], CLOSE_BRACKET)
  {
    hide PrintNode, NodeOk;
    var s := PrintItems(items) + rest;
    var t := items[0].tree;
    var end := if |items| == 1 then [CLOSE_BRACKET] else [COMMA] + PrintItems(items[1..]);
    var tail := PrintNode(t.node) + (items[0].trail + end + rest);
    NodeStart(t.node);
    assert Print(t) == t.lead + PrintNode(t.node);
    assert PrintItems(items) == Print(t) + items[0].trail + end;
    Split2(t.lead, PrintNode(t.node), items[0].trail, end, rest);
    assert s == t.lead + tail;
    assert tail != [] && tail[0] == PrintNode(t.node)[0];
    assert s == t.lead + tail && tail[0] == PrintNode(t.node)[0];
    SpaceRead(t.lead, tail);
  }

  lemma {:induction false} MembersGoodExactly(members: seq<Member>, levels: nat)
    requires members != [] && forall m :: m in members ==> MemberOk(m)
    ensures MembersGood(members, levels - 1, {}) <==> Distinct(Obj([], members)) && Within(Obj([], members), levels)
  {
    hide MemberOk, KeysDiffer;
  }

  lemma {:induction false} ItemsGoodExactly(items: seq<Item>, levels: nat)
    requires items != [] && forall i :: i in items ==> ItemOk(i)
    ensures ItemsGood(items, levels - 1) <==> Distinct(Arr([], items)) && Within(Arr([], items), levels)
  {
    hide ItemOk;
  }

  // ---- lists -----------------------------------------------------------------------------------

  lemma {:induction false} ItemsGoodStep(items: seq<Item>, levels: int)
    requires items != [] && forall i :: i in items ==> ItemOk(i)
    ensures ItemsGood(items, levels) <==> TreeGood(items[0].tree, levels) && (|items| == 1 || ItemsGood(items[1..], levels))
  {
    hide Distinct, Within, TreeOk, AllSpace;
    assert items == [items[0]] + items[1..];
  }

  lemma {:induction false} KeysDifferStep(members: seq<Member>)
    requires members != []
    ensures KeysDiffer(members) <==> KeysDiffer(members[1..]) && forall q :: q in members[1..] ==> Decode(q.key) != Decode(members[0].key)
  {
    hide Decode;
    var tail := members[1..];
    assert forall i :: 0 <= i < |tail| ==> tail[i] == members[i + 1];
    if KeysDiffer(members) {
      forall q | q in tail ensures Decode(q.key) != Decode(members[0].key) {
        var i :| 0 <= i < |tail| && tail[i] == q;
        assert Decode(members[0].key) != Decode(members[i + 1].key);
      }
      forall i, j | 0 <= i < j < |tail| ensures Decode(tail[i].key) != Decode(tail[j].key) {
        assert Decode(members[i + 1].key) != Decode(members[j + 1].key);
      }
    } else {
      var i, j :| 0 <= i < j < |members| && Decode(members[i].key) == Decode(members[j].key);
      assert members[j] == tail[j - 1];
      if i > 0 { assert members[i] == tail[i - 1]; }
    }
  }

  lemma {:induction false} MembersGoodStep(members: seq<Member>, levels: int, keys: set<Text>)
    requires members != [] && forall m :: m in members ==> MemberOk(m)
    ensures MembersGood(members, levels, keys)
       <==> Decode(members[0].key) !in keys && TreeGood(members[0].tree, levels)
            && (|members| == 1 || MembersGood(members[1..], levels, keys + {Decode(members[0].key)}))
  {
    hide Distinct, Within, TreeOk, AllSpace, PiecesOk, Decode, KeysDiffer;
    KeysDifferStep(members);
    if |members| == 1 { KeysOfNone(); }
    assert members == [members[0]] + members[1..];
  }

  lemma KeysOfNone()
    ensures KeysDiffer([])
  {
  }

  /** A separator or a closing bracket, and what stands behind it. */
  lemma {:induction false} TrailRead(trail: Text, mark: Unit, rest: Text)
    requires AllSpace(trail) && (mark == COMMA || mark == CLOSE_BRACE || mark == CLOSE_BRACKET)
    ensures var s := trail + ([mark] + rest);
            && Delimited(s) && SpaceRun(s) == |trail| && s[..|trail|] == trail && s[|trail|..] == [mark] + rest
            && ([mark] + rest)[1..] == rest
  {
    SpaceRead(trail, [mark] + rest);
  }

  lemma {:induction false} ItemsRead(items: seq<Item>, rest: Text, levels: int)
    requires items != [] && (forall i :: i in items ==> ItemOk(i)) && levels >= 0
    ensures ReadItems(PrintItems(items) + rest, levels)
         == if ItemsGood(items, levels - 1) then Some(Parsed(items, rest)) else None
    decreases items, 0
  {
    hide ItemsGood, TreeGood, ReadTree, Print, SpaceRun, Delimited;
    var item, tail := items[0], items[1..];
    ItemsGoodStep(items, levels - 1);
    assert ItemOk(item);
    if |items| == 1 {
      var after := item.trail + ([CLOSE_BRACKET] + rest);
      TrailRead(item.trail, CLOSE_BRACKET, rest);
      TreeRead(item.tree, after, levels - 1);
      Split3(Print(item.tree), item.trail, [CLOSE_BRACKET], rest);
      assert items == [Item(item.tree, item.trail)];
    } else {
      var after := item.trail + ([COMMA] + (PrintItems(tail) + rest));
      TrailRead(item.trail, COMMA, PrintItems(tail) + rest);
      TreeRead(item.tree, after, levels - 1);
      ItemsRead(tail, rest, levels);
      Split5(Print(item.tree), item.trail, [COMMA], PrintItems(tail), rest);
      assert items == [Item(item.tree, item.trail)] + tail;
    }
  }

  lemma {:induction false} KeyRead(m: Member, rest: Text, keys: set<Text>)
    requires AllSpace(m.lead) && PiecesOk(m.key) && AllSpace(m.mid)
    ensures ReadKey(m.lead + PrintString(m.key) + m.mid + [COLON] + rest, keys)
         == if Decode(m.key) in keys then None else Some(Parsed(Member(m.lead, m.key, m.mid, Tree([], Null), []), rest))
  {
    hide ReadString, SpaceRun, PiecesOk, PrintPieces, Decode;
    var after := m.mid + ([COLON] + rest);
    var s := m.lead + (PrintString(m.key) + after);
    assert s == m.lead + PrintString(m.key) + m.mid + [COLON] + rest;
    SpaceRead(m.lead, PrintString(m.key) + after);
    StringRead(m.key, after);
    SpaceRead(m.mid, [COLON] + rest);
    assert after[|m.mid|..][1..] == rest && after[|m.mid| + 1..] == after[|m.mid|..][1..];
  }

  lemma {:induction false} MembersRead(members: seq<Member>, rest: Text, levels: int, keys: set<Text>)
    requires members != [] && (forall m :: m in members ==> MemberOk(m)) && levels >= 0
    ensures ReadMembers(PrintMembers(members) + rest, levels, keys)
         == if MembersGood(members, levels - 1, keys) then Some(Parsed(members, rest)) else None
    decreases members, 0
  {
    hide MembersGood, TreeGood, ReadTree, Print, SpaceRun, Delimited, ReadKey, PrintString, Decode, TreeOk, PiecesOk;
    var m, tail := members[0], members[1..];
    MembersGoodStep(members, levels - 1, keys);
    assert MemberOk(m);
    var head := m.lead + PrintString(m.key) + m.mid + [COLON];
    if |members| == 1 {
      var after := m.trail + ([CLOSE_BRACE] + rest);
      TrailRead(m.trail, CLOSE_BRACE, rest);
      TreeRead(m.tree, after, levels - 1);
      Split4(head, Print(m.tree), m.trail, [CLOSE_BRACE], rest);
      KeyRead(m, Print(m.tree) + after, keys);
      assert members == [m];
    } else {
      var after := m.trail + ([COMMA] + (PrintMembers(tail) + rest));
      TrailRead(m.trail, COMMA, PrintMembers(tail) + rest);
      TreeRead(m.tree, after, levels - 1);
      MembersRead(tail, rest, levels, keys + {Decode(m.key)});
      Split6(head, Print(m.tree), m.trail, [COMMA], PrintMembers(tail), rest);
      KeyRead(m, Print(m.tree) + after, keys);
      assert members == [m] + tail;
    }
  }

  // ---- the manifest ----------------------------------------------------------------------------

  /** Printed values are accepted exactly when they are no deeper than 64 and repeat no name, and are read back whole. */
  lemma {:induction false} PrintedIsAccepted(t: Tree, trail: Text)
    requires TreeOk(t) && AllSpace(trail)
    ensures Scan(Print(t) + trail) == if Distinct(t.node) && Within(t.node, MAX_DEPTH) then Some(t) else None
  {
    hide ReadTree, Print, TreeOk, Distinct, Within;
    TreeRead(t, trail, MAX_DEPTH);
    SpaceRead(trail, []);
    assert trail + [] == trail;
  }

  /** And nothing else is accepted. */
  lemma {:induction false} AcceptedIsPrinted(source: Text)
    requires Scan(source).Some?
    ensures var t := Scan(source).value;
            && TreeOk(t) && Distinct(t.node) && Within(t.node, MAX_DEPTH)
            && exists trail :: AllSpace(trail) && source == Print(t) + trail
  {
    hide ReadTree, Print;
    TreeSound(source, MAX_DEPTH);
    var rest := ReadTree(source, MAX_DEPTH).value.rest;
    assert rest[..|rest|] == rest;
    assert AllSpace(rest) && source == Print(Scan(source).value) + rest;
  }
}
