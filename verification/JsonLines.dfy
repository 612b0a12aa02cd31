/**
 The text of a JSON value as `JSON.stringify` writes it is one line, and neither begins nor ends
 with whitespace.
 */
module JsonLines {
  import opened JsonGrammar
  import opened JsonScanTheorems
  import opened JsonText

  const LF: Unit := 10

  predicate OneLine(t: Text) {
    forall i :: 0 <= i < |t| ==> t[i] != LF
  }

  /** A node without whitespace of its own. */
  predicate Compact(n: Node) {
    match n
    case Arr(pad, items) => pad == [] && forall i :: i in items ==> i.tree.lead == [] && i.trail == [] && Compact(i.tree.node)
    case Obj(pad, members) =>
      pad == [] && forall m :: m in members ==> m.lead == [] && m.mid == [] && m.tree.lead == [] && m.trail == [] && Compact(m.tree.node)
    case _ => true
  }

  lemma {:induction false} NodeIsCompact(j: Json)
    ensures Compact(ToNode(j))
    decreases j
  {
    match j
    case JArray(items) =>
      forall i | i in ToItems(items) ensures i.tree.lead == [] && i.trail == [] && Compact(i.tree.node) {
        var k :| 0 <= k < |items| && ToItems(items)[k] == i;
        ItemsAt(items, k);
        NodeIsCompact(items[k]);
      }
    case JObject(entries) =>
      forall m | m in ToMembers(entries)
        ensures m.lead == [] && m.mid == [] && m.tree.lead == [] && m.trail == [] && Compact(m.tree.node)
      {
        var k :| 0 <= k < |entries| && ToMembers(entries)[k] == m;
        MembersAt(entries, k);
        NodeIsCompact(entries[k].value);
      }
    case _ =>
  }

  lemma {:induction false} PiecesAreOneLine(ps: seq<Piece>)
    requires PiecesOk(ps)
    ensures OneLine(PrintPieces(ps))
  {
    if ps != [] {
      PiecesAreOneLine(ps[1..]);
      PieceIsOneLine(ps[0]);
    }
  }

  lemma PieceIsOneLine(p: Piece)
    requires PieceOk(p)
    ensures OneLine(PrintPiece(p))
  {
  }

  lemma NumberIsOneLine(n: Number)
    requires NumberOk(n)
    ensures OneLine(PrintNumber(n))
  {
    assert OneLine(n.whole) && OneLine(PrintFraction(n.fraction)) && OneLine(PrintExponent(n.exponent));
  }

  lemma {:induction false} NodeIsOneLine(n: Node)
    requires NodeOk(n) && Compact(n)
    ensures OneLine(PrintNode(n))
    decreases n
  {
    match n
    case Num(number) => NumberIsOneLine(number);
    case Str(pieces) => PiecesAreOneLine(pieces);
    case Arr(pad, items) => if items != [] { ItemsAreOneLine(items); }
    case Obj(pad, members) => if members != [] { MembersAreOneLine(members); }
    case _ =>
  }

  lemma {:induction false} ItemsAreOneLine(items: seq<Item>)
    requires items != [] && forall i :: i in items ==> ItemOk(i) && i.tree.lead == [] && i.trail == [] && Compact(i.tree.node)
    ensures OneLine(PrintItems(items))
    decreases items
  {
    ItemInside(items[0]);
    NodeIsOneLine(items[0].tree.node);
    if |items| > 1 { ItemsAreOneLine(items[1..]); }
  }

  lemma ItemInside(i: Item)
    requires ItemOk(i)
    ensures NodeOk(i.tree.node)
  {
    hide NodeOk;
    assert TreeOk(i.tree);
  }

  lemma MemberInside(m: Member)
    requires MemberOk(m)
    ensures NodeOk(m.tree.node)
  {
    hide NodeOk;
    assert TreeOk(m.tree);
  }

  predicate CompactMember(m: Member) {
    MemberOk(m) && m.lead == [] && m.mid == [] && m.tree.lead == [] && m.trail == [] && Compact(m.tree.node)
  }

  lemma {:induction false} MembersAreOneLine(members: seq<Member>)
    requires members != [] && forall m :: m in members ==> CompactMember(m)
    ensures OneLine(PrintMembers(members))
    decreases members
  {
    var m := members[0];
    assert m in members && CompactMember(m);
    MemberInside(m);
    NodeIsOneLine(m.tree.node);
    PiecesAreOneLine(m.key);
    if |members| > 1 { MembersAreOneLine(members[1..]); }
    MemberText(m, if |members| == 1 then [CLOSE_BRACE] else [COMMA] + PrintMembers(members[1..]));
  }

  lemma {:induction false} MemberText(m: Member, rest: Text)
    requires CompactMember(m) && OneLine(PrintNode(m.tree.node)) && OneLine(PrintPieces(m.key)) && OneLine(rest)
    ensures OneLine(m.lead + PrintString(m.key) + m.mid + [COLON] + Print(m.tree) + m.trail + rest)
  {
    hide PrintPieces, PrintNode, Compact, MemberOk;
  }

  // ---- the end of a text -------------------------------------------------------------------------

  predicate EndsDark(t: Text) {
    t != [] && !Whitespace(t[|t| - 1])
  }

  lemma {:induction false} ItemsEnd(items: seq<Item>)
    requires items != []
    ensures EndsDark(PrintItems(items))
  {
    if |items| > 1 { ItemsEnd(items[1..]); }
  }

  lemma {:induction false} MembersEnd(members: seq<Member>)
    requires members != []
    ensures EndsDark(PrintMembers(members))
  {
    hide PrintString;
    if |members| > 1 { MembersEnd(members[1..]); }
  }

  lemma NodeEnd(n: Node)
    requires NodeOk(n)
    ensures EndsDark(PrintNode(n))
  {
    hide PrintItems, PrintMembers;
    match n
    case Num(number) => NumberEnd(number);
    case Arr(pad, items) => if items != [] { ItemsEnd(items); }
    case Obj(pad, members) => if members != [] { MembersEnd(members); }
    case _ =>
  }

  lemma NumberEnd(n: Number)
    requires NumberOk(n)
    ensures EndsDark(PrintNumber(n))
  {
    WholeStart(n.whole);
    var t := PrintNumber(n);
    assert Digit(t[|t| - 1]);
  }

  /** One line, dark at both ends. */
  lemma StringifyIsOneLine(j: Json)
    requires JsonOk(j)
    ensures var t := Stringify(j); OneLine(t) && EndsDark(t) && !Whitespace(t[0])
  {
    hide Distinct, Within, PrintNode, NodeOk, ToNode;
    NodeFits(j, Height(j));
    NodeIsCompact(j);
    NodeIsOneLine(ToNode(j));
    NodeEnd(ToNode(j));
    NodeStart(ToNode(j));
  }
}
