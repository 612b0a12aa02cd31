/**
 JSON values and their text as `JSON.stringify` writes it.  A number is the spelling its value
 prints as, and an object is the list of its members in the order they have.
 */
module JsonText {
  import opened JsonGrammar
  import opened JsonReader
  import opened JsonScanTheorems
  import opened JsonSpelling

  datatype Entry<V> = Entry(key: Text, value: V)

  datatype Json =
    | JNull
    | JBool(b: bool)
    | JNumber(number: Number)
    | JString(text: Text)
    | JArray(items: seq<Json>)
    | JObject(entries: seq<Entry<Json>>)

  predicate KeysOnce<V>(entries: seq<Entry<V>>) {
    forall i, j :: 0 <= i < j < |entries| ==> entries[i].key != entries[j].key
  }

  predicate JsonOk(j: Json) {
    match j
    case JNumber(n) => NumberOk(n)
    case JArray(items) => forall i :: i in items ==> JsonOk(i)
    case JObject(entries) => KeysOnce(entries) && forall e :: e in entries ==> JsonOk(e.value)
    case _ => true
  }

  // ---- strings ---------------------------------------------------------------------------------

  predicate High(u: Unit) { 0xD800 <= u <= 0xDBFF }
  predicate Low(u: Unit) { 0xDC00 <= u <= 0xDFFF }

  function HexLetter(n: nat): (u: Unit)
    requires n < 16
    ensures HexDigit(u) && HexValue(u) == n
  {
    if n < 10 then 48 + n else 87 + n
  }

  lemma HexDigits(u: Unit)
    ensures u / 4096 < 16 && u % 4096 / 256 < 16 && u % 256 / 16 < 16
    ensures u == 4096 * (u / 4096) + 256 * (u % 4096 / 256) + 16 * (u % 256 / 16) + u % 16
  {
    assert u % 4096 == 256 * (u % 4096 / 256) + u % 256;
    assert u % 256 == 16 * (u % 256 / 16) + u % 16;
  }

  function HexOf(u: Unit): (p: Piece)
    ensures PieceOk(p) && DecodePiece(p) == u
  {
    HexDigits(u);
    Hex(HexLetter(u / 4096), HexLetter(u % 4096 / 256), HexLetter(u % 256 / 16), HexLetter(u % 16))
  }

  function Escaped(u: Unit): (p: Piece)
    ensures PieceOk(p) && DecodePiece(p) == u
  {
    if u == QUOTE || u == BACKSLASH then Short(u)
    else if u == 8 then Short(98)
    else if u == 9 then Short(116)
    else if u == 10 then Short(110)
    else if u == 12 then Short(102)
    else if u == 13 then Short(114)
    else if u < 32 then HexOf(u)
    else Plain(u)
  }

  /** Surrogates that do not stand in a pair are escaped. */
  function Pieces(s: Text): (ps: seq<Piece>)
    ensures PiecesOk(ps) && Decode(ps) == s
  {
    if s == [] then []
    else if High(s[0]) && |s| > 1 && Low(s[1]) then
      var rest := Pieces(s[2..]);
      assert [Plain(s[0])] + ([Plain(s[1])] + rest) == [Plain(s[0]), Plain(s[1])] + rest;
      assert ([Plain(s[0]), Plain(s[1])] + rest)[1..] == [Plain(s[1])] + rest && ([Plain(s[1])] + rest)[1..] == rest;
      [Plain(s[0]), Plain(s[1])] + rest
    else
      var p := if High(s[0]) || Low(s[0]) then HexOf(s[0]) else Escaped(s[0]);
      var rest := Pieces(s[1..]);
      assert ([p] + rest)[1..] == rest;
      [p] + rest
  }

  // ---- values ----------------------------------------------------------------------------------

  function ToNode(j: Json): Node {
    match j
    case JNull => Null
    case JBool(b) => if b then True else False
    case JNumber(n) => Num(n)
    case JString(text) => Str(Pieces(text))
    case JArray(items) => Arr([], ToItems(items))
    case JObject(entries) => Obj([], ToMembers(entries))
  }

  function ToItems(items: seq<Json>): (r: seq<Item>)
    ensures |r| == |items|
  {
    if items == [] then [] else [Item(Tree([], ToNode(items[0])), [])] + ToItems(items[1..])
  }

  function ToMembers(entries: seq<Entry<Json>>): (r: seq<Member>)
    ensures |r| == |entries|
  {
    if entries == [] then []
    else [Member([], Pieces(entries[0].key), [], Tree([], ToNode(entries[0].value)), [])] + ToMembers(entries[1..])
  }

  /** `JSON.stringify` */
  function Stringify(j: Json): Text {
    PrintNode(ToNode(j))
  }

  // ---- the text determines the value -------------------------------------------------------------

  lemma {:induction false} ItemsAt(items: seq<Json>, k: nat)
    requires k < |items|
    ensures ToItems(items)[k] == Item(Tree([], ToNode(items[k])), [])
    decreases items
  {
    if k > 0 { ItemsAt(items[1..], k - 1); }
  }

  lemma {:induction false} MembersAt(entries: seq<Entry<Json>>, k: nat)
    requires k < |entries|
    ensures ToMembers(entries)[k] == Member([], Pieces(entries[k].key), [], Tree([], ToNode(entries[k].value)), [])
    decreases entries
  {
    if k > 0 { MembersAt(entries[1..], k - 1); }
  }

  function Height(j: Json): nat {
    match j
    case JArray(items) => 1 + MaxHeight(items)
    case JObject(entries) => 1 + MaxEntryHeight(entries)
    case _ => 0
  }

  function MaxHeight(items: seq<Json>): (h: nat)
    ensures forall i :: i in items ==> Height(i) <= h
  {
    if items == [] then 0
    else
      var h, t := Height(items[0]), MaxHeight(items[1..]);
      assert items == [items[0]] + items[1..];
      if h < t then t else h
  }

  function MaxEntryHeight(entries: seq<Entry<Json>>): (h: nat)
    ensures forall e :: e in entries ==> Height(e.value) <= h
  {
    if entries == [] then 0
    else
      var h, t := Height(entries[0].value), MaxEntryHeight(entries[1..]);
      assert entries == [entries[0]] + entries[1..];
      if h < t then t else h
  }

  /** A JSON value is a node that the reader accepts, given enough levels. */
  lemma {:induction false} NodeFits(j: Json, levels: nat)
    requires JsonOk(j) && Height(j) <= levels
    ensures NodeOk(ToNode(j)) && Distinct(ToNode(j)) && Within(ToNode(j), levels)
    decreases j
  {
    match j
    case JArray(items) =>
      forall k | 0 <= k < |items| ensures NodeFitsAt(items[k], levels - 1) { NodeFits(items[k], levels - 1); }
      ItemsFit(items, levels);
    case JObject(entries) =>
      forall k | 0 <= k < |entries| ensures NodeFitsAt(entries[k].value, levels - 1) { NodeFits(entries[k].value, levels - 1); }
      EntriesFit(entries, levels);
    case _ =>
  }

  predicate NodeFitsAt(j: Json, levels: int) { NodeOk(ToNode(j)) && Distinct(ToNode(j)) && Within(ToNode(j), levels) }

  lemma {:induction false} ItemsFit(items: seq<Json>, levels: nat)
    requires levels > 0 && forall k :: 0 <= k < |items| ==> NodeFitsAt(items[k], levels - 1)
    ensures NodeFitsAt(JArray(items), levels)
  {
    forall k | 0 <= k < |items| ensures ItemOk(ToItems(items)[k]) && ItemFits(ToItems(items)[k], levels - 1) { ItemsAt(items, k); }
  }

  lemma {:induction false} EntriesFit(entries: seq<Entry<Json>>, levels: nat)
    requires levels > 0 && KeysOnce(entries) && forall k :: 0 <= k < |entries| ==> NodeFitsAt(entries[k].value, levels - 1)
    ensures NodeFitsAt(JObject(entries), levels)
  {
    forall k | 0 <= k < |entries| ensures MemberOk(ToMembers(entries)[k]) && MemberFits(ToMembers(entries)[k], levels - 1) { MembersAt(entries, k); }
    forall a, b | 0 <= a < b < |entries| ensures Decode(ToMembers(entries)[a].key) != Decode(ToMembers(entries)[b].key) {
      MembersAt(entries, a);
      MembersAt(entries, b);
    }
  }

  predicate ItemFits(i: Item, levels: int) { Distinct(i.tree.node) && Within(i.tree.node, levels) }
  predicate MemberFits(m: Member, levels: int) { Distinct(m.tree.node) && Within(m.tree.node, levels) }

  /** Different values have different nodes. */
  lemma {:induction false} NodesDiffer(a: Json, b: Json)
    requires ToNode(a) == ToNode(b)
    ensures a == b
    decreases a
  {
    match a
    case JArray(items) =>
      assert |items| == |ToItems(items)|;
      forall k | 0 <= k < |items| ensures items[k] == b.items[k] {
        ItemsAt(items, k);
        ItemsAt(b.items, k);
        NodesDiffer(items[k], b.items[k]);
      }
      assert items == b.items;
    case JObject(entries) =>
      assert |entries| == |ToMembers(entries)|;
      forall k | 0 <= k < |entries| ensures entries[k] == b.entries[k] {
        MembersAt(entries, k);
        MembersAt(b.entries, k);
        NodesDiffer(entries[k].value, b.entries[k].value);
        assert Decode(Pieces(entries[k].key)) == Decode(Pieces(b.entries[k].key));
      }
      assert entries == b.entries;
    case JString(text) => assert Decode(Pieces(text)) == Decode(Pieces(b.text));
    case _ =>
  }

  /** `JSON.stringify` is injective. */
  lemma StringifyInjective(a: Json, b: Json)
    requires JsonOk(a) && JsonOk(b) && Stringify(a) == Stringify(b)
    ensures a == b
  {
    hide ToNode, Distinct, Within, NodeOk, PrintNode, ReadNode;
    var levels := if Height(a) < Height(b) then Height(b) else Height(a);
    NodeFits(a, levels);
    NodeFits(b, levels);
    NodeRead(ToNode(a), [], levels);
    NodeRead(ToNode(b), [], levels);
    NodesDiffer(a, b);
  }

  // ---- and is read back --------------------------------------------------------------------------

  /** The value that a node stands for. */
  function ValueOf(n: Node): Json {
    match n
    case Null => JNull
    case True => JBool(true)
    case False => JBool(false)
    case Num(number) => JNumber(number)
    case Str(pieces) => JString(Decode(pieces))
    case Arr(_, items) => JArray(ItemValues(items))
    case Obj(_, members) => JObject(MemberValues(members))
  }

  function ItemValues(items: seq<Item>): seq<Json> {
    if items == [] then [] else [ValueOf(items[0].tree.node)] + ItemValues(items[1..])
  }

  function MemberValues(members: seq<Member>): seq<Entry<Json>> {
    if members == [] then [] else [Entry(Decode(members[0].key), ValueOf(members[0].tree.node))] + MemberValues(members[1..])
  }

  lemma {:induction false} NodeHasValue(j: Json)
    ensures ValueOf(ToNode(j)) == j
    decreases j, 1
  {
    match j
    case JArray(items) => ItemsHaveValues(items);
    case JObject(entries) => EntriesHaveValues(entries);
    case _ =>
  }

  lemma {:induction false} ItemsHaveValues(items: seq<Json>)
    ensures ItemValues(ToItems(items)) == items
    decreases items, 0
  {
    if items != [] {
      NodeHasValue(items[0]);
      ItemsHaveValues(items[1..]);
      assert ToItems(items)[1..] == ToItems(items[1..]);
      assert [items[0]] + items[1..] == items;
    }
  }

  lemma {:induction false} EntriesHaveValues(entries: seq<Entry<Json>>)
    ensures MemberValues(ToMembers(entries)) == entries
    decreases entries, 0
  {
    if entries != [] {
      NodeHasValue(entries[0].value);
      EntriesHaveValues(entries[1..]);
      assert ToMembers(entries)[1..] == ToMembers(entries[1..]);
      assert [entries[0]] + entries[1..] == entries;
    }
  }

  /** Reading back what was written gives the value again. */
  lemma {:induction false} StringifyReadsBack(j: Json)
    requires JsonOk(j) && Height(j) <= 64
    ensures Scan(Stringify(j)).Some? && ValueOf(Scan(Stringify(j)).value.node) == j
  {
    hide ToNode, ValueOf, Distinct, Within, NodeOk, PrintNode, Scan;
    NodeFits(j, 64);
    NodeHasValue(j);
    var t := Tree([], ToNode(j));
    PrintedIsAccepted(t, []);
    assert [] + PrintNode(ToNode(j)) + [] == Stringify(j);
  }

  // ---- how a text is written -----------------------------------------------------------------------

  /** The units from 0xD800, and those from 0xDC00, each 0x400 of them. */
  predicate FirstHalf(u: Unit) { u / 0x400 == 0x36 }
  predicate SecondHalf(u: Unit) { u / 0x400 == 0x37 }

  predicate InPair(s: Text, i: nat)
    requires i < |s|
  {
    (FirstHalf(s[i]) && i + 1 < |s| && SecondHalf(s[i + 1])) || (SecondHalf(s[i]) && i > 0 && FirstHalf(s[i - 1]))
  }

  function LowerDigit(value: nat): Unit
    requires value < 16
  {
    LOWER_DIGITS[value] as int
  }

  /** The short escape where there is one, but none for a slash; four digits for other controls and for half pairs; else itself. */
  predicate WrittenAs(p: Piece, s: Text, i: nat)
    requires i < |s|
  {
    var u := s[i];
    if u in {0x08, 0x09, 0x0A, 0x0C, 0x0D, 0x22, 0x5C} then p.Short? && IsShortOf(p.letter, u)
    else if u < 0x20 || ((FirstHalf(u) || SecondHalf(u)) && !InPair(s, i))
    then p == Hex(LowerDigit(u / 0x1000), LowerDigit(u / 0x100 % 16), LowerDigit(u / 0x10 % 16), LowerDigit(u % 16))
    else p == Plain(u)
  }

  lemma HexWritten(u: Unit)
    ensures HexOf(u) == Hex(LowerDigit(u / 0x1000), LowerDigit(u / 0x100 % 16), LowerDigit(u / 0x10 % 16), LowerDigit(u % 16))
  {
    MiddleDigits(u);
    hide LowerDigit, HexLetter;
    DigitWritten(u / 4096);
    DigitWritten(u / 256 % 16);
    DigitWritten(u / 16 % 16);
    DigitWritten(u % 16);
  }

  lemma MiddleDigits(u: Unit)
    ensures u % 4096 / 256 == u / 256 % 16 && u % 256 / 16 == u / 16 % 16
  {
    HexDigits(u);
    Base16(u, u / 4096, u % 4096 / 256, u % 256 / 16, u % 16);
  }

  lemma DigitWritten(value: nat)
    requires value < 16
    ensures HexLetter(value) == LowerDigit(value)
  {
  }

  lemma EscapedWritten(u: Unit)
    ensures var p := Escaped(u);
            if u in {0x08, 0x09, 0x0A, 0x0C, 0x0D, 0x22, 0x5C} then p.Short? && IsShortOf(p.letter, u)
            else p == if u < 0x20 then HexOf(u) else Plain(u)
  {
    if u in {0x08, 0x09, 0x0A, 0x0C, 0x0D, 0x22, 0x5C} { ShortExactly(Escaped(u).letter, u); }
  }

  lemma HalvesExactly(u: Unit)
    ensures FirstHalf(u) == High(u) && SecondHalf(u) == Low(u)
  {
  }

  /** What `JSON.stringify` writes for each unit of a text. */
  lemma {:induction false} TextWritten(s: Text)
    ensures |Pieces(s)| == |s| && forall i :: 0 <= i < |s| ==> WrittenAs(Pieces(s)[i], s, i)
    decreases |s|
  {
    hide WrittenAs, Escaped;
    if s != [] {
      var n := if High(s[0]) && |s| > 1 && Low(s[1]) then 2 else 1;
      TextWritten(s[n..]);
      FirstWritten(s, n);
      forall i | n <= i < |s| ensures WrittenAs(Pieces(s)[i], s, i) { RestWritten(s, n, i, Pieces(s)[i]); }
    }
  }

  lemma {:induction false} FirstWritten(s: Text, n: nat)
    requires s != [] && n == if High(s[0]) && |s| > 1 && Low(s[1]) then 2 else 1
    ensures |Pieces(s)| == n + |Pieces(s[n..])| && Pieces(s)[n..] == Pieces(s[n..])
    ensures forall i :: 0 <= i < n ==> WrittenAs(Pieces(s)[i], s, i)
  {
    hide Escaped, HexOf, HexLetter, FirstHalf, SecondHalf;
    HalvesExactly(s[0]);
    HexWritten(s[0]);
    EscapedWritten(s[0]);
    if |s| > 1 { HalvesExactly(s[1]); }
  }

  lemma RestWritten(s: Text, n: nat, i: nat, p: Piece)
    requires s != [] && n == if High(s[0]) && |s| > 1 && Low(s[1]) then 2 else 1
    requires n <= i < |s| && WrittenAs(p, s[n..], i - n)
    ensures WrittenAs(p, s, i)
  {
    hide FirstHalf, SecondHalf;
    HalvesExactly(s[i - 1]);
    HalvesExactly(s[i]);
    assert InPair(s, i) == InPair(s[n..], i - n);
  }
}
