/**
 JSON text as RFC 8259 defines it, kept concrete: a tree holds its whitespace, its escapes and its
 number spellings, so printing a tree gives back every character of its text.  Characters are
 UTF-16 code units.  Whitespace is what the regular expression class \s accepts, which includes the
 whitespace of section 2.
 */
module JsonGrammar {
  import opened Options

  type Unit = u: int | 0 <= u < 0x10000
  type Text = seq<Unit>

  const QUOTE: Unit := '"' as int
  const BACKSLASH: Unit := '\\' as int
  const OPEN_BRACE: Unit := '{' as int
  const CLOSE_BRACE: Unit := '}' as int
  const OPEN_BRACKET: Unit := '[' as int
  const CLOSE_BRACKET: Unit := ']' as int
  const COLON: Unit := ':' as int
  const COMMA: Unit := ',' as int
  const MINUS: Unit := '-' as int
  const PLUS: Unit := '+' as int
  const DOT: Unit := '.' as int
  const ZERO: Unit := '0' as int
  const TRUE: Text := [116, 114, 117, 101]
  const FALSE: Text := [102, 97, 108, 115, 101]
  const NULL: Text := [110, 117, 108, 108]

  predicate Whitespace(u: Unit) {
    || 9 <= u <= 13 || u == 32 || u == 0xA0 || u == 0x1680 || 0x2000 <= u <= 0x200A || u == 0x2028 || u == 0x2029
    || u == 0x202F || u == 0x205F || u == 0x3000 || u == 0xFEFF
  }

  predicate AllSpace(t: Text) {
    forall i :: 0 <= i < |t| ==> Whitespace(t[i])
  }

  predicate Digit(u: Unit) { 48 <= u <= 57 }

  predicate AllDigits(t: Text) {
    forall i :: 0 <= i < |t| ==> Digit(t[i])
  }

  // ---- strings (section 7) -----------------------------------------------------------------

  datatype Piece =
    | Plain(unit: Unit)
    | Short(letter: Unit)             // \" \\ \/ \b \f \n \r \t
    | Hex(a: Unit, b: Unit, c: Unit, d: Unit) // \uXXXX

  predicate HexDigit(u: Unit) { Digit(u) || 65 <= u <= 70 || 97 <= u <= 102 }

  function HexValue(u: Unit): (v: nat)
    ensures v < 16
  {
    if Digit(u) then u - 48 else if 65 <= u <= 70 then u - 55 else if 97 <= u <= 102 then u - 87 else 0
  }

  predicate EscapeLetter(u: Unit) {
    u == QUOTE || u == BACKSLASH || u == 47 || u == 98 || u == 102 || u == 110 || u == 114 || u == 116
  }

  predicate PieceOk(p: Piece) {
    match p
    case Plain(u) => u >= 32 && u != QUOTE && u != BACKSLASH
    case Short(u) => EscapeLetter(u)
    case Hex(a, b, c, d) => HexDigit(a) && HexDigit(b) && HexDigit(c) && HexDigit(d)
  }

  predicate PiecesOk(ps: seq<Piece>) {
    forall i :: 0 <= i < |ps| ==> PieceOk(ps[i])
  }

  function PrintPiece(p: Piece): (t: Text)
    ensures |t| > 0
  {
    match p
    case Plain(u) => [u]
    case Short(u) => [BACKSLASH, u]
    case Hex(a, b, c, d) => [BACKSLASH, 117, a, b, c, d]
  }

  function PrintPieces(ps: seq<Piece>): Text {
    if ps == [] then [] else PrintPiece(ps[0]) + PrintPieces(ps[1..])
  }

  function DecodePiece(p: Piece): Unit {
    match p
    case Plain(u) => u
    case Short(u) =>
      if u == 98 then 8 else if u == 102 then 12 else if u == 110 then 10 else if u == 114 then 13 else if u == 116 then 9 else u
    case Hex(a, b, c, d) => 4096 * HexValue(a) + 256 * HexValue(b) + 16 * HexValue(c) + HexValue(d)
  }

  function Decode(ps: seq<Piece>): (t: Text)
    ensures |t| == |ps|
  {
    if ps == [] then [] else [DecodePiece(ps[0])] + Decode(ps[1..])
  }

  // ---- numbers (section 6) -----------------------------------------------------------------

  /** `fraction` without its point; an exponent is its letter, its sign and its digits. */
  datatype Exponent = Exponent(letter: Unit, sign: Text, digits: Text)
  datatype Number = Number(negative: bool, whole: Text, fraction: Text, exponent: Option<Exponent>)

  predicate WholeOk(t: Text) {
    t == [ZERO] || (t != [] && AllDigits(t) && t[0] != ZERO)
  }

  predicate ExponentOk(e: Exponent) {
    && (e.letter == 101 || e.letter == 69) && (e.sign == [] || e.sign == [PLUS] || e.sign == [MINUS])
    && e.digits != [] && AllDigits(e.digits)
  }

  predicate NumberOk(n: Number) {
    WholeOk(n.whole) && AllDigits(n.fraction) && (n.exponent.Some? ==> ExponentOk(n.exponent.value))
  }

  function PrintFraction(t: Text): Text {
    if t == [] then [] else [DOT] + t
  }

  function PrintExponent(e: Option<Exponent>): Text {
    if e.None? then [] else [e.value.letter] + e.value.sign + e.value.digits
  }

  function PrintNumber(n: Number): Text {
    (if n.negative then [MINUS] else []) + n.whole + PrintFraction(n.fraction) + PrintExponent(n.exponent)
  }

  // ---- values (sections 3 to 5) --------------------------------------------------------------

  datatype Node =
    | True | False | Null
    | Num(number: Number)
    | Str(pieces: seq<Piece>)
    | Arr(pad: Text, items: seq<Item>)      // `pad` is what an empty array holds
    | Obj(pad: Text, members: seq<Member>)

  /** A value with the whitespace in front of it. */
  datatype Tree = Tree(lead: Text, node: Node)
  datatype Item = Item(tree: Tree, trail: Text)
  datatype Member = Member(lead: Text, key: seq<Piece>, mid: Text, tree: Tree, trail: Text)

  predicate TreeOk(t: Tree) {
    AllSpace(t.lead) && NodeOk(t.node)
  }

  predicate NodeOk(n: Node) {
    match n
    case Num(number) => NumberOk(number)
    case Str(pieces) => PiecesOk(pieces)
    case Arr(pad, items) => AllSpace(pad) && (items != [] ==> pad == []) && forall i :: i in items ==> ItemOk(i)
    case Obj(pad, members) => AllSpace(pad) && (members != [] ==> pad == []) && forall m :: m in members ==> MemberOk(m)
    case _ => true
  }

  predicate ItemOk(i: Item) {
    TreeOk(i.tree) && AllSpace(i.trail)
  }

  predicate MemberOk(m: Member) {
    AllSpace(m.lead) && PiecesOk(m.key) && AllSpace(m.mid) && TreeOk(m.tree) && AllSpace(m.trail)
  }

  function Print(t: Tree): Text {
    t.lead + PrintNode(t.node)
  }

  function PrintNode(n: Node): Text {
    match n
    case True => TRUE
    case False => FALSE
    case Null => NULL
    case Num(number) => PrintNumber(number)
    case Str(pieces) => PrintString(pieces)
    case Arr(pad, items) => [OPEN_BRACKET] + (if items == [] then pad + [CLOSE_BRACKET] else PrintItems(items))
    case Obj(pad, members) => [OPEN_BRACE] + (if members == [] then pad + [CLOSE_BRACE] else PrintMembers(members))
  }

  function PrintString(pieces: seq<Piece>): Text {
    [QUOTE] + PrintPieces(pieces) + [QUOTE]
  }

  /** The rest of a list, with what closes it. */
  function PrintItems(items: seq<Item>): Text
    requires items != []
  {
    Print(items[0].tree) + items[0].trail + (if |items| == 1 then [CLOSE_BRACKET] else [COMMA] + PrintItems(items[1..]))
  }

  function PrintMembers(members: seq<Member>): Text
    requires members != []
  {
    members[0].lead + PrintString(members[0].key) + members[0].mid + [COLON] + Print(members[0].tree) + members[0].trail
    + (if |members| == 1 then [CLOSE_BRACE] else [COMMA] + PrintMembers(members[1..]))
  }

  // ---- what the manifest forbids ---------------------------------------------------------------

  /** No object at any depth has two members with equal decoded names. */
  predicate Distinct(n: Node) {
    match n
    case Arr(_, items) => forall i :: i in items ==> Distinct(i.tree.node)
    case Obj(_, members) => KeysDiffer(members) && forall m :: m in members ==> Distinct(m.tree.node)
    case _ => true
  }

  predicate KeysDiffer(members: seq<Member>) {
    forall i, j :: 0 <= i < j < |members| ==> Decode(members[i].key) != Decode(members[j].key)
  }

  /** Every node is at most `levels` below this one. */
  predicate Within(n: Node, levels: int) {
    && levels >= 0
    && match n
       case Arr(_, items) => forall i :: i in items ==> Within(i.tree.node, levels - 1)
       case Obj(_, members) => forall m :: m in members ==> Within(m.tree.node, levels - 1)
       case _ => true
  }
}
