/**
 The canonical text of a JSON value: object members sorted by name, at every depth.  The order of
 names is a parameter; it has to be a total order.
 */
module StableJson {
  import opened JsonGrammar
  import opened JsonText

  type Order = (Text, Text) -> bool

  ghost predicate TotalOrder(leq: Order) {
    && (forall a, b :: leq(a, b) || leq(b, a))
    && (forall a, b :: leq(a, b) && leq(b, a) ==> a == b)
    && (forall a, b, c :: leq(a, b) && leq(b, c) ==> leq(a, c))
  }

  // ---- sorting ---------------------------------------------------------------------------------

  function Insert<V(!new)>(leq: Order, e: Entry<V>, sorted: seq<Entry<V>>): (r: seq<Entry<V>>)
    ensures |r| == |sorted| + 1 && forall x :: x in r <==> x == e || x in sorted
  {
    if sorted == [] || leq(e.key, sorted[0].key) then [e] + sorted
    else
      assert sorted == [sorted[0]] + sorted[1..];
      [sorted[0]] + Insert(leq, e, sorted[1..])
  }

  function Sort<V(!new)>(leq: Order, entries: seq<Entry<V>>): (r: seq<Entry<V>>)
    ensures |r| == |entries| && forall x :: x in r <==> x in entries
  {
    if entries == [] then []
    else
      assert entries == [entries[0]] + entries[1..];
      Insert(leq, entries[0], Sort(leq, entries[1..]))
  }

  predicate Sorted<V(!new)>(leq: Order, entries: seq<Entry<V>>) {
    forall i, j :: 0 <= i < j < |entries| ==> leq(entries[i].key, entries[j].key)
  }

  lemma {:induction false} InsertSorts<V(!new)>(leq: Order, e: Entry<V>, sorted: seq<Entry<V>>)
    requires TotalOrder(leq) && Sorted(leq, sorted) && KeysOnce(sorted) && forall x :: x in sorted ==> x.key != e.key
    ensures Sorted(leq, Insert(leq, e, sorted)) && KeysOnce(Insert(leq, e, sorted))
  {
    if sorted != [] && !leq(e.key, sorted[0].key) {
      InsertSorts(leq, e, sorted[1..]);
      var r := Insert(leq, e, sorted[1..]);
      forall k | 0 <= k < |r| ensures leq(sorted[0].key, r[k].key) && sorted[0].key != r[k].key { assert r[k] in r; }
    }
  }

  lemma {:induction false} SortSorts<V(!new)>(leq: Order, entries: seq<Entry<V>>)
    requires TotalOrder(leq) && KeysOnce(entries)
    ensures Sorted(leq, Sort(leq, entries)) && KeysOnce(Sort(leq, entries))
  {
    if entries != [] {
      SortSorts(leq, entries[1..]);
      InsertSorts(leq, entries[0], Sort(leq, entries[1..]));
    }
  }

  /** There is one sorted list of the same entries. */
  lemma {:induction false} SortedIsUnique<V(!new)>(leq: Order, a: seq<Entry<V>>, b: seq<Entry<V>>)
    requires TotalOrder(leq) && Sorted(leq, a) && Sorted(leq, b) && KeysOnce(a) && KeysOnce(b)
    requires forall x :: x in a <==> x in b
    ensures a == b
  {
    HeadIsIn(b);
    if a == [] {
      assert b == [];
    } else {
      assert a[0] in a;
      assert b != [];
      assert b[0] in b;
      FirstIsLeast(leq, a, b[0]);
      FirstIsLeast(leq, b, a[0]);
      SameKeySame(a, a[0], b[0]);
      TailsAgree(a, b);
      SortedIsUnique(leq, a[1..], b[1..]);
    }
  }

  lemma HeadIsIn<V(!new)>(a: seq<Entry<V>>)
    ensures a != [] ==> a[0] in a
  {
  }

  lemma FirstIsLeast<V(!new)>(leq: Order, a: seq<Entry<V>>, x: Entry<V>)
    requires TotalOrder(leq) && Sorted(leq, a) && a != [] && x in a
    ensures leq(a[0].key, x.key)
  {
    var i :| 0 <= i < |a| && a[i] == x;
  }

  lemma SameKeySame<V(!new)>(a: seq<Entry<V>>, x: Entry<V>, y: Entry<V>)
    requires KeysOnce(a) && x in a && y in a && x.key == y.key
    ensures x == y
  {
    var i, j :| 0 <= i < |a| && 0 <= j < |a| && a[i] == x && a[j] == y;
    assert i == j;
  }

  lemma TailsAgree<V(!new)>(a: seq<Entry<V>>, b: seq<Entry<V>>)
    requires KeysOnce(a) && KeysOnce(b) && a != [] && b != [] && a[0] == b[0] && forall x :: x in a <==> x in b
    ensures forall x :: x in a[1..] <==> x in b[1..]
  {
    TailIn(a, b);
    TailIn(b, a);
  }

  lemma TailIn<V(!new)>(a: seq<Entry<V>>, b: seq<Entry<V>>)
    requires KeysOnce(a) && b != [] && a != [] && a[0] == b[0] && forall x :: x in a ==> x in b
    ensures forall x :: x in a[1..] ==> x in b[1..]
  {
    forall x | x in a[1..] ensures x in b[1..] {
      var i :| 0 <= i < |a[1..]| && a[1..][i] == x;
      assert a[i + 1] == x && x.key != a[0].key;
      assert x in a;
      var j :| 0 <= j < |b| && b[j] == x;
      assert b[1..][j - 1] == x;
    }
  }

  // ---- the canonical value -----------------------------------------------------------------------

  function Canon(leq: Order, j: Json): Json {
    match j
    case JArray(items) => JArray(CanonItems(leq, items))
    case JObject(entries) => JObject(Sort(leq, CanonEntries(leq, entries)))
    case _ => j
  }

  function CanonItems(leq: Order, items: seq<Json>): (r: seq<Json>)
    ensures |r| == |items|
  {
    if items == [] then [] else [Canon(leq, items[0])] + CanonItems(leq, items[1..])
  }

  function CanonEntries(leq: Order, entries: seq<Entry<Json>>): (r: seq<Entry<Json>>)
    ensures |r| == |entries|
  {
    if entries == [] then [] else [Entry(entries[0].key, Canon(leq, entries[0].value))] + CanonEntries(leq, entries[1..])
  }

  lemma {:induction false} CanonItemsAt(leq: Order, items: seq<Json>, k: nat)
    requires k < |items|
    ensures CanonItems(leq, items)[k] == Canon(leq, items[k])
  {
    if k > 0 { CanonItemsAt(leq, items[1..], k - 1); }
  }

  lemma {:induction false} CanonEntriesAt(leq: Order, entries: seq<Entry<Json>>, k: nat)
    requires k < |entries|
    ensures CanonEntries(leq, entries)[k] == Entry(entries[k].key, Canon(leq, entries[k].value))
  {
    if k > 0 { CanonEntriesAt(leq, entries[1..], k - 1); }
  }

  lemma {:induction false} CanonEntriesIn(leq: Order, entries: seq<Entry<Json>>, e: Entry<Json>)
    requires e in entries
    ensures Entry(e.key, Canon(leq, e.value)) in CanonEntries(leq, entries)
  {
    var k :| 0 <= k < |entries| && entries[k] == e;
    CanonEntriesAt(leq, entries, k);
  }

  lemma {:induction false} CanonEntriesOnly(leq: Order, entries: seq<Entry<Json>>, x: Entry<Json>) returns (e: Entry<Json>)
    requires x in CanonEntries(leq, entries)
    ensures e in entries && x == Entry(e.key, Canon(leq, e.value))
  {
    var k :| 0 <= k < |entries| && CanonEntries(leq, entries)[k] == x;
    CanonEntriesAt(leq, entries, k);
    e := entries[k];
  }

  lemma {:induction false} CanonKeysOnce(leq: Order, entries: seq<Entry<Json>>)
    requires KeysOnce(entries)
    ensures KeysOnce(CanonEntries(leq, entries))
  {
    forall i, j | 0 <= i < j < |entries| ensures CanonEntries(leq, entries)[i].key != CanonEntries(leq, entries)[j].key {
      CanonEntriesAt(leq, entries, i);
      CanonEntriesAt(leq, entries, j);
    }
  }

  lemma {:induction false} CanonOk(leq: Order, j: Json)
    requires TotalOrder(leq) && JsonOk(j)
    ensures JsonOk(Canon(leq, j))
    decreases j
  {
    match j
    case JArray(items) =>
      forall i | i in CanonItems(leq, items) ensures JsonOk(i) {
        var k :| 0 <= k < |items| && CanonItems(leq, items)[k] == i;
        CanonItemsAt(leq, items, k);
        CanonOk(leq, items[k]);
      }
    case JObject(entries) =>
      CanonKeysOnce(leq, entries);
      SortSorts(leq, CanonEntries(leq, entries));
      forall x | x in CanonEntries(leq, entries) ensures JsonOk(x.value) {
        var e := CanonEntriesOnly(leq, entries, x);
        CanonOk(leq, e.value);
      }
    case _ =>
  }

  // ---- equal up to member order ------------------------------------------------------------------

  predicate Same(a: Json, b: Json)
    decreases a
  {
    match a
    case JArray(items) => b.JArray? && |items| == |b.items| && forall k :: 0 <= k < |items| ==> Same(items[k], b.items[k])
    case JObject(entries) =>
      && b.JObject? && |entries| == |b.entries|
      && forall e :: e in entries ==> exists f :: f in b.entries && f.key == e.key && Same(e.value, f.value)
    case _ => a == b
  }

  ghost function Keys(entries: seq<Entry<Json>>): set<Text> {
    set e | e in entries :: e.key
  }

  lemma {:induction false} KeysCounted(entries: seq<Entry<Json>>)
    requires KeysOnce(entries)
    ensures |Keys(entries)| == |entries|
  {
    if entries != [] {
      var tail := entries[1..];
      assert entries == [entries[0]] + tail;
      KeysCounted(tail);
      forall e | e in tail ensures e.key != entries[0].key {
        var i :| 0 <= i < |tail| && tail[i] == e;
        assert entries[i + 1] == e;
      }
      assert Keys(entries) == Keys(tail) + {entries[0].key};
    }
  }

  /** Every key of `b` is one of `a`, when `a` has as many keys and all of them are in `b`. */
  lemma {:induction false} SameKeys(a: seq<Entry<Json>>, b: seq<Entry<Json>>)
    requires KeysOnce(a) && KeysOnce(b) && |a| == |b|
    requires forall e :: e in a ==> exists f :: f in b && f.key == e.key
    ensures forall f :: f in b ==> exists e :: e in a && e.key == f.key
  {
    KeysCounted(a);
    KeysCounted(b);
    assert Keys(a) <= Keys(b);
    assert Keys(b) == Keys(a) + (Keys(b) - Keys(a));
    assert Keys(b) - Keys(a) == {};
    forall f | f in b ensures exists e :: e in a && e.key == f.key {
      assert f.key in Keys(b);
      assert f.key in Keys(a);
    }
  }

  lemma {:induction false} SameIsSameCanon(leq: Order, a: Json, b: Json)
    requires TotalOrder(leq) && JsonOk(a) && JsonOk(b) && Same(a, b)
    ensures Canon(leq, a) == Canon(leq, b)
    decreases a
  {
    match a
    case JArray(items) =>
      forall k | 0 <= k < |items| ensures CanonItems(leq, items)[k] == CanonItems(leq, b.items)[k] {
        CanonItemsAt(leq, items, k);
        CanonItemsAt(leq, b.items, k);
        SameIsSameCanon(leq, items[k], b.items[k]);
      }
      assert CanonItems(leq, items) == CanonItems(leq, b.items);
    case JObject(entries) =>
      EntriesSame(leq, entries, b.entries);
    case _ =>
  }

  lemma {:induction false} EntriesSame(leq: Order, a: seq<Entry<Json>>, b: seq<Entry<Json>>)
    requires TotalOrder(leq) && JsonOk(JObject(a)) && JsonOk(JObject(b)) && Same(JObject(a), JObject(b))
    ensures Sort(leq, CanonEntries(leq, a)) == Sort(leq, CanonEntries(leq, b))
    decreases a, 0
  {
    var ca, cb := CanonEntries(leq, a), CanonEntries(leq, b);
    forall x | x in ca ensures x in cb {
      var e := CanonEntriesOnly(leq, a, x);
      var f :| f in b && f.key == e.key && Same(e.value, f.value);
      SameIsSameCanon(leq, e.value, f.value);
      CanonEntriesIn(leq, b, f);
    }
    SameKeys(a, b);
    forall y | y in cb ensures y in ca {
      var f := CanonEntriesOnly(leq, b, y);
      var e :| e in a && e.key == f.key;
      var f' :| f' in b && f'.key == e.key && Same(e.value, f'.value);
      SameKeySame(b, f, f');
      SameIsSameCanon(leq, e.value, f.value);
      CanonEntriesIn(leq, a, e);
    }
    CanonKeysOnce(leq, a);
    CanonKeysOnce(leq, b);
    SortSorts(leq, ca);
    SortSorts(leq, cb);
    SortedIsUnique(leq, Sort(leq, ca), Sort(leq, cb));
  }

  lemma {:induction false} SameCanonIsSame(leq: Order, a: Json, b: Json)
    requires TotalOrder(leq) && JsonOk(a) && JsonOk(b) && Canon(leq, a) == Canon(leq, b)
    ensures Same(a, b)
    decreases a
  {
    match a
    case JArray(items) =>
      assert |items| == |CanonItems(leq, b.items)|;
      forall k | 0 <= k < |items| ensures Same(items[k], b.items[k]) {
        CanonItemsAt(leq, items, k);
        CanonItemsAt(leq, b.items, k);
        SameCanonIsSame(leq, items[k], b.items[k]);
      }
    case JObject(entries) =>
      var cb := CanonEntries(leq, b.entries);
      assert |entries| == |Sort(leq, cb)|;
      forall e | e in entries ensures exists f :: f in b.entries && f.key == e.key && Same(e.value, f.value) {
        CanonEntriesIn(leq, entries, e);
        var x := Entry(e.key, Canon(leq, e.value));
        assert x in Sort(leq, CanonEntries(leq, entries));
        assert x in cb;
        var f := CanonEntriesOnly(leq, b.entries, x);
        SameCanonIsSame(leq, e.value, f.value);
      }
    case _ =>
  }

  // ---- the canonical text ------------------------------------------------------------------------

  function JoinTexts(texts: seq<Text>): Text {
    if texts == [] then [] else if |texts| == 1 then texts[0] else texts[0] + [COMMA] + JoinTexts(texts[1..])
  }

  function EntryTexts(entries: seq<Entry<Text>>): seq<Text> {
    if entries == [] then [] else [PrintString(Pieces(entries[0].key)) + [COLON] + entries[0].value] + EntryTexts(entries[1..])
  }

  /** `stableJson` */
  function StableText(leq: Order, j: Json): Text {
    match j
    case JArray(items) => [OPEN_BRACKET] + JoinTexts(ItemTexts(leq, items)) + [CLOSE_BRACKET]
    case JObject(entries) => [OPEN_BRACE] + JoinTexts(EntryTexts(Sort(leq, ValueTexts(leq, entries)))) + [CLOSE_BRACE]
    case _ => Stringify(j)
  }

  function ItemTexts(leq: Order, items: seq<Json>): seq<Text> {
    if items == [] then [] else [StableText(leq, items[0])] + ItemTexts(leq, items[1..])
  }

  function ValueTexts(leq: Order, entries: seq<Entry<Json>>): seq<Entry<Text>> {
    if entries == [] then [] else [Entry(entries[0].key, StableText(leq, entries[0].value))] + ValueTexts(leq, entries[1..])
  }

  /** Sorting looks at keys only. */
  lemma {:induction false} InsertTexts(leq: Order, e: Entry<Json>, sorted: seq<Entry<Json>>)
    ensures ToTexts(Insert(leq, e, sorted)) == Insert(leq, Entry(e.key, Stringify(e.value)), ToTexts(sorted))
  {
    if sorted == [] || leq(e.key, sorted[0].key) {
      assert ([e] + sorted)[1..] == sorted;
    } else {
      InsertTexts(leq, e, sorted[1..]);
      var rest := Insert(leq, e, sorted[1..]);
      assert ([sorted[0]] + rest)[1..] == rest;
      assert ToTexts(sorted)[1..] == ToTexts(sorted[1..]);
    }
  }

  function ToTexts(entries: seq<Entry<Json>>): seq<Entry<Text>> {
    if entries == [] then [] else [Entry(entries[0].key, Stringify(entries[0].value))] + ToTexts(entries[1..])
  }

  lemma {:induction false} SortTexts(leq: Order, entries: seq<Entry<Json>>)
    ensures ToTexts(Sort(leq, entries)) == Sort(leq, ToTexts(entries))
  {
    if entries != [] {
      SortTexts(leq, entries[1..]);
      InsertTexts(leq, entries[0], Sort(leq, entries[1..]));
      assert ToTexts(entries)[1..] == ToTexts(entries[1..]);
    }
  }

  /** The text of a list, joined. */
  lemma {:induction false} ItemsJoined(items: seq<Json>)
    requires items != []
    ensures PrintItems(ToItems(items)) == JoinTexts(Texts(items)) + [CLOSE_BRACKET]
  {
    var item := ToItems(items)[0];
    assert Print(item.tree) + item.trail == Stringify(items[0]);
    if |items| > 1 {
      ItemsJoined(items[1..]);
      assert ToItems(items)[1..] == ToItems(items[1..]);
      assert Texts(items)[1..] == Texts(items[1..]);
      Joined(Stringify(items[0]), JoinTexts(Texts(items[1..])), CLOSE_BRACKET);
    } else {
      assert Texts(items) == [Stringify(items[0])];
    }
  }

  function Texts(items: seq<Json>): (r: seq<Text>)
    ensures |r| == |items|
  {
    if items == [] then [] else [Stringify(items[0])] + Texts(items[1..])
  }

  lemma {:induction false} Joined(a: Text, b: Text, closing: Unit)
    ensures a + ([COMMA] + (b + [closing])) == (a + [COMMA] + b) + [closing]
  {
  }

  lemma {:induction false} EntriesJoined(entries: seq<Entry<Json>>)
    requires entries != []
    ensures PrintMembers(ToMembers(entries)) == JoinTexts(EntryTexts(ToTexts(entries))) + [CLOSE_BRACE]
  {
    var m := ToMembers(entries)[0];
    var head := PrintString(Pieces(entries[0].key)) + [COLON] + Stringify(entries[0].value);
    assert m.lead + PrintString(m.key) + m.mid + [COLON] + Print(m.tree) + m.trail == head;
    var texts := EntryTexts(ToTexts(entries));
    assert texts[0] == head && texts[1..] == EntryTexts(ToTexts(entries[1..])) by {
      assert ToTexts(entries)[1..] == ToTexts(entries[1..]);
    }
    EntryTextsSize(ToTexts(entries));
    if |entries| > 1 {
      EntriesJoined(entries[1..]);
      assert ToMembers(entries)[1..] == ToMembers(entries[1..]);
      Joined(head, JoinTexts(texts[1..]), CLOSE_BRACE);
    }
  }

  lemma {:induction false} EntryTextsSize(entries: seq<Entry<Text>>)
    ensures |EntryTexts(entries)| == |entries|
  {
    if entries != [] { EntryTextsSize(entries[1..]); }
  }

  /** `stableJson` writes what `JSON.stringify` writes of the canonical value. */
  lemma {:induction false} StableIsCanonical(leq: Order, j: Json)
    ensures StableText(leq, j) == Stringify(Canon(leq, j))
    decreases j
  {
    match j
    case JArray(items) =>
      ItemsAreCanonical(leq, items);
      if items != [] {
        ItemsJoined(CanonItems(leq, items));
        Associate3(OPEN_BRACKET, JoinTexts(ItemTexts(leq, items)), CLOSE_BRACKET);
      }
    case JObject(entries) =>
      EntriesAreCanonical(leq, entries);
      var sorted := Sort(leq, CanonEntries(leq, entries));
      SortTexts(leq, CanonEntries(leq, entries));
      if entries != [] {
        EntriesJoined(sorted);
        Associate3(OPEN_BRACE, JoinTexts(EntryTexts(ToTexts(sorted))), CLOSE_BRACE);
      }
    case _ =>
  }

  lemma {:induction false} Associate3(a: Unit, b: Text, c: Unit)
    ensures [a] + b + [c] == [a] + (b + [c])
  {
  }

  lemma {:induction false} ItemsAreCanonical(leq: Order, items: seq<Json>)
    ensures ItemTexts(leq, items) == Texts(CanonItems(leq, items))
    decreases items
  {
    if items != [] {
      StableIsCanonical(leq, items[0]);
      ItemsAreCanonical(leq, items[1..]);
      assert CanonItems(leq, items)[1..] == CanonItems(leq, items[1..]);
    }
  }

  lemma {:induction false} EntriesAreCanonical(leq: Order, entries: seq<Entry<Json>>)
    ensures ValueTexts(leq, entries) == ToTexts(CanonEntries(leq, entries))
    decreases entries
  {
    if entries != [] {
      StableIsCanonical(leq, entries[0].value);
      EntriesAreCanonical(leq, entries[1..]);
      assert CanonEntries(leq, entries)[1..] == CanonEntries(leq, entries[1..]);
    }
  }

  /** Two values have the same stable text exactly when they are the same value up to member order. */
  lemma StableTextDecides(leq: Order, a: Json, b: Json)
    requires TotalOrder(leq) && JsonOk(a) && JsonOk(b)
    ensures StableText(leq, a) == StableText(leq, b) <==> Same(a, b)
  {
    hide StableText, Canon, Same, JsonOk;
    StableIsCanonical(leq, a);
    StableIsCanonical(leq, b);
    CanonOk(leq, a);
    CanonOk(leq, b);
    if StableText(leq, a) == StableText(leq, b) {
      StringifyInjective(Canon(leq, a), Canon(leq, b));
      SameCanonIsSame(leq, a, b);
    }
    if Same(a, b) {
      SameIsSameCanon(leq, a, b);
    }
  }

  // ---- an order --------------------------------------------------------------------------------

  /** Names compared unit by unit: one order the statements above apply to. */
  predicate UnitOrder(a: Text, b: Text) {
    a == [] || (b != [] && (a[0] < b[0] || (a[0] == b[0] && UnitOrder(a[1..], b[1..]))))
  }

  lemma {:induction false} UnitsDecide(a: Text, b: Text)
    ensures UnitOrder(a, b) || UnitOrder(b, a)
    ensures UnitOrder(a, b) && UnitOrder(b, a) ==> a == b
  {
    if a != [] && b != [] {
      UnitsDecide(a[1..], b[1..]);
      if a[0] == b[0] && a[1..] == b[1..] { assert a == [a[0]] + a[1..] && b == [b[0]] + b[1..]; }
    }
  }

  lemma {:induction false} UnitsChain(a: Text, b: Text, c: Text)
    requires UnitOrder(a, b) && UnitOrder(b, c)
    ensures UnitOrder(a, c)
  {
    if a != [] && b != [] && c != [] && a[0] == b[0] == c[0] { UnitsChain(a[1..], b[1..], c[1..]); }
  }

  lemma UnitOrderIsTotal()
    ensures TotalOrder(UnitOrder)
  {
    forall a, b ensures (UnitOrder(a, b) || UnitOrder(b, a)) && (UnitOrder(a, b) && UnitOrder(b, a) ==> a == b) { UnitsDecide(a, b); }
    forall a, b, c | UnitOrder(a, b) && UnitOrder(b, c) ensures UnitOrder(a, c) { UnitsChain(a, b, c); }
  }
}
