/**
 The event stream: how the server frames events and keepalives, how the live client takes the text
 apart again however it arrives in chunks, and how the batch client reads it whole.  Framing is
 that of section 9.2.5 of the WHATWG HTML Standard, as far as the two sides use it.
 */
module Sse {
  import opened Options
  import opened JsonGrammar
  import opened JsonReader
  import opened JsonText
  import opened JsonLines
  import opened JsonSpelling

  const EVENT_LINE: Text := [101, 118, 101, 110, 116, 58, 32, 114, 111, 97, 100, 101, 120] // event: roadex
  const DATA: Text := [100, 97, 116, 97, 58, 32]                                            // data:
  const KEEPALIVE: Text := [58, 32, 107, 101, 101, 112, 97, 108, 105, 118, 101]             // : keepalive
  const GAP: Text := [LF, LF]

  datatype Message = Event(value: Json) | Keepalive

  // ---- writing ---------------------------------------------------------------------------------

  function Frame(m: Message): Text {
    match m
    case Event(value) => EVENT_LINE + [LF] + (DATA + Stringify(value))
    case Keepalive => KEEPALIVE
  }

  function Output(ms: seq<Message>): Text {
    if ms == [] then [] else Frame(ms[0]) + GAP + Output(ms[1..])
  }

  predicate MessagesOk(ms: seq<Message>) {
    forall m :: m in ms && m.Event? ==> JsonOk(m.value)
  }

  function EventTexts(ms: seq<Message>): seq<Text> {
    if ms == [] then []
    else (if ms[0].Event? then [Stringify(ms[0].value)] else []) + EventTexts(ms[1..])
  }

  // ---- reading ---------------------------------------------------------------------------------

  /** `text.split('\n\n')` */
  function Frames(s: Text): (r: seq<Text>)
    ensures |r| >= 1
  {
    if |s| < 2 then [s]
    else if s[0] == LF && s[1] == LF then [[]] + Frames(s[2..])
    else Prepend(s[0], Frames(s[1..]))
  }

  function Prepend(u: Unit, r: seq<Text>): seq<Text>
    requires r != []
  {
    [[u] + r[0]] + r[1..]
  }

  function Init(r: seq<Text>): seq<Text>
    requires r != []
  {
    r[..|r| - 1]
  }

  function Last(r: seq<Text>): Text
    requires r != []
  {
    r[|r| - 1]
  }

  /** `text.split('\n')` */
  function Lines(s: Text): (r: seq<Text>)
    ensures |r| >= 1
  {
    if s == [] then [[]]
    else if s[0] == LF then [[]] + Lines(s[1..])
    else Prepend(s[0], Lines(s[1..]))
  }

  function FindData(lines: seq<Text>): Option<Text> {
    if lines == [] then None
    else if DATA <= lines[0] then Some(lines[0][|DATA|..])
    else FindData(lines[1..])
  }

  function DataOf(frame: Text): Option<Text> {
    FindData(Lines(frame))
  }

  function Deliver(frames: seq<Text>): seq<Text> {
    if frames == [] then [] else DeliverOne(frames[0]) + Deliver(frames[1..])
  }

  function DeliverOne(frame: Text): seq<Text> {
    var data := DataOf(frame);
    if data.Some? then [data.value] else []
  }

  /** The live client: what is left over, and what it has delivered. */
  datatype Live = Live(buffer: Text, delivered: seq<Text>)

  function Receive(live: Live, chunk: Text): Live {
    var frames := Frames(live.buffer + chunk);
    Live(Last(frames), live.delivered + Deliver(Init(frames)))
  }

  function ReceiveAll(chunks: seq<Text>): Live {
    if chunks == [] then Live([], []) else Receive(ReceiveAll(chunks[..|chunks| - 1]), chunks[|chunks| - 1])
  }

  function Concat(chunks: seq<Text>): Text {
    if chunks == [] then [] else Concat(chunks[..|chunks| - 1]) + chunks[|chunks| - 1]
  }

  function TrimEnd(s: Text): Text {
    if s != [] && Whitespace(s[|s| - 1]) then TrimEnd(s[..|s| - 1]) else s
  }

  function Trim(s: Text): Text {
    TrimEnd(s[SpaceRun(s)..])
  }

  /** The batch client */
  function Batch(frames: seq<Text>): seq<Text> {
    if frames == [] then []
    else
      var t := Trim(frames[0]);
      var data := if t == [] then None else DataOf(t);
      (if data.Some? then [data.value] else []) + Batch(frames[1..])
  }

  function ReadAll(raw: Text): seq<Text> {
    Batch(Frames(raw))
  }

  // ---- chunks make no difference -----------------------------------------------------------------

  lemma {:induction false} PrependParts(u: Unit, r: seq<Text>, more: seq<Text>)
    requires r != []
    ensures Prepend(u, r + more) == Prepend(u, r) + more
    ensures |r| > 1 ==> Init(Prepend(u, r)) == Prepend(u, Init(r)) && Last(Prepend(u, r)) == Last(r)
  {
  }

  /** Splitting what is left over together with what follows continues the split. */
  lemma {:induction false} SplitContinues(a: Text, c: Text)
    ensures Frames(a + c) == Init(Frames(a)) + Frames(Last(Frames(a)) + c)
  {
    hide Prepend;
    if |a| < 2 {
      assert Init([a]) == [];
    } else {
      Skips(a, c);
      if a[0] == LF && a[1] == LF {
        SplitContinues(a[2..], c);
        BehindGap(Frames(a[2..]), Frames(Last(Frames(a[2..])) + c));
      } else {
        SplitContinues(a[1..], c);
        var r := Frames(a[1..]);
        if |r| == 1 {
          Unsplit(a[1..]);
          Alone(a);
          assert Init([a]) == [];
        } else {
          PrependParts(a[0], r, []);
          PrependParts(a[0], Init(r), Frames(Last(r) + c));
        }
      }
    }
  }

  lemma {:induction false} Skips(a: Text, c: Text)
    requires |a| >= 2
    ensures (a + c)[2..] == a[2..] + c && (a + c)[1..] == a[1..] + c && (a + c)[0] == a[0] && (a + c)[1] == a[1] && |a + c| >= 2
  {
  }

  lemma {:induction false} BehindGap(r: seq<Text>, more: seq<Text>)
    requires r != []
    ensures Init([[]] + r) == [[]] + Init(r) && Last([[]] + r) == Last(r) && [[]] + (Init(r) + more) == ([[]] + Init(r)) + more
  {
  }

  lemma {:induction false} Alone(a: Text)
    requires a != []
    ensures Prepend(a[0], [a[1..]]) == [a]
  {
    assert [a[0]] + a[1..] == a;
  }

  lemma {:induction false} Unsplit(a: Text)
    requires |Frames(a)| == 1
    ensures Frames(a) == [a]
  {
    if |a| >= 2 && !(a[0] == LF && a[1] == LF) {
      Unsplit(a[1..]);
      Alone(a);
    }
  }

  lemma {:induction false} DeliverAppend(a: seq<Text>, b: seq<Text>)
    ensures Deliver(a + b) == Deliver(a) + Deliver(b)
  {
    hide DeliverOne;
    if a == [] {
      assert a + b == b;
    } else {
      DeliverAppend(a[1..], b);
      assert (a + b)[1..] == a[1..] + b;
    }
  }

  /** However the text is cut, the live client has delivered the complete frames and keeps the rest. */
  lemma {:induction false} ChunksMakeNoDifference(chunks: seq<Text>)
    ensures var frames := Frames(Concat(chunks));
            ReceiveAll(chunks) == Live(Last(frames), Deliver(Init(frames)))
  {
    if chunks != [] {
      var before, chunk := chunks[..|chunks| - 1], chunks[|chunks| - 1];
      ChunksMakeNoDifference(before);
      var old_ := Frames(Concat(before));
      SplitContinues(Concat(before), chunk);
      var next := Frames(Last(old_) + chunk);
      assert Init(Init(old_) + next) == Init(old_) + Init(next);
      DeliverAppend(Init(old_), Init(next));
    }
  }

  // ---- frames are taken apart as they were put together --------------------------------------------

  predicate FrameOk(f: Text) {
    && f != [] && f[|f| - 1] != LF
    && forall i :: 0 <= i < |f| - 1 ==> f[i] != LF || f[i + 1] != LF
  }

  lemma {:induction false} FrameSplits(f: Text, rest: Text)
    requires FrameOk(f)
    ensures Frames(f + GAP + rest) == [f] + Frames(rest)
  {
    var s := f + GAP + rest;
    if |f| == 1 {
      assert s[1..] == GAP + rest && s[1..][2..] == rest;
      assert [s[0]] + [] == f;
    } else {
      assert s[1..] == f[1..] + GAP + rest;
      FrameSplits(f[1..], rest);
      assert [f[0]] + f[1..] == f;
    }
  }

  lemma {:induction false} LineSplits(a: Text, b: Text)
    requires OneLine(a)
    ensures Lines(a) == [a]
    ensures Lines(a + [LF] + b) == [a] + Lines(b)
  {
    var s := a + [LF] + b;
    if a == [] {
      assert s[1..] == b;
    } else {
      assert s[1..] == a[1..] + [LF] + b;
      LineSplits(a[1..], b);
      assert [a[0]] + a[1..] == a;
    }
  }

  lemma FrameIsOk(m: Message)
    requires m.Event? ==> JsonOk(m.value)
    ensures FrameOk(Frame(m)) && EndsDark(Frame(m)) && !Whitespace(Frame(m)[0])
  {
    hide Stringify, JsonOk;
    if m.Event? {
      StringifyIsOneLine(m.value);
      var f, t := Frame(m), Stringify(m.value);
      FixedLines();
      hide EVENT_LINE, DATA;
      var line := DATA + t;
      assert f[|f| - 1] == line[|line| - 1] == t[|t| - 1] && f[0] == EVENT_LINE[0];
      forall i | 0 <= i < |f| && i != |EVENT_LINE| ensures f[i] != LF {
        if i > |EVENT_LINE| { assert f[i] == line[i - |EVENT_LINE| - 1]; }
      }
    }
  }

  lemma FixedLines()
    ensures OneLine(EVENT_LINE) && OneLine(DATA) && OneLine(KEEPALIVE)
    ensures !(DATA <= EVENT_LINE) && !(DATA <= KEEPALIVE)
    ensures EVENT_LINE != [] && !Whitespace(EVENT_LINE[0])
  {
    assert EVENT_LINE[0] != DATA[0] && KEEPALIVE[0] != DATA[0];
  }

  lemma FrameHoldsData(m: Message)
    requires m.Event? ==> JsonOk(m.value)
    ensures DataOf(Frame(m)) == if m.Event? then Some(Stringify(m.value)) else None
  {
    hide Stringify, JsonOk, EVENT_LINE, DATA, KEEPALIVE;
    FixedLines();
    if m.Event? {
      StringifyIsOneLine(m.value);
      var line := DATA + Stringify(m.value);
      LineSplits(EVENT_LINE, line);
      LineSplits(line, []);
      FoundSecond(EVENT_LINE, Stringify(m.value));
    } else {
      LineSplits(KEEPALIVE, []);
      assert [KEEPALIVE][1..] == [];
      assert FindData([]) == None;
    }
  }

  lemma {:induction false} FoundSecond(first: Text, data: Text)
    requires !(DATA <= first)
    ensures FindData([first] + [DATA + data]) == Some(data)
  {
    hide DATA;
    assert ([first] + [DATA + data])[1..] == [DATA + data];
    assert (DATA + data)[|DATA|..] == data;
  }

  function FrameList(ms: seq<Message>): (r: seq<Text>)
    ensures |r| == |ms|
  {
    if ms == [] then [] else [Frame(ms[0])] + FrameList(ms[1..])
  }

  lemma {:induction false} OutputSplits(ms: seq<Message>)
    requires MessagesOk(ms)
    ensures Frames(Output(ms)) == FrameList(ms) + [[]]
  {
    hide Frame, JsonOk;
    if ms != [] {
      assert ms[0] in ms;
      FrameIsOk(ms[0]);
      FrameSplits(Frame(ms[0]), Output(ms[1..]));
      OutputSplits(ms[1..]);
    }
  }

  lemma {:induction false} FramesDeliver(ms: seq<Message>)
    requires MessagesOk(ms)
    ensures Deliver(FrameList(ms)) == EventTexts(ms)
  {
    hide Frame, JsonOk, Stringify;
    if ms != [] {
      assert ms[0] in ms;
      FrameHoldsData(ms[0]);
      FramesDeliver(ms[1..]);
      assert FrameList(ms)[1..] == FrameList(ms[1..]);
    }
  }

  lemma {:induction false} TrimDark(f: Text)
    requires EndsDark(f) && !Whitespace(f[0])
    ensures Trim(f) == f
  {
    assert f[0..] == f;
  }

  lemma {:induction false} FramesBatch(ms: seq<Message>)
    requires MessagesOk(ms)
    ensures Batch(FrameList(ms) + [[]]) == EventTexts(ms)
  {
    hide Frame, JsonOk, Stringify, Trim;
    if ms == [] {
      assert Trim([]) == [] by { TrimEmpty(); }
      assert FrameList(ms) + [[]] == [[]] && (FrameList(ms) + [[]])[1..] == [];
    } else {
      assert ms[0] in ms;
      FrameHoldsData(ms[0]);
      FrameIsOk(ms[0]);
      TrimDark(Frame(ms[0]));
      FramesBatch(ms[1..]);
      assert (FrameList(ms) + [[]])[1..] == FrameList(ms[1..]) + [[]];
    }
  }

  lemma TrimEmpty()
    ensures Trim([]) == []
  {
  }

  // ---- the promise -----------------------------------------------------------------------------

  /** Whatever is written and however it is cut, the live client delivers exactly the written events, with nothing left over. */
  lemma {:induction false} LiveDeliversAll(ms: seq<Message>, chunks: seq<Text>)
    requires MessagesOk(ms) && Concat(chunks) == Output(ms)
    ensures ReceiveAll(chunks) == Live([], EventTexts(ms))
  {
    ChunksMakeNoDifference(chunks);
    OutputSplits(ms);
    FramesDeliver(ms);
    assert Init(FrameList(ms) + [[]]) == FrameList(ms);
  }

  /** And so does the batch client. */
  lemma {:induction false} BatchDeliversAll(ms: seq<Message>)
    requires MessagesOk(ms)
    ensures ReadAll(Output(ms)) == EventTexts(ms)
  {
    OutputSplits(ms);
    FramesBatch(ms);
  }

  function Values(ms: seq<Message>): seq<Json> {
    if ms == [] then [] else (if ms[0].Event? then [ms[0].value] else []) + Values(ms[1..])
  }

  lemma {:induction false} TextsOfValues(ms: seq<Message>)
    ensures |EventTexts(ms)| == |Values(ms)|
    ensures forall k :: 0 <= k < |Values(ms)| ==> EventTexts(ms)[k] == Stringify(Values(ms)[k])
  {
    if ms != [] { TextsOfValues(ms[1..]); }
  }

  lemma {:induction false} ValuesAreOk(ms: seq<Message>)
    requires MessagesOk(ms)
    ensures forall k :: 0 <= k < |Values(ms)| ==> JsonOk(Values(ms)[k])
  {
    hide JsonOk;
    if ms != [] {
      assert ms[0] in ms;
      ValuesAreOk(ms[1..]);
    }
  }

  /** The delivered texts determine the events, in order. */
  lemma {:induction false} TextsDetermineEvents(a: seq<Message>, b: seq<Message>)
    requires MessagesOk(a) && MessagesOk(b) && EventTexts(a) == EventTexts(b)
    ensures Values(a) == Values(b)
  {
    hide Stringify, JsonOk;
    TextsOfValues(a);
    TextsOfValues(b);
    ValuesAreOk(a);
    ValuesAreOk(b);
    forall k | 0 <= k < |Values(a)| ensures Values(a)[k] == Values(b)[k] {
      StringifyInjective(Values(a)[k], Values(b)[k]);
    }
  }

  lemma {:induction false} Parts(a: Text, b: Text, c: Text, d: Text)
    ensures (a + b) + (c + d) == a + ((b + c) + d)
  {
  }

  /** What goes over the wire, in ASCII around the text of the value. */
  lemma WireFormat(value: Json)
    ensures IsText(EVENT_LINE + [LF] + DATA, "event: roadex\ndata: ") && IsText(GAP, "\n\n") && IsText(KEEPALIVE, ": keepalive")
    ensures Frame(Event(value)) == (EVENT_LINE + [LF] + DATA) + Stringify(value) && Frame(Keepalive) == KEEPALIVE
  {
    hide Stringify;
    assert EVENT_LINE + [LF] + (DATA + Stringify(value)) == (EVENT_LINE + [LF] + DATA) + Stringify(value);
  }

  /** Trimming takes the whitespace at both ends, all of it and nothing else. */
  lemma {:induction false} TrimExactly(s: Text)
    ensures exists a, b :: AllSpace(a) && AllSpace(b) && s == a + Trim(s) + b
    ensures Trim(s) != [] ==> !Whitespace(Trim(s)[0]) && !Whitespace(Trim(s)[|Trim(s)| - 1])
  {
    hide SpaceRun, TrimEnd;
    var n := SpaceRun(s);
    TrimEndExactly(s[n..]);
    var b :| AllSpace(b) && s[n..] == TrimEnd(s[n..]) + b;
    assert s == s[..n] + Trim(s) + b;
    if Trim(s) != [] { assert Trim(s)[0] == s[n..][0] == s[n]; }
  }

  lemma {:induction false} TrimEndExactly(s: Text)
    ensures exists b :: AllSpace(b) && s == TrimEnd(s) + b
    ensures TrimEnd(s) != [] ==> !Whitespace(TrimEnd(s)[|TrimEnd(s)| - 1])
  {
    if s != [] && Whitespace(s[|s| - 1]) {
      var init, last := s[..|s| - 1], s[|s| - 1];
      TrimEndExactly(init);
      var b :| AllSpace(b) && init == TrimEnd(init) + b;
      hide TrimEnd, Whitespace;
      assert s == init + [last] == TrimEnd(init) + (b + [last]);
      assert AllSpace(b + [last]);
    } else {
      assert AllSpace([]) && s == TrimEnd(s) + [];
    }
  }

  // ---- the two ends ------------------------------------------------------------------------------

  class ResponseStream {
    var text: Text

    constructor ()
      ensures text == []
    {
      text := [];
    }

    method Write(part: Text)
      modifies this
      ensures text == old(text) + part
    {
      text := text + part;
    }

    /** `writeSseEvent` */
    method WriteEvent(value: Json)
      modifies this
      ensures text == old(text) + (Frame(Event(value)) + GAP)
    {
      hide EVENT_LINE, DATA, GAP, Stringify;
      ghost var before := text;
      Write(EVENT_LINE + [LF]);
      Write(DATA + Stringify(value) + GAP);
      Parts(before, EVENT_LINE + [LF], DATA + Stringify(value), GAP);
    }

    method WriteKeepalive()
      modifies this
      ensures text == old(text) + (Frame(Keepalive) + GAP)
    {
      Write(KEEPALIVE + GAP);
    }
  }

  class LiveReader {
    var buffer: Text
    var delivered: seq<Text>

    ghost function Current(): Live
      reads this
    {
      Live(buffer, delivered)
    }

    constructor ()
      ensures Current() == ReceiveAll([])
    {
      buffer, delivered := [], [];
    }

    /** One turn of the loop in `readLiveSessionStream` */
    method OnChunk(chunk: Text)
      modifies this
      ensures Current() == Receive(old(Current()), chunk)
    {
      hide DataOf, Frames;
      buffer := buffer + chunk;
      var frames := Frames(buffer);
      buffer := frames[|frames| - 1];
      frames := frames[..|frames| - 1];
      for i := 0 to |frames|
        invariant buffer == old(Receive(Current(), chunk)).buffer
        invariant delivered + Deliver(frames[i..]) == old(delivered) + Deliver(frames)
      {
        assert frames[i..][1..] == frames[i + 1..];
        var data := DataOf(frames[i]);
        if data.Some? { delivered := delivered + [data.value]; }
      }
    }
  }
}
