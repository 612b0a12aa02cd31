/**
 The runner's output, one JSON event a line: the reader that takes it chunk by chunk while the
 process runs, and the reader that takes it whole.  What a single line means is a parameter.
 */
module JsonlReader {
  import opened Options
  import opened JsonGrammar
  import opened JsonReader
  import opened JsonLines
  import opened Sse

  const CR: Unit := 13

  /** `None` stands for an absent or empty string. */
  datatype CodexEvent = CodexEvent(message: Option<Text>, threadId: Option<Text>)

  type LineParser = Text -> Option<CodexEvent>

  // ---- reading ---------------------------------------------------------------------------------

  /** `text.split(/\r?\n/)` */
  function SplitLines(s: Text): (r: seq<Text>)
    ensures |r| >= 1
  {
    if s == [] then [[]]
    else if s[0] == LF then [[]] + SplitLines(s[1..])
    else if s[0] == CR && |s| > 1 && s[1] == LF then [[]] + SplitLines(s[2..])
    else Prepend(s[0], SplitLines(s[1..]))
  }

  function JoinLines(lines: seq<Text>): Text {
    if lines == [] then [] else if |lines| == 1 then lines[0] else lines[0] + [LF] + JoinLines(lines[1..])
  }

  /** The lines, trimmed, without the empty ones. */
  function Kept(lines: seq<Text>): seq<Text> {
    if lines == [] then [] else KeepOne(lines[0]) + Kept(lines[1..])
  }

  function KeepOne(line: Text): seq<Text> {
    var t := Trim(line);
    if t == [] then [] else [t]
  }

  function ParseLines(parse: LineParser, lines: seq<Text>): seq<CodexEvent> {
    if lines == [] then [] else ParseOne(parse, lines[0]) + ParseLines(parse, lines[1..])
  }

  function ParseOne(parse: LineParser, line: Text): seq<CodexEvent> {
    var e := parse(line);
    if e.Some? && (e.value.message.Some? || e.value.threadId.Some?) then [e.value] else []
  }

  function LastThread(events: seq<CodexEvent>): Option<Text> {
    if events == [] then None
    else if events[|events| - 1].threadId.Some? then events[|events| - 1].threadId
    else LastThread(events[..|events| - 1])
  }

  function Or(a: Option<Text>, b: Option<Text>): Option<Text> {
    if a.Some? then a else b
  }

  /** The events of `parseCodexJsonlEvents`; its thread id is their `LastThread`. */
  function Events(parse: LineParser, chunk: Text): seq<CodexEvent> {
    ParseLines(parse, Kept(SplitLines(chunk)))
  }

  /** What the runner carries from chunk to chunk. */
  datatype Reader = Reader(buffer: Text, threadId: Option<Text>, events: seq<CodexEvent>)

  /** A chunk arrives: `parseCodexJsonlStream` of what was left over and the chunk. */
  function OnData(parse: LineParser, r: Reader, chunk: Text): Reader {
    var lines := SplitLines(r.buffer + chunk);
    var events := Events(parse, JoinLines(Init(lines)));
    Reader(Last(lines), Or(LastThread(events), r.threadId), r.events + events)
  }

  /** The process has ended: what is left over is read as well. */
  function Flush(parse: LineParser, r: Reader): Reader {
    if Trim(r.buffer) == [] then r
    else
      var events := Events(parse, r.buffer);
      Reader(r.buffer, Or(LastThread(events), r.threadId), r.events + events)
  }

  function OnAll(parse: LineParser, initial: Option<Text>, chunks: seq<Text>): Reader {
    if chunks == [] then Reader([], initial, [])
    else OnData(parse, OnAll(parse, initial, chunks[..|chunks| - 1]), chunks[|chunks| - 1])
  }

  // ---- carriage returns --------------------------------------------------------------------------

  lemma {:induction false} TrimEndSpace(s: Text, u: Unit)
    requires Whitespace(u)
    ensures Trim(s + [u]) == Trim(s)
  {
    var t := s + [u];
    if SpaceRun(s) == |s| {
      assert s[..|s|] == s;
      AllSpaceRun(s);
      AllSpaceRun(t);
      assert t[|t|..] == [] && s[|s|..] == [];
    } else {
      SpaceRunStops(s, [u]);
      var n := SpaceRun(s);
      assert t[n..] == s[n..] + [u];
      assert (s[n..] + [u])[..|s[n..] + [u]| - 1] == s[n..];
    }
  }

  lemma {:induction false} AllSpaceRun(s: Text)
    requires AllSpace(s)
    ensures SpaceRun(s) == |s|
  {
    if s != [] { AllSpaceRun(s[1..]); }
  }

  lemma {:induction false} SpaceRunStops(s: Text, more: Text)
    requires SpaceRun(s) < |s|
    ensures SpaceRun(s + more) == SpaceRun(s)
  {
    if Whitespace(s[0]) {
      assert (s + more)[1..] == s[1..] + more;
      SpaceRunStops(s[1..], more);
    }
  }

  /** Two lists of lines that differ in trailing carriage returns only. */
  predicate Alike(a: seq<Text>, b: seq<Text>) {
    |a| == |b| && forall i :: 0 <= i < |a| ==> a[i] == b[i] || a[i] + [CR] == b[i]
  }

  /** And in none in the last line. */
  predicate AlikeToLast(a: seq<Text>, b: seq<Text>) {
    a != [] && Alike(a, b) && Last(a) == Last(b)
  }

  lemma {:induction false} AlikePrepend(u: Unit, a: seq<Text>, b: seq<Text>)
    requires AlikeToLast(a, b)
    ensures AlikeToLast(Prepend(u, a), Prepend(u, b))
  {
    if a[0] != b[0] { assert [u] + a[0] + [CR] == [u] + b[0]; }
    var pa, pb := Prepend(u, a), Prepend(u, b);
    forall i | 0 < i < |pa| ensures pa[i] == pb[i] || pa[i] + [CR] == pb[i] {
      assert pa[i] == a[i] && pb[i] == b[i];
    }
  }

  lemma {:induction false} AlikeBreak(a: seq<Text>, b: seq<Text>)
    requires AlikeToLast(a, b)
    ensures AlikeToLast([[]] + a, [[]] + b)
  {
    var pa, pb := [[]] + a, [[]] + b;
    forall i | 0 < i < |pa| ensures pa[i] == pb[i] || pa[i] + [CR] == pb[i] {
      assert pa[i] == a[i - 1] && pb[i] == b[i - 1];
    }
  }

  lemma {:induction false} AlikeReturn(a: seq<Text>, b: seq<Text>)
    requires AlikeToLast(a, b)
    ensures AlikeToLast([[]] + a, Prepend(CR, [[]] + b))
  {
    var pa, pb := [[]] + a, Prepend(CR, [[]] + b);
    assert [CR] + [] == [] + [CR];
    forall i | 0 < i < |pa| ensures pa[i] == pb[i] || pa[i] + [CR] == pb[i] {
      assert pa[i] == a[i - 1] && pb[i] == b[i - 1];
    }
  }

  /** Splitting at `\r?\n` and at `\n` differ in trailing carriage returns, and not in the last line. */
  lemma {:induction false} SplitsAlike(s: Text)
    ensures AlikeToLast(SplitLines(s), Lines(s))
    ensures Alike(SplitLines(s), Lines(s)) && Last(SplitLines(s)) == Last(Lines(s))
  {
    hide Prepend;
    if s != [] {
      if s[0] == LF {
        SplitsAlike(s[1..]);
        AlikeBreak(SplitLines(s[1..]), Lines(s[1..]));
      } else if s[0] == CR && |s| > 1 && s[1] == LF {
        SplitsAlike(s[2..]);
        assert s[1..][1..] == s[2..] && s[1..][0] == LF;
        AlikeReturn(SplitLines(s[2..]), Lines(s[2..]));
      } else {
        SplitsAlike(s[1..]);
        AlikePrepend(s[0], SplitLines(s[1..]), Lines(s[1..]));
      }
    }
  }

  lemma {:induction false} AlikeKept(a: seq<Text>, b: seq<Text>)
    requires Alike(a, b)
    ensures Kept(a) == Kept(b)
  {
    hide Trim;
    if a != [] {
      AlikeKept(a[1..], b[1..]);
      if a[0] != b[0] { TrimEndSpace(a[0], CR); }
    }
  }

  // ---- lines -------------------------------------------------------------------------------------

  lemma {:induction false} LinesContinue(a: Text, c: Text)
    ensures Lines(a + c) == Init(Lines(a)) + Lines(Last(Lines(a)) + c)
  {
    hide Prepend;
    if a == [] {
      assert Init([[]]) == [] && [] + c == c;
    } else {
      assert (a + c)[1..] == a[1..] + c;
      LinesContinue(a[1..], c);
      var r := Lines(a[1..]);
      if a[0] == LF {
        BehindGap(r, Lines(Last(r) + c));
      } else if |r| == 1 {
        Undivided(a[1..]);
        Alone(a);
        assert Lines(a) == [a] && Init([a]) == [];
      } else {
        PrependParts(a[0], r, []);
        PrependParts(a[0], Init(r), Lines(Last(r) + c));
      }
    }
  }

  lemma {:induction false} Undivided(a: Text)
    requires |Lines(a)| == 1
    ensures Lines(a) == [a]
  {
    if a != [] && a[0] != LF {
      Undivided(a[1..]);
      Alone(a);
    }
  }

  lemma {:induction false} LinesHoldNoBreak(s: Text)
    ensures forall i :: 0 <= i < |Lines(s)| ==> OneLine(Lines(s)[i])
  {
    if s != [] {
      LinesHoldNoBreak(s[1..]);
      var r := Lines(s[1..]);
      if s[0] != LF { assert OneLine(r[0]); }
    }
  }

  lemma {:induction false} JoinSplits(lines: seq<Text>)
    requires lines != [] && forall i :: 0 <= i < |lines| ==> OneLine(lines[i])
    ensures Lines(JoinLines(lines)) == lines
  {
    LineSplits(lines[0], if |lines| == 1 then [] else JoinLines(lines[1..]));
    if |lines| > 1 {
      JoinSplits(lines[1..]);
      assert [lines[0]] + lines[1..] == lines;
    } else {
      assert lines == [lines[0]];
    }
  }

  lemma {:induction false} KeptAppend(a: seq<Text>, b: seq<Text>)
    ensures Kept(a + b) == Kept(a) + Kept(b)
  {
    hide KeepOne;
    if a == [] {
      assert a + b == b;
    } else {
      KeptAppend(a[1..], b);
      assert (a + b)[1..] == a[1..] + b;
    }
  }

  lemma {:induction false} ParseAppend(parse: LineParser, a: seq<Text>, b: seq<Text>)
    ensures ParseLines(parse, a + b) == ParseLines(parse, a) + ParseLines(parse, b)
  {
    hide ParseOne;
    if a == [] {
      assert a + b == b;
    } else {
      ParseAppend(parse, a[1..], b);
      assert (a + b)[1..] == a[1..] + b;
    }
  }

  lemma {:induction false} LastThreadAppend(a: seq<CodexEvent>, b: seq<CodexEvent>)
    ensures LastThread(a + b) == Or(LastThread(b), LastThread(a))
  {
    if b == [] {
      assert a + b == a;
    } else {
      LastThreadAppend(a, b[..|b| - 1]);
      assert (a + b)[..|a + b| - 1] == a + b[..|b| - 1];
    }
  }

  // ---- the promise -----------------------------------------------------------------------------

  /** The lines that are complete in a text, read as the stream reader reads them. */
  lemma {:induction false} CompleteLines(parse: LineParser, s: Text)
    ensures Events(parse, JoinLines(Init(SplitLines(s)))) == ParseLines(parse, Kept(Init(Lines(s))))
  {
    hide Kept, Lines, SplitLines, JoinLines, ParseLines;
    var lines := Init(SplitLines(s));
    SplitsAlike(s);
    AlikeKept(lines, Init(Lines(s)));
    var joined := JoinLines(lines);
    SplitsAlike(joined);
    AlikeKept(SplitLines(joined), Lines(joined));
    if lines == [] {
      NothingKept();
    } else {
      PartsHoldNoBreak(s);
      JoinSplits(lines);
    }
  }

  lemma NothingKept()
    ensures Kept(Lines(JoinLines([]))) == [] && Kept([]) == []
  {
    TrimEmpty();
    assert Lines([]) == [[]] && Kept([[]]) == Kept([]);
  }

  lemma {:induction false} PartsHoldNoBreak(s: Text)
    ensures forall i :: 0 <= i < |SplitLines(s)| ==> OneLine(SplitLines(s)[i])
  {
    hide SplitLines, Lines;
    LinesHoldNoBreak(s);
    SplitsAlike(s);
    forall i | 0 <= i < |SplitLines(s)| ensures OneLine(SplitLines(s)[i]) {
      if SplitLines(s)[i] != Lines(s)[i] {
        assert forall k :: 0 <= k < |SplitLines(s)[i]| ==> SplitLines(s)[i][k] == Lines(s)[i][k];
      }
    }
  }

  lemma {:induction false} WholeLines(parse: LineParser, s: Text)
    ensures Events(parse, s) == ParseLines(parse, Kept(Init(Lines(s)))) + ParseLines(parse, Kept([Last(Lines(s))]))
  {
    hide Kept, Lines, SplitLines, ParseLines;
    SplitsAlike(s);
    AlikeKept(SplitLines(s), Lines(s));
    assert Lines(s) == Init(Lines(s)) + [Last(Lines(s))];
    KeptAppend(Init(Lines(s)), [Last(Lines(s))]);
    ParseAppend(parse, Kept(Init(Lines(s))), Kept([Last(Lines(s))]));
  }

  /** After any chunks the reader has read the complete lines of everything that has arrived, and keeps the last one. */
  lemma {:induction false} StreamReadsCompleteLines(parse: LineParser, initial: Option<Text>, chunks: seq<Text>)
    ensures var lines := Lines(Concat(chunks));
            var events := ParseLines(parse, Kept(Init(lines)));
            OnAll(parse, initial, chunks) == Reader(Last(lines), Or(LastThread(events), initial), events)
  {
    hide Kept, Lines, SplitLines, ParseLines, Events, JoinLines;
    if chunks == [] {
      EmptyReads(parse);
    } else {
      var before, chunk := chunks[..|chunks| - 1], chunks[|chunks| - 1];
      StreamReadsCompleteLines(parse, initial, before);
      var old_ := Lines(Concat(before));
      LinesContinue(Concat(before), chunk);
      var s := Last(old_) + chunk;
      CompleteLines(parse, s);
      SplitsAlike(s);
      assert Init(Init(old_) + Lines(s)) == Init(old_) + Init(Lines(s));
      KeptAppend(Init(old_), Init(Lines(s)));
      ParseAppend(parse, Kept(Init(old_)), Kept(Init(Lines(s))));
      LastThreadAppend(ParseLines(parse, Kept(Init(old_))), ParseLines(parse, Kept(Init(Lines(s)))));
    }
  }

  lemma EmptyReads(parse: LineParser)
    ensures Lines([]) == [[]] && Init([[]]) == [] && Kept([]) == [] && ParseLines(parse, []) == []
  {
  }

  /**
   However the output is cut into chunks, also between a carriage return and its line feed, the events
   and the thread id of the stream reader are those of the batch reader on the whole output.
   */
  lemma {:induction false} StreamAgreesWithBatch(parse: LineParser, initial: Option<Text>, chunks: seq<Text>)
    ensures var r := Flush(parse, OnAll(parse, initial, chunks));
            var batch := Events(parse, Concat(chunks));
            r.events == batch && r.threadId == Or(LastThread(batch), initial)
  {
    hide Kept, Lines, SplitLines, ParseLines, JoinLines, Trim, Events;
    StreamReadsCompleteLines(parse, initial, chunks);
    var s := Concat(chunks);
    var lines := Lines(s);
    var complete := ParseLines(parse, Kept(Init(lines)));
    WholeLines(parse, s);
    WholeLines(parse, Last(lines));
    LastLineAlone(s);
    LastThreadAppend(complete, ParseLines(parse, Kept([Last(lines)])));
    OneKept(parse, Last(lines));
    assert Init([Last(lines)]) == [];
    EmptyReads(parse);
    assert complete + [] == complete;
    assert Trim(Last(lines)) != [] ==> Events(parse, Last(lines)) == ParseLines(parse, Kept([Last(lines)]));
  }

  lemma {:induction false} LastLineAlone(s: Text)
    ensures Lines(Last(Lines(s))) == [Last(Lines(s))]
  {
    LinesHoldNoBreak(s);
    LineSplits(Last(Lines(s)), []);
  }

  lemma {:induction false} OneKept(parse: LineParser, line: Text)
    ensures Trim(line) == [] ==> ParseLines(parse, Kept([line])) == []
  {
    hide Trim;
    assert [line][1..] == [];
  }

  /** The line, trimmed, is one event of this kind. */
  predicate Reports(parse: LineParser, line: Text, e: CodexEvent) {
    Trim(line) != [] && parse(Trim(line)) == Some(e) && (e.message.Some? || e.threadId.Some?)
  }

  /** The event names a thread, and none behind it does. */
  predicate LastNamed(events: seq<CodexEvent>, k: nat)
    requires k < |events|
  {
    events[k].threadId.Some? && forall j :: k < j < |events| ==> events[j].threadId.None?
  }

  lemma {:induction false} LinesReport(parse: LineParser, lines: seq<Text>, e: CodexEvent)
    ensures e in ParseLines(parse, Kept(lines)) <==> exists i :: 0 <= i < |lines| && Reports(parse, lines[i], e)
  {
    hide Trim;
    if lines != [] {
      LinesReport(parse, lines[1..], e);
      ParseAppend(parse, KeepOne(lines[0]), Kept(lines[1..]));
      assert KeepOne(lines[0]) != [] ==> KeepOne(lines[0])[1..] == [];
      forall i | 0 <= i < |lines[1..]| ensures lines[1..][i] == lines[i + 1] {}
      if exists i :: 0 <= i < |lines| && Reports(parse, lines[i], e) {
        var i :| 0 <= i < |lines| && Reports(parse, lines[i], e);
        if i > 0 { assert Reports(parse, lines[1..][i - 1], e); }
      }
    }
  }

  /**
   However the output is cut, an event is read exactly when some line of the output, trimmed, is that
   event and it has a message or a thread; and the thread is that of the last event that has one.
   */
  lemma {:induction false} EventsAreLines(parse: LineParser, initial: Option<Text>, chunks: seq<Text>, e: CodexEvent)
    ensures var r, lines := Flush(parse, OnAll(parse, initial, chunks)), Lines(Concat(chunks));
            && (e in r.events <==> exists i :: 0 <= i < |lines| && Reports(parse, lines[i], e))
            && (forall k :: 0 <= k < |r.events| && LastNamed(r.events, k) ==> r.threadId == r.events[k].threadId)
            && ((forall k :: 0 <= k < |r.events| ==> r.events[k].threadId.None?) ==> r.threadId == initial)
  {
    hide Kept, Lines, SplitLines, ParseLines, Flush, OnAll, Reports, LastThread;
    StreamAgreesWithBatch(parse, initial, chunks);
    var s := Concat(chunks);
    SplitsAlike(s);
    AlikeKept(SplitLines(s), Lines(s));
    LinesReport(parse, Lines(s), e);
    LastThreadExactly(Events(parse, s));
  }

  lemma {:induction false} LastThreadExactly(events: seq<CodexEvent>)
    ensures forall k :: 0 <= k < |events| && LastNamed(events, k) ==> LastThread(events) == events[k].threadId
    ensures (forall k :: 0 <= k < |events| ==> events[k].threadId.None?) ==> LastThread(events) == None
  {
    if events != [] {
      var init := events[..|events| - 1];
      LastThreadExactly(init);
      forall k | 0 <= k < |events| && LastNamed(events, k) ensures LastThread(events) == events[k].threadId {
        if k < |events| - 1 {
          assert forall j :: k <= j < |init| ==> init[j] == events[j];
          assert LastNamed(init, k);
        }
      }
    }
  }

  // ---- the runner --------------------------------------------------------------------------------

  class CodexRun {
    const parse: LineParser
    var stdoutBuffer: Text
    var codexThreadId: Option<Text>
    var events: seq<CodexEvent>

    ghost function Current(): Reader
      reads this
    {
      Reader(stdoutBuffer, codexThreadId, events)
    }

    constructor (parse: LineParser, initial: Option<Text>)
      ensures this.parse == parse && Current() == OnAll(parse, initial, [])
    {
      this.parse := parse;
      stdoutBuffer, codexThreadId, events := [], initial, [];
    }

    method Push(parsed: seq<CodexEvent>)
      modifies this`events
      ensures events == old(events) + parsed
    {
      for i := 0 to |parsed|
        invariant events == old(events) + parsed[..i]
      {
        assert parsed[..i + 1] == parsed[..i] + [parsed[i]];
        events := events + [parsed[i]];
      }
      assert parsed[..|parsed|] == parsed;
    }

    /** The data handler of the runner's standard output */
    method OnStdout(chunk: Text)
      modifies this
      ensures Current() == OnData(parse, old(Current()), chunk)
    {
      hide SplitLines, Events, LastThread, JoinLines;
      var lines := SplitLines(stdoutBuffer + chunk);
      stdoutBuffer := lines[|lines| - 1];
      var parsed := Events(parse, JoinLines(lines[..|lines| - 1]));
      var thread := LastThread(parsed);
      if thread.Some? { codexThreadId := thread; }
      Push(parsed);
    }

    /** The process has ended. */
    method OnClose()
      modifies this
      ensures Current() == Flush(parse, old(Current()))
    {
      hide Events, LastThread, Trim;
      if Trim(stdoutBuffer) != [] {
        var parsed := Events(parse, stdoutBuffer);
        var thread := LastThread(parsed);
        if thread.Some? { codexThreadId := thread; }
        Push(parsed);
      }
    }
  }
}
