/**
 The serial runtime verifier: markers are looked for in the last 8,192 characters of what a device
 has printed, after every chunk.
 */
module MarkerWindow {
  import opened Lists

  const WINDOW: nat := 8192

  predicate OccursAt(text: string, marker: string, i: int) {
    0 <= i && i + |marker| <= |text| && text[i..i + |marker|] == marker
  }

  /** `text.includes(marker)` */
  predicate Includes(text: string, marker: string) {
    exists i :: 0 <= i <= |text| && OccursAt(text, marker, i)
  }

  datatype Verifier = Verifier(output: string, flags: seq<bool>, stage: int)

  function Flags(output: string, required: seq<string>, flags: seq<bool>): (r: seq<bool>)
    requires |flags| == |required|
    ensures |r| == |flags| && forall i :: 0 <= i < |r| ==> r[i] == (flags[i] || Includes(output, required[i]))
  {
    if required == [] then []
    else [flags[0] || Includes(output, required[0])] + Flags(output, required[1..], flags[1..])
  }

  /** The loop over the stages behind `from`. */
  function Stage(output: string, stages: seq<string>, stage: int, from: nat): int
    decreases |stages| - from
  {
    if from >= |stages| then stage
    else Stage(output, stages, if Includes(output, stages[from]) then from else stage, from + 1)
  }

  function Observe(required: seq<string>, stages: seq<string>, v: Verifier, chunk: string): Verifier
    requires |v.flags| == |required| && -1 <= v.stage < |stages|
  {
    var output := LastN(v.output + chunk, WINDOW);
    Verifier(output, Flags(output, required, v.flags), Stage(output, stages, v.stage, v.stage + 1))
  }

  function Start(required: seq<string>): Verifier {
    Verifier("", seq(|required|, _ => false), -1)
  }

  function ObserveAll(required: seq<string>, stages: seq<string>, chunks: seq<string>): (v: Verifier)
    ensures |v.flags| == |required| && -1 <= v.stage < |stages|
    decreases |chunks|
  {
    if chunks == [] then Start(required)
    else
      var before := ObserveAll(required, stages, chunks[..|chunks| - 1]);
      StageInRange(LastN(before.output + chunks[|chunks| - 1], WINDOW), stages, before.stage, before.stage + 1);
      Observe(required, stages, before, chunks[|chunks| - 1])
  }

  lemma {:induction false} ObservedNext(required: seq<string>, stages: seq<string>, chunks: seq<string>, chunk: string)
    ensures ObserveAll(required, stages, chunks + [chunk]) == Observe(required, stages, ObserveAll(required, stages, chunks), chunk)
  {
    hide Observe;
    assert (chunks + [chunk])[..|chunks + [chunk]| - 1] == chunks;
  }

  function Stream(chunks: seq<string>): string {
    if chunks == [] then "" else Stream(chunks[..|chunks| - 1]) + chunks[|chunks| - 1]
  }

  lemma {:induction false} StageInRange(output: string, stages: seq<string>, stage: int, from: nat)
    requires -1 <= stage < |stages| && stage < from
    ensures -1 <= Stage(output, stages, stage, from) < |stages|
    decreases |stages| - from
  {
    if from < |stages| { StageInRange(output, stages, if Includes(output, stages[from]) then from else stage, from + 1); }
  }

  // ---- the window ------------------------------------------------------------------------------

  /** The output is the end of the stream. */
  lemma {:induction false} OutputIsEnd(required: seq<string>, stages: seq<string>, chunks: seq<string>)
    ensures ObserveAll(required, stages, chunks).output == LastN(Stream(chunks), 8192)
    decreases |chunks|
  {
    if chunks != [] {
      OutputIsEnd(required, stages, chunks[..|chunks| - 1]);
      LastNGrows(Stream(chunks[..|chunks| - 1]), chunks[|chunks| - 1], WINDOW);
    }
  }

  /** What is in the window is in the stream, at the same distance from the end. */
  lemma WindowOccurs(text: string, marker: string, i: nat)
    requires OccursAt(LastN(text, WINDOW), marker, i)
    ensures Includes(text, marker)
  {
    var offset := |text| - |LastN(text, WINDOW)|;
    assert OccursAt(text, marker, offset + i);
  }

  lemma EndOccurs(text: string, marker: string, i: nat)
    requires OccursAt(text, marker, i) && |text| - WINDOW <= i
    ensures Includes(LastN(text, WINDOW), marker)
  {
    var offset := |text| - |LastN(text, WINDOW)|;
    assert OccursAt(LastN(text, WINDOW), marker, i - offset);
  }

  /** A marker that a chunk brings is in the window, unless chunk and marker together are too long for it. */
  lemma NewMarkerIsSeen(before: string, chunk: string, marker: string)
    requires |chunk| + |marker| - 1 <= WINDOW
    ensures Includes(before + chunk, marker) ==> Includes(before, marker) || Includes(LastN(before + chunk, WINDOW), marker)
    ensures Includes(LastN(before + chunk, WINDOW), marker) || Includes(before, marker) ==> Includes(before + chunk, marker)
  {
    var all := before + chunk;
    if Includes(all, marker) {
      var i :| 0 <= i <= |all| && OccursAt(all, marker, i);
      if i + |marker| <= |before| {
        assert all[i..i + |marker|] == before[i..i + |marker|];
        assert OccursAt(before, marker, i);
      } else {
        EndOccurs(all, marker, i);
      }
    }
    if Includes(LastN(all, WINDOW), marker) {
      var i :| 0 <= i <= |LastN(all, WINDOW)| && OccursAt(LastN(all, WINDOW), marker, i);
      WindowOccurs(all, marker, i);
    }
    if Includes(before, marker) {
      var i :| 0 <= i <= |before| && OccursAt(before, marker, i);
      assert all[i..i + |marker|] == before[i..i + |marker|];
      assert OccursAt(all, marker, i);
    }
  }

  // ---- whatever the chunks ---------------------------------------------------------------------

  /** After the first `k` chunks the window holds the marker. */
  ghost predicate Seen(chunks: seq<string>, k: nat, marker: string)
    requires k <= |chunks|
  {
    Includes(LastN(Stream(chunks[..k]), 8192), marker)
  }

  ghost predicate EverSeen(chunks: seq<string>, marker: string) {
    exists k :: 1 <= k <= |chunks| && Seen(chunks, k, marker)
  }

  lemma {:induction false} EverSeenNext(chunks: seq<string>, marker: string)
    requires chunks != []
    ensures EverSeen(chunks, marker) <==> EverSeen(chunks[..|chunks| - 1], marker) || Seen(chunks, |chunks|, marker)
  {
    hide Includes;
    var init := chunks[..|chunks| - 1];
    forall k | 1 <= k <= |init| ensures Seen(init, k, marker) == Seen(chunks, k, marker) {
      assert init[..k] == chunks[..k];
    }
  }

  /** A required marker is flagged exactly when the window has held it after some chunk. */
  lemma {:induction false} FlaggedWhenSeen(required: seq<string>, stages: seq<string>, chunks: seq<string>, m: nat)
    requires m < |required|
    ensures ObserveAll(required, stages, chunks).flags[m] <==> EverSeen(chunks, required[m])
    decreases |chunks|
  {
    hide Includes;
    if chunks != [] {
      FlaggedWhenSeen(required, stages, chunks[..|chunks| - 1], m);
      OutputIsEnd(required, stages, chunks);
      EverSeenNext(chunks, required[m]);
      assert chunks[..|chunks|] == chunks;
    }
  }

  lemma {:induction false} StreamGrows(chunks: seq<string>, k: nat)
    requires k <= |chunks|
    ensures Stream(chunks[..k]) <= Stream(chunks)
    decreases |chunks|
  {
    if k == |chunks| {
      assert chunks[..k] == chunks;
    } else {
      StreamGrows(chunks[..|chunks| - 1], k);
      assert chunks[..|chunks| - 1][..k] == chunks[..k];
    }
  }

  /** What has been seen occurs. */
  lemma {:induction false} SeenOccurs(chunks: seq<string>, marker: string)
    requires EverSeen(chunks, marker)
    ensures Includes(Stream(chunks), marker)
  {
    hide Includes;
    var k :| 1 <= k <= |chunks| && Seen(chunks, k, marker);
    var text := Stream(chunks[..k]);
    WindowIncludes(text, marker);
    StreamGrows(chunks, k);
    PrefixIncludes(text, Stream(chunks), marker);
  }

  lemma WindowIncludes(text: string, marker: string)
    requires Includes(LastN(text, WINDOW), marker)
    ensures Includes(text, marker)
  {
    var window := LastN(text, WINDOW);
    var i :| 0 <= i <= |window| && OccursAt(window, marker, i);
    WindowOccurs(text, marker, i);
  }

  lemma PrefixIncludes(before: string, text: string, marker: string)
    requires before <= text && Includes(before, marker)
    ensures Includes(text, marker)
  {
    var i :| 0 <= i <= |before| && OccursAt(before, marker, i);
    assert text[i..i + |marker|] == before[i..i + |marker|];
    assert OccursAt(text, marker, i);
  }

  // ---- flags -----------------------------------------------------------------------------------

  /** Every chunk is short enough for a marker to fit in the window beside it. */
  predicate ChunksFit(chunks: seq<string>, marker: string) {
    forall k :: 0 <= k < |chunks| ==> |chunks[k]| + |marker| - 1 <= 8192
  }

  /** Then, after each chunk, a required marker is flagged exactly when it occurs in the stream so far. */
  lemma {:induction false} FlaggedExactly(required: seq<string>, stages: seq<string>, chunks: seq<string>, m: nat)
    requires m < |required| && chunks != [] && ChunksFit(chunks, required[m])
    ensures ObserveAll(required, stages, chunks).flags[m] <==> Includes(Stream(chunks), required[m])
    decreases |chunks|
  {
    var init, chunk := chunks[..|chunks| - 1], chunks[|chunks| - 1];
    OutputIsEnd(required, stages, chunks);
    NewMarkerIsSeen(Stream(init), chunk, required[m]);
    if init == [] {
      NothingYet(required, stages, chunk, required[m]);
    } else {
      FlaggedExactly(required, stages, init, m);
    }
  }

  /** At the start nothing is flagged, and only the empty marker occurs, which the window then holds too. */
  lemma {:induction false} NothingYet(required: seq<string>, stages: seq<string>, chunk: string, marker: string)
    ensures Includes("", marker) ==> Includes(LastN("" + chunk, WINDOW), marker)
  {
    if Includes("", marker) {
      assert marker == "";
      assert OccursAt(LastN("" + chunk, WINDOW), marker, 0);
    }
  }

  // ---- stage -----------------------------------------------------------------------------------

  /** The largest index whose marker occurs, or -1. */
  ghost predicate LargestOf(stages: seq<string>, text: string, stage: int) {
    && -1 <= stage < |stages|
    && (stage >= 0 ==> Includes(text, stages[stage]))
    && forall j :: stage < j < |stages| ==> !Includes(text, stages[j])
  }

  /** The loop finds the largest index in the window that is behind the stage, or keeps the stage. */
  lemma {:induction false} StageFinds(output: string, stages: seq<string>, stage: int, from: nat)
    requires -1 <= stage < |stages| && stage < from
    requires forall j :: stage < j < from && j < |stages| ==> !Includes(output, stages[j])
    ensures var r := Stage(output, stages, stage, from);
            && stage <= r < |stages| && (r != stage ==> r >= 0 && Includes(output, stages[r]))
            && forall j :: r < j < |stages| ==> !Includes(output, stages[j])
    decreases |stages| - from
  {
    if from < |stages| { StageFinds(output, stages, if Includes(output, stages[from]) then from else stage, from + 1); }
  }

  /** The stage is the largest index whose marker has occurred in the stream, or -1. */
  lemma {:induction false} StageExactly(required: seq<string>, stages: seq<string>, chunks: seq<string>)
    requires chunks != [] && forall j :: 0 <= j < |stages| ==> ChunksFit(chunks, stages[j])
    ensures LargestOf(stages, Stream(chunks), ObserveAll(required, stages, chunks).stage)
    decreases |chunks|
  {
    hide Includes;
    var init, chunk := chunks[..|chunks| - 1], chunks[|chunks| - 1];
    var before, after := ObserveAll(required, stages, init), ObserveAll(required, stages, chunks);
    OutputIsEnd(required, stages, chunks);
    StageFinds(after.output, stages, before.stage, before.stage + 1);
    if init != [] { StageExactly(required, stages, init); }
    forall j | 0 <= j < |stages|
      ensures Includes(Stream(chunks), stages[j]) <==> Includes(after.output, stages[j]) || (init != [] && Includes(Stream(init), stages[j]))
    {
      assert ChunksFit(chunks, stages[j]);
      NewMarkerIsSeen(Stream(init), chunk, stages[j]);
      NothingYet(required, stages, chunk, stages[j]);
    }
  }

  /** The largest index whose marker the window has held after some chunk, or -1. */
  ghost predicate LargestSeen(stages: seq<string>, chunks: seq<string>, stage: int) {
    && -1 <= stage < |stages|
    && (stage >= 0 ==> EverSeen(chunks, stages[stage]))
    && forall j :: stage < j < |stages| ==> !EverSeen(chunks, stages[j])
  }

  /** Whatever the chunks, the stage is the largest index whose marker the window has held. */
  lemma {:induction false} StageWhenSeen(required: seq<string>, stages: seq<string>, chunks: seq<string>)
    ensures LargestSeen(stages, chunks, ObserveAll(required, stages, chunks).stage)
    decreases |chunks|
  {
    hide Includes, EverSeen;
    if chunks == [] {
      forall j | 0 <= j < |stages| ensures !EverSeen([], stages[j]) { NothingSeen(stages[j]); }
    } else {
      var init := chunks[..|chunks| - 1];
      var before, after := ObserveAll(required, stages, init), ObserveAll(required, stages, chunks);
      StageWhenSeen(required, stages, init);
      OutputIsEnd(required, stages, chunks);
      StageFinds(after.output, stages, before.stage, before.stage + 1);
      assert chunks[..|chunks|] == chunks;
      forall j | 0 <= j < |stages| ensures EverSeen(chunks, stages[j]) <==> EverSeen(init, stages[j]) || Includes(after.output, stages[j]) {
        EverSeenNext(chunks, stages[j]);
      }
    }
  }

  lemma {:induction false} NothingSeen(marker: string)
    ensures !EverSeen([], marker)
  {
  }

  // ---- how long chunks may be --------------------------------------------------------------------

  predicate AtMost(chunks: seq<string>, length: nat) {
    forall k :: 0 <= k < |chunks| ==> |chunks[k]| <= length
  }

  /** Chunks of this length never make the verifier miss the marker, or flag it too early. */
  ghost predicate Reliable(marker: string, length: nat) {
    forall required: seq<string>, stages: seq<string>, chunks: seq<string>, m: nat ::
      m < |required| && required[m] == marker && chunks != [] && AtMost(chunks, length)
      ==> (ObserveAll(required, stages, chunks).flags[m] <==> Includes(Stream(chunks), marker))
  }

  /** The marker is cut before its last character, which comes with a chunk that pushes its first one out. */
  function Hiding(marker: string, length: nat): seq<string>
    requires |marker| >= 1 && length >= 1
  {
    Letters(marker[..|marker| - 1]) + [LongChunk(marker, length)]
  }

  function LongChunk(marker: string, length: nat): string
    requires |marker| >= 1 && length >= 1
  {
    var filler := if marker[|marker| - 1] == 'x' then 'y' else 'x';
    [marker[|marker| - 1]] + seq(length - 1, _ => filler)
  }

  function Letters(text: string): seq<string> {
    if text == "" then [] else Letters(text[..|text| - 1]) + [[text[|text| - 1]]]
  }

  lemma {:induction false} LettersJoined(text: string)
    ensures Stream(Letters(text)) == text && AtMost(Letters(text), 1)
    decreases |text|
  {
    if text != "" {
      LettersJoined(text[..|text| - 1]);
      assert Letters(text)[..|Letters(text)| - 1] == Letters(text[..|text| - 1]);
    }
  }

  lemma {:induction false} HidingStream(marker: string, length: nat)
    requires |marker| >= 1 && length >= 1
    ensures Stream(Hiding(marker, length)) == marker[..|marker| - 1] + LongChunk(marker, length)
    ensures Hiding(marker, length) != [] && Hiding(marker, length)[..|Hiding(marker, length)| - 1] == Letters(marker[..|marker| - 1])
    ensures AtMost(Hiding(marker, length), length)
  {
    hide LongChunk;
    LettersJoined(marker[..|marker| - 1]);
    LongChunkLength(marker, length);
    var letters := Letters(marker[..|marker| - 1]);
    assert Hiding(marker, length)[..|Hiding(marker, length)| - 1] == letters;
  }

  lemma LongChunkLength(marker: string, length: nat)
    requires |marker| >= 1 && length >= 1
    ensures |LongChunk(marker, length)| == length
  {
  }

  lemma EndsOtherwise(text: string, marker: string, i: nat)
    requires |marker| >= 1 && i + |marker| <= |text| && text[i + |marker| - 1] != marker[|marker| - 1]
    ensures !OccursAt(text, marker, i)
  {
    assert text[i..i + |marker|][|marker| - 1] == text[i + |marker| - 1];
  }

  /** An occurrence that ends in the filler would end in another character. */
  lemma FillerHides(marker: string, length: nat)
    requires |marker| >= 1 && length >= 1 && length + |marker| - 1 > WINDOW
    ensures !Includes(LastN(marker[..|marker| - 1] + LongChunk(marker, length), WINDOW), marker)
  {
    var n, chunk := |marker|, LongChunk(marker, length);
    var all := marker[..n - 1] + chunk;
    var window := LastN(all, WINDOW);
    forall i | 0 <= i && i + n <= |window| ensures !OccursAt(window, marker, i) {
      var j := |all| - |window| + i;
      assert window[i + n - 1] == all[j + n - 1] == chunk[j];
      EndsOtherwise(window, marker, i);
    }
  }

  /** The cut marker occurs and is never flagged. */
  lemma {:induction false} LongChunkHidesMarker(required: seq<string>, stages: seq<string>, m: nat, length: nat)
    requires m < |required| && required[m] != "" && length >= 1 && length + |required[m]| - 1 > 8192
    ensures var chunks := Hiding(required[m], length);
            && AtMost(chunks, length) && Includes(Stream(chunks), required[m])
            && !ObserveAll(required, stages, chunks).flags[m]
  {
    hide LongChunk, Includes, Hiding, AtMost;
    var marker := required[m];
    var chunks, letters := Hiding(marker, length), Letters(marker[..|marker| - 1]);
    HidingStream(marker, length);
    HiddenOccurs(marker, length);
    FlaggedWhenSeen(required, stages, chunks, m);
    EverSeenNext(chunks, marker);
    LettersJoined(marker[..|marker| - 1]);
    if EverSeen(letters, marker) {
      SeenOccurs(letters, marker);
      TooShort(marker[..|marker| - 1], marker);
    }
    FillerHides(marker, length);
    assert chunks[..|chunks|] == chunks;
  }

  lemma HiddenOccurs(marker: string, length: nat)
    requires |marker| >= 1 && length >= 1
    ensures Includes(marker[..|marker| - 1] + LongChunk(marker, length), marker)
  {
    var all := marker[..|marker| - 1] + LongChunk(marker, length);
    assert all[..|marker|] == marker;
    assert OccursAt(all, marker, 0);
  }

  lemma TooShort(text: string, marker: string)
    requires |text| < |marker|
    ensures !Includes(text, marker)
  {
  }

  /** The verifier is reliable for chunks of a length exactly when the marker fits in the window beside such a chunk. */
  lemma {:induction false} ReliableExactly(marker: string, length: nat)
    ensures Reliable(marker, length) <==> marker == "" || length == 0 || length + |marker| - 1 <= 8192
  {
    hide Includes, Hiding;
    if marker == "" || length == 0 || length + |marker| - 1 <= WINDOW {
      forall required: seq<string>, stages: seq<string>, chunks: seq<string>, m: nat
        | m < |required| && required[m] == marker && chunks != [] && AtMost(chunks, length)
        ensures ObserveAll(required, stages, chunks).flags[m] <==> Includes(Stream(chunks), marker)
      {
        ReliableFor(required, stages, chunks, m, length);
      }
    } else {
      LongChunkHidesMarker([marker], [], 0, length);
      HidingStream(marker, length);
      assert [marker][0] == marker;
    }
  }

  lemma {:induction false} ReliableFor(required: seq<string>, stages: seq<string>, chunks: seq<string>, m: nat, length: nat)
    requires m < |required| && chunks != [] && AtMost(chunks, length)
    requires required[m] == "" || length == 0 || length + |required[m]| - 1 <= WINDOW
    ensures ObserveAll(required, stages, chunks).flags[m] <==> Includes(Stream(chunks), required[m])
  {
    hide Includes;
    if required[m] == "" {
      FlaggedWhenSeen(required, stages, chunks, m);
      EmptyOccurs(Stream(chunks));
      EmptyOccurs(LastN(Stream(chunks), WINDOW));
      assert chunks[..|chunks|] == chunks;
      assert Seen(chunks, |chunks|, "");
    } else if length == 0 {
      FlaggedWhenSeen(required, stages, chunks, m);
      EmptyStream(chunks);
      TooShort("", required[m]);
      if EverSeen(chunks, required[m]) { SeenOccurs(chunks, required[m]); }
    } else {
      FlaggedExactly(required, stages, chunks, m);
    }
  }

  lemma EmptyOccurs(text: string)
    ensures Includes(text, "")
  {
    assert OccursAt(text, "", 0);
  }

  lemma {:induction false} EmptyStream(chunks: seq<string>)
    requires AtMost(chunks, 0)
    ensures Stream(chunks) == ""
    decreases |chunks|
  {
    if chunks != [] { EmptyStream(chunks[..|chunks| - 1]); }
  }

  // ---- the verifier ------------------------------------------------------------------------------

  class SerialVerifier {
    const required: seq<string>
    const stages: seq<string>
    var output: string
    const requiredMarkers: array<bool>
    var stage: int
    ghost var chunks: seq<string>

    ghost predicate Valid()
      reads this, requiredMarkers
    {
      && requiredMarkers.Length == |required| && -1 <= stage < |stages|
      && Verifier(output, requiredMarkers[..], stage) == ObserveAll(required, stages, chunks)
    }

    constructor (required: seq<string>, stages: seq<string>)
      ensures Valid() && fresh(requiredMarkers) && chunks == []
      ensures this.required == required && this.stages == stages
    {
      this.required, this.stages := required, stages;
      output, stage, chunks := "", -1, [];
      requiredMarkers := new bool[|required|](_ => false);
      new;
      assert requiredMarkers[..] == seq(|required|, _ => false);
    }

    /** Every marker that the window holds is flagged, in place. */
    method FlagMarkers()
      modifies requiredMarkers
      requires requiredMarkers.Length == |required|
      ensures requiredMarkers[..] == Flags(output, required, old(requiredMarkers[..]))
    {
      hide Includes;
      ghost var flags := requiredMarkers[..];
      for index := 0 to |required|
        invariant forall i :: 0 <= i < index ==> requiredMarkers[i] == (flags[i] || Includes(output, required[i]))
        invariant forall i :: index <= i < |required| ==> requiredMarkers[i] == flags[i]
      {
        requiredMarkers[index] := requiredMarkers[index] || Includes(output, required[index]);
      }
    }

    method AdvanceStage()
      modifies this`stage
      requires -1 <= stage < |stages|
      ensures stage == Stage(output, stages, old(stage), old(stage) + 1)
    {
      hide Includes;
      for index := stage + 1 to |stages|
        invariant -1 <= stage < index
        invariant Stage(output, stages, old(stage), old(stage) + 1) == Stage(output, stages, stage, index)
      {
        if Includes(output, stages[index]) { stage := index; }
      }
    }

    /** A decoded chunk arrives: `true` once every required marker has been observed. */
    method OnChunk(chunk: string) returns (observed: bool)
      modifies this, requiredMarkers
      requires Valid()
      ensures Valid() && chunks == old(chunks) + [chunk]
      ensures observed <==> forall m :: 0 <= m < |required| ==> ObserveAll(required, stages, chunks).flags[m]
    {
      hide Includes, LastN, Flags, Stage;
      ghost var before := Verifier(output, requiredMarkers[..], stage);
      chunks := chunks + [chunk];
      ObservedNext(required, stages, old(chunks), chunk);
      output := LastN(output + chunk, WINDOW);
      FlagMarkers();
      AdvanceStage();
      assert Verifier(output, requiredMarkers[..], stage) == Observe(required, stages, before, chunk);
      observed := forall m :: 0 <= m < |required| ==> requiredMarkers[m];
      assert forall m :: 0 <= m < |required| ==> requiredMarkers[m] == requiredMarkers[..][m];
    }
  }
}
