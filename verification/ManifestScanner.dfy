/**
 The duplicate-key scanner of the project device manifest: one position that moves over the text.
 A method that throws answers `false`, or `None`.
 */
module ManifestScanner {
  import opened Options
  import opened JsonGrammar
  import opened JsonReader
  import opened JsonScanTheorems

  /** The text from a position on. */
  function From(source: Text, p: nat): Text {
    if p <= |source| then source[p..] else []
  }

  /** A reading fails, or leaves the text from a position on. */
  ghost predicate EndsAt<A>(r: Option<Parsed<A>>, ok: bool, source: Text, p: nat) {
    r.Some? == ok && (ok ==> p <= |source| && r.value.rest == From(source, p))
  }

  /** Two readings end alike. */
  ghost predicate SameEnd<A, B>(a: Option<Parsed<A>>, b: Option<Parsed<B>>) {
    a.Some? == b.Some? && (a.Some? ==> a.value.rest == b.value.rest)
  }

  // ---- text by position ----------------------------------------------------------------------

  lemma {:induction false} Skipped(source: Text, p: nat, n: nat)
    requires p + n <= |source|
    ensures n <= |From(source, p)| && From(source, p)[n..] == From(source, p + n) && |From(source, p)| == |source| - p
  {
  }

  lemma {:induction false} Head(source: Text, p: nat)
    requires p <= |source|
    ensures forall u :: StartsWith(From(source, p), u) <==> p < |source| && source[p] == u
    ensures p < |source| ==> From(source, p)[0] == source[p] && From(source, p)[1..] == From(source, p + 1)
    ensures From(source, p) == [] <==> p == |source|
  {
  }

  /** The position at which a rest starts. */
  lemma {:induction false} Suffix(source: Text, p: nat, head: Text, rest: Text)
    requires p <= |source| && From(source, p) == head + rest
    ensures |rest| <= |source| - p && From(source, |source| - |rest|) == rest
  {
    assert source[p..][|head|..] == source[p + |head|..];
  }

  // ---- the readings by position ----------------------------------------------------------------

  lemma {:induction false} SpaceStep(source: Text, p: nat)
    requires p < |source| && Whitespace(source[p])
    ensures SpaceRun(From(source, p)) == 1 + SpaceRun(From(source, p + 1))
  {
    hide From;
    Head(source, p);
  }

  lemma {:induction false} SpaceStops(source: Text, p: nat)
    requires p <= |source| && (p == |source| || !Whitespace(source[p]))
    ensures SpaceRun(From(source, p)) == 0
  {
    hide From;
    Head(source, p);
  }

  lemma {:induction false} QuoteStep(source: Text, p: nat)
    requires p <= |source|
    ensures p == |source| ==> QuoteAt(From(source, p)) == None
    ensures p < |source| && source[p] == BACKSLASH ==>
              QuoteAt(From(source, p)) == if p + 1 == |source| then None else Shift(QuoteAt(From(source, p + 2)), 2)
    ensures p < |source| && source[p] == QUOTE ==> QuoteAt(From(source, p)) == Some(0)
    ensures p < |source| && source[p] != BACKSLASH && source[p] != QUOTE ==>
              QuoteAt(From(source, p)) == Shift(QuoteAt(From(source, p + 1)), 1)
  {
    hide From;
    Head(source, p);
    if p + 2 <= |source| { Skipped(source, p, 2); }
    Skipped(source, p, 0);
  }

  /** A string whose closing quote is at `end`. */
  lemma {:induction false} StringAt(source: Text, p: nat, end: nat)
    requires p < end < |source| && source[p] == QUOTE && QuoteAt(From(source, p + 1)) == Some(end - p - 1)
    ensures var pieces := ReadPieces(source[p + 1..end]);
            ReadString(From(source, p)) == if pieces.None? then None else Some(Parsed(pieces.value, From(source, end + 1)))
  {
    hide QuoteAt, ReadPieces;
    var s := From(source, p);
    assert s[1..] == From(source, p + 1);
    assert s[1..1 + (end - p - 1)] == source[p + 1..end];
    assert s[end - p - 1 + 2..] == From(source, end + 1);
  }

  lemma {:induction false} NoString(source: Text, p: nat)
    requires p <= |source| && (p == |source| || source[p] != QUOTE || QuoteAt(From(source, p + 1)) == None)
    ensures ReadString(From(source, p)) == None
  {
    hide QuoteAt, ReadPieces;
  }

  lemma {:induction false} KeySteps(s: Text, keys: set<Text>)
    ensures var n := SpaceRun(s);
            var key := ReadString(s[n..]);
            var r := ReadKey(s, keys);
            if key.None? || Decode(key.value.value) in keys then r.None?
            else
              var after := key.value.rest[SpaceRun(key.value.rest)..];
              if !StartsWith(after, COLON) then r.None?
              else r.Some? && r.value.rest == after[1..] && r.value.value.key == key.value.value
  {
    hide SpaceRun, ReadString, Decode;
  }

  lemma {:induction false} MemberSteps(s: Text, levels: int, keys: set<Text>)
    requires levels >= 0
    ensures var start := ReadKey(s, keys);
            var r := ReadMembers(s, levels, keys);
            if start.None? then r.None?
            else
              var tree := ReadTree(start.value.rest, levels - 1);
              if tree.None? then r.None?
              else
                var after := tree.value.rest[SpaceRun(tree.value.rest)..];
                if StartsWith(after, CLOSE_BRACE) then r.Some? && r.value.rest == after[1..]
                else if !StartsWith(after, COMMA) then r.None?
                else SameEnd(r, ReadMembers(after[1..], levels, keys + {Decode(start.value.value.key)}))
  {
    hide SpaceRun, ReadKey, ReadTree, Decode;
  }

  lemma {:induction false} ItemSteps(s: Text, levels: int)
    requires levels >= 0
    ensures var tree := ReadTree(s, levels - 1);
            var r := ReadItems(s, levels);
            if tree.None? then r.None?
            else
              var after := tree.value.rest[SpaceRun(tree.value.rest)..];
              if StartsWith(after, CLOSE_BRACKET) then r.Some? && r.value.rest == after[1..]
              else if !StartsWith(after, COMMA) then r.None?
              else SameEnd(r, ReadItems(after[1..], levels))
  {
    hide SpaceRun, ReadTree;
  }

  lemma {:induction false} NodeSteps(s: Text, levels: int)
    requires levels >= 0
    ensures StartsWith(s, OPEN_BRACE) ==>
              var body := s[1..];
              var r := ReadNode(s, levels);
              if StartsWith(body[SpaceRun(body)..], CLOSE_BRACE) then r.Some? && r.value.rest == body[SpaceRun(body)..][1..]
              else SameEnd(r, ReadMembers(body, levels, {}))
    ensures StartsWith(s, OPEN_BRACKET) ==>
              var body := s[1..];
              var r := ReadNode(s, levels);
              if StartsWith(body[SpaceRun(body)..], CLOSE_BRACKET) then r.Some? && r.value.rest == body[SpaceRun(body)..][1..]
              else SameEnd(r, ReadItems(body, levels))
    ensures StartsWith(s, QUOTE) ==> SameEnd(ReadNode(s, levels), ReadString(s))
    ensures !StartsWith(s, OPEN_BRACE) && !StartsWith(s, OPEN_BRACKET) && !StartsWith(s, QUOTE) ==> ReadNode(s, levels) == ReadToken(s)
  {
    hide SpaceRun, ReadMembers, ReadItems, ReadString, ReadToken;
    if s != [] {
      var body := s[1..];
      var n := SpaceRun(body);
      if n < |body| { assert body[n..][1..] == body[n + 1..]; }
    }
  }

  lemma {:induction false} TreeSteps(s: Text, levels: int)
    ensures if levels < 0 then ReadTree(s, levels).None?
            else SameEnd(ReadTree(s, levels), ReadNode(s[SpaceRun(s)..], levels))
  {
    hide SpaceRun, ReadNode;
  }

  lemma {:induction false} NothingLeft(levels: int, keys: set<Text>)
    requires levels >= 0
    ensures ReadMembers([], levels, keys).None? && ReadItems([], levels).None?
  {
  }

  class Scanner {
    const source: Text
    var position: nat

    constructor (source: Text)
      ensures this.source == source && position == 0
    {
      this.source := source;
      position := 0;
    }

    ghost function Rest(): Text
      reads this
    {
      From(source, position)
    }

    predicate At(u: Unit)
      reads this
    {
      position < |source| && source[position] == u
    }

    method SkipWhitespace()
      modifies this
      requires position <= |source|
      ensures old(position) <= position <= |source|
      ensures Rest() == old(Rest())[SpaceRun(old(Rest()))..]
    {
      hide From, SpaceRun;
      ghost var start := position;
      while position < |source| && Whitespace(source[position])
        invariant start <= position <= |source|
        invariant SpaceRun(From(source, start)) == position - start + SpaceRun(From(source, position))
      {
        SpaceStep(source, position);
        position := position + 1;
      }
      SpaceStops(source, position);
      Skipped(source, start, position - start);
    }

    /** `parseString`: the decoded string. */
    method ParseString() returns (key: Option<Text>)
      modifies this
      requires position <= |source|
      ensures EndsAt(ReadString(old(Rest())), key.Some?, source, position)
      ensures key.Some? ==> old(position) < position && key.value == Decode(ReadString(old(Rest())).value.value)
    {
      hide From, QuoteAt, ReadPieces, ReadString, Decode;
      var start := position;
      if !At(QUOTE) {
        NoString(source, start);
        return None;
      }
      position := position + 1;
      while position < |source|
        invariant start + 1 <= position
        invariant if position <= |source|
                  then QuoteAt(From(source, start + 1)) == Shift(QuoteAt(From(source, position)), position - start - 1)
                  else QuoteAt(From(source, start + 1)) == None
        decreases |source| - position
      {
        QuoteStep(source, position);
        if source[position] == BACKSLASH {
          position := position + 2;
        } else if source[position] == QUOTE {
          position := position + 1;
          var pieces := ReadPieces(source[start + 1..position - 1]);
          StringAt(source, start, position - 1);
          if pieces.None? { return None; }
          return Some(Decode(pieces.value));
        } else {
          position := position + 1;
        }
      }
      QuoteStep(source, |source|);
      NoString(source, start);
      key := None;
    }

    /** `parseValue` */
    method ParseValue(depth: nat) returns (ok: bool)
      modifies this
      requires position <= |source|
      ensures EndsAt(ReadTree(old(Rest()), MAX_DEPTH - depth), ok, source, position)
      ensures ok ==> old(position) < position
      decreases Fuel(MAX_DEPTH - depth), 2
    {
      hide From, ReadTree, ReadNode, ReadMembers, ReadItems, ReadString, ReadToken, SpaceRun, StartsWith, PrintNode, NodeOk;
      TreeSteps(Rest(), MAX_DEPTH - depth);
      if depth > MAX_DEPTH { return false; }
      SkipWhitespace();
      Head(source, position);
      NodeSteps(Rest(), MAX_DEPTH - depth);
      if At(OPEN_BRACE) {
        position := position + 1;
        ok := ParseMembers(depth);
      } else if At(OPEN_BRACKET) {
        position := position + 1;
        ok := ParseItems(depth);
      } else if At(QUOTE) {
        var text := ParseString();
        ok := text.Some?;
      } else {
        var token := ReadToken(From(source, position));
        if token.None? { return false; }
        TokenSound(Rest());
        Suffix(source, position, PrintNode(token.value.value), token.value.rest);
        Skipped(source, position, 0);
        position := |source| - |token.value.rest|;
        ok := true;
      }
    }

    /** The members of an object, up to its closing brace. */
    method ParseMembers(depth: nat) returns (ok: bool)
      modifies this
      requires position <= |source| && depth <= MAX_DEPTH
      ensures var s := old(Rest());
              var t := s[SpaceRun(s)..];
              if StartsWith(t, CLOSE_BRACE) then ok && Rest() == t[1..] && position <= |source|
              else EndsAt(ReadMembers(s, MAX_DEPTH - depth, {}), ok, source, position)
      ensures ok ==> old(position) < position
      decreases Fuel(MAX_DEPTH - depth), 1
    {
      hide From, SpaceRun, ReadKey, ReadTree, ReadMembers, ReadItems, Decode, StartsWith;
      ghost var s := Rest();
      var keys: set<Text> := {};
      SkipWhitespace();
      Head(source, position);
      if At(CLOSE_BRACE) {
        position := position + 1;
        return true;
      }
      LeadSkipped(s, MAX_DEPTH - depth);
      while position < |source|
        invariant old(position) <= position <= |source|
        invariant SameEnd(ReadMembers(s, MAX_DEPTH - depth, {}), ReadMembers(Rest(), MAX_DEPTH - depth, keys))
        decreases |source| - position
      {
        MemberSteps(Rest(), MAX_DEPTH - depth, keys);
        var key := ParseKey(keys);
        if key.None? { return false; }
        var parsed := ParseValue(depth + 1);
        if !parsed { return false; }
        SkipWhitespace();
        Head(source, position);
        if At(CLOSE_BRACE) {
          position := position + 1;
          return true;
        }
        if !At(COMMA) { return false; }
        position := position + 1;
        keys := keys + {key.value};
      }
      Head(source, position);
      NothingLeft(MAX_DEPTH - depth, keys);
      ok := false;
    }

    /** A key that is not in `keys`, and the colon behind it. */
    method ParseKey(keys: set<Text>) returns (key: Option<Text>)
      modifies this
      requires position <= |source|
      ensures EndsAt(ReadKey(old(Rest()), keys), key.Some?, source, position)
      ensures key.Some? ==> old(position) < position && key.value == Decode(ReadKey(old(Rest()), keys).value.value.key)
    {
      hide From, SpaceRun, ReadString, ReadKey, Decode, StartsWith;
      KeySteps(Rest(), keys);
      SkipWhitespace();
      key := ParseString();
      if key.None? || key.value in keys { return None; }
      SkipWhitespace();
      Head(source, position);
      if !At(COLON) { return None; }
      position := position + 1;
    }

    /** The items of an array, up to its closing bracket. */
    method ParseItems(depth: nat) returns (ok: bool)
      modifies this
      requires position <= |source| && depth <= MAX_DEPTH
      ensures var s := old(Rest());
              var t := s[SpaceRun(s)..];
              if StartsWith(t, CLOSE_BRACKET) then ok && Rest() == t[1..] && position <= |source|
              else EndsAt(ReadItems(s, MAX_DEPTH - depth), ok, source, position)
      ensures ok ==> old(position) < position
      decreases Fuel(MAX_DEPTH - depth), 1
    {
      hide From, SpaceRun, ReadItems, ReadMembers, StartsWith;
      ghost var s := Rest();
      SkipWhitespace();
      Head(source, position);
      if At(CLOSE_BRACKET) {
        position := position + 1;
        return true;
      }
      LeadSkipped(s, MAX_DEPTH - depth);
      while position < |source|
        invariant old(position) <= position <= |source|
        invariant SameEnd(ReadItems(s, MAX_DEPTH - depth), ReadItems(Rest(), MAX_DEPTH - depth))
        decreases |source| - position
      {
        var more: bool;
        ok, more := ParseItem(depth);
        if !ok || !more { return ok; }
      }
      Head(source, position);
      NothingLeft(MAX_DEPTH - depth, {});
      ok := false;
    }

    /** One item, and whether a comma follows it. */
    method ParseItem(depth: nat) returns (ok: bool, more: bool)
      modifies this
      requires position <= |source| && depth <= MAX_DEPTH
      ensures var r := ReadItems(old(Rest()), MAX_DEPTH - depth);
              if !ok then r.None?
              else if more then SameEnd(r, ReadItems(Rest(), MAX_DEPTH - depth))
              else r.Some? && r.value.rest == Rest()
      ensures ok ==> old(position) < position <= |source|
      decreases Fuel(MAX_DEPTH - depth), 0
    {
      hide From, SpaceRun, ReadTree, ReadItems, StartsWith;
      ItemSteps(Rest(), MAX_DEPTH - depth);
      var parsed := ParseValue(depth + 1);
      if !parsed { return false, false; }
      SkipWhitespace();
      Head(source, position);
      if At(CLOSE_BRACKET) {
        position := position + 1;
        return true, false;
      }
      if !At(COMMA) { return false, false; }
      position := position + 1;
      return true, true;
    }

    /** `parseJsonWithoutDuplicateKeys` up to its final `JSON.parse` */
    method Accepts() returns (ok: bool)
      modifies this
      requires position == 0
      ensures ok <==> Scan(source).Some?
    {
      hide ReadTree, SpaceRun;
      assert Rest() == source;
      ok := ParseValue(0);
      if !ok { return false; }
      SkipWhitespace();
      ok := position == |source|;
    }
  }

  /** Whitespace in front of a list makes no difference to where the list ends. */
  lemma {:induction false} LeadSkipped(s: Text, levels: int)
    requires levels >= 0
    ensures SameEnd(ReadMembers(s, levels, {}), ReadMembers(s[SpaceRun(s)..], levels, {}))
    ensures SameEnd(ReadItems(s, levels), ReadItems(s[SpaceRun(s)..], levels))
  {
    hide ReadString, ReadNode, Decode, SpaceRun, ReadKey, ReadTree;
    var t := s[SpaceRun(s)..];
    NoMoreSpace(s);
    KeySteps(s, {});
    KeySteps(t, {});
    MemberSteps(s, levels, {});
    MemberSteps(t, levels, {});
    TreeSteps(s, levels - 1);
    TreeSteps(t, levels - 1);
    ItemSteps(s, levels);
    ItemSteps(t, levels);
    assert t[0..] == t;
  }

  lemma {:induction false} NoMoreSpace(s: Text)
    ensures SpaceRun(s[SpaceRun(s)..]) == 0
  {
  }
}
