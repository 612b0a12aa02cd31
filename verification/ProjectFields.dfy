/**
 What counts as an identifier, a failure class and a workspace root, in terms of characters and of the
 steps of a path, and not of the checks.
 */
module ProjectFields {
  import opened ApprovalFields
  import opened Ascii
  import opened ProjectTypes

  /** The character in front, then up to `most` more. */
  predicate Spelled(s: string, head: char, tail: string, most: nat) {
    s == [head] + tail && |tail| <= most
  }

  predicate LetterOrDigit(c: char) {
    c in CAPITALS || c in LETTERS || c in DIGITS
  }

  lemma AlphanumericExactly(c: char)
    ensures Alphanumeric(c) <==> LetterOrDigit(c)
  {
    CapitalExactly(c);
    LetterExactly(c);
    DigitExactly(c);
  }

  lemma TailIn(s: string)
    requires s != ""
    ensures s == [s[0]] + s[1..] && forall i :: 0 < i < |s| ==> s[i] in s[1..]
  {
    forall i | 0 < i < |s| ensures s[i] in s[1..] { assert s[1..][i - 1] == s[i]; }
  }

  /** An identifier is a letter or a digit with up to 127 more, or points, underscores, colons, ats and hyphens. */
  lemma IdentifierExactly(s: string)
    ensures ValidIdentifier(s)
            <==> exists head, tail :: Spelled(s, head, tail, 127) && LetterOrDigit(head) && forall c :: c in tail ==> LetterOrDigit(c) || c in "._:@-"
  {
    forall c ensures Alphanumeric(c) <==> LetterOrDigit(c) { AlphanumericExactly(c); }
    hide Alphanumeric, LetterOrDigit;
    if s != "" {
      TailIn(s);
      if ValidIdentifier(s) { assert Spelled(s, s[0], s[1..], 127); }
    }
  }

  /** A failure class is a small letter with up to 63 small letters, digits and underscores. */
  lemma FailureClassExactly(s: string)
    ensures ValidFailureClass(s)
            <==> exists head, tail :: Spelled(s, head, tail, 63) && head in LETTERS && forall c :: c in tail ==> c in LETTERS || c in DIGITS || c == '_'
  {
    forall c ensures c in LETTERS <==> 'a' <= c <= 'z' { LetterExactly(c); }
    forall c ensures c in DIGITS <==> '0' <= c <= '9' { DigitExactly(c); }
    if s != "" {
      TailIn(s);
      if ValidFailureClass(s) { assert Spelled(s, s[0], s[1..], 63); }
    }
  }

  /** Lower case changes the 26 capitals, each to its own letter, and nothing else. */
  lemma {:induction false} LowerExactly(s: string, i: nat)
    requires i < |s|
    ensures if s[i] in CAPITALS then exists k :: 0 <= k < |CAPITALS| && CAPITALS[k] == s[i] && Lower(s)[i] == LETTERS[k] else Lower(s)[i] == s[i]
  {
    hide CAPITALS, LETTERS;
    if i > 0 {
      LowerExactly(s[1..], i - 1);
      assert s[1..][i - 1] == s[i];
    } else {
      FirstLower(s[0]);
    }
  }

  lemma FirstLower(c: char)
    ensures |CAPITALS| == |LETTERS|
    ensures if c in CAPITALS then exists k :: 0 <= k < |CAPITALS| && CAPITALS[k] == c && LETTERS[k] as int == c as int + 32 else !('A' <= c <= 'Z')
    ensures c in CAPITALS ==> 'A' <= c <= 'Z'
  {
    CapitalExactly(c);
    if 'A' <= c <= 'Z' {
      CapitalAt(c);
      SmallAt(c);
      hide CAPITALS, LETTERS;
      var k := c as int - 65;
      assert CAPITALS[k] == c && LETTERS[k] as int == c as int + 32;
    }
  }

  lemma CapitalAt(c: char)
    requires 'A' <= c <= 'Z'
    ensures |CAPITALS| == 26 && CAPITALS[c as int - 65] == c
  {
  }

  lemma SmallAt(c: char)
    requires 'A' <= c <= 'Z'
    ensures |LETTERS| == 26 && LETTERS[c as int - 65] as int == c as int + 32
  {
  }

  // ---- paths ---------------------------------------------------------------------------------------

  /** `split('/')` */
  function PathSteps(s: string): (r: seq<string>)
    ensures |r| >= 1
  {
    if s == "" then [""]
    else if s[0] == '/' then [""] + PathSteps(s[1..])
    else [[s[0]] + PathSteps(s[1..])[0]] + PathSteps(s[1..])[1..]
  }

  /** The first step ends at the first slash. */
  lemma {:induction false} FirstStep(s: string)
    ensures var first := PathSteps(s)[0];
            first <= s && (forall i :: 0 <= i < |first| ==> s[i] != '/') && (|first| == |s| || s[|first|] == '/')
  {
    if s != "" && s[0] != '/' { FirstStep(s[1..]); }
  }

  lemma {:induction false} ClimbsNext(s: string)
    requires s != ""
    ensures ClimbsUp(s) <==> ClimbsAt(s, 0) || ClimbsUp(s[1..])
  {
    forall i | 0 <= i < |s| - 1 ensures ClimbsAt(s[1..], i) == ClimbsAt(s, i + 1) {
      if i + 4 <= |s| { assert s[1..][i..i + 3] == s[i + 1..i + 4]; }
    }
    if ClimbsUp(s[1..]) {
      var i :| 0 <= i < |s[1..]| && ClimbsAt(s[1..], i);
      assert ClimbsAt(s, i + 1);
    }
    if ClimbsUp(s) && !ClimbsAt(s, 0) {
      var i :| 0 <= i < |s| && ClimbsAt(s, i);
      assert ClimbsAt(s[1..], i - 1);
    }
  }

  lemma {:induction false} StepBehindSlash(t: string)
    ensures ClimbsAt("/" + t, 0) <==> PathSteps(t)[0] == ".."
  {
    FirstStep(t);
    var s := "/" + t;
    if |t| >= 2 {
      assert s[0..3] == "/" + t[..2];
      assert "/.." == "/" + "..";
      if s[0..3] == "/.." { assert t[..2] == s[0..3][1..]; }
      assert |t| > 2 ==> s[3] == t[2];
    }
  }

  lemma {:induction false} ClimbsByStep(s: string)
    ensures ClimbsUp(s) <==> ".." in PathSteps(s)[1..]
  {
    if s != "" {
      ClimbsByStep(s[1..]);
      ClimbsNext(s);
      var rest := PathSteps(s[1..]);
      assert rest == [rest[0]] + rest[1..];
      if s[0] == '/' {
        StepBehindSlash(s[1..]);
        assert s == "/" + s[1..];
        assert PathSteps(s)[1..] == rest;
      } else {
        assert PathSteps(s)[1..] == rest[1..];
      }
    }
  }

  /** A root is a path of up to 512 characters under the workspace, without a step that climbs up. */
  lemma {:induction false} RootExactly(s: string)
    ensures ValidRoot(s)
            <==> (exists name :: s == "/home/god/Documents/Codex Workspace/" + name) && |s| <= 512 && '\0' !in s && ".." !in PathSteps(s)
  {
    hide ClimbsUp;
    var prefix := "/home/god/Documents/Codex Workspace/";
    assert WORKSPACE_ROOT + "/" == prefix;
    if prefix <= s {
      assert s == prefix + s[|prefix|..];
      ClimbsByStep(s);
      assert PathSteps(s)[0] == "";
    }
  }
}
