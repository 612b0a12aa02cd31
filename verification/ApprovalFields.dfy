/**
 What counts as a field, a token and a decision version, in terms of trimming and of digits, and not
 of the checks.  For text in the basic plane, where a character is one UTF-16 code unit.
 */
module ApprovalFields {
  import opened ApprovalTypes
  import opened JsonGrammar
  import opened JsonReader
  import opened JsonSpelling
  import opened Sse

  predicate BasicPlane(s: string) {
    forall i :: 0 <= i < |s| ==> s[i] as int < 0x10000
  }

  function Units(s: string): (t: Text)
    requires BasicPlane(s)
    ensures |t| == |s| && forall i :: 0 <= i < |s| ==> t[i] == s[i] as int
  {
    seq(|s|, i requires 0 <= i < |s| => s[i] as int)
  }

  /** What trimming a field takes away is what trimming a text takes away. */
  lemma TrimmedIsWhitespace(c: char)
    requires c as int < 0x10000
    ensures TrimmedAway(c) <==> c as int in WHITE_SPACE
  {
    WhitespaceExactly(c as int);
  }

  lemma {:induction false} TrimIsIdentity(t: Text)
    requires t != []
    ensures Trim(t) == t <==> !Whitespace(t[0]) && !Whitespace(t[|t| - 1])
  {
    hide Whitespace;
    TrimExactly(t);
  }

  /** A field is what trimming leaves alone, without control characters, of 1 to 256 code units. */
  lemma {:induction false} FieldExactly(s: string)
    requires BasicPlane(s)
    ensures ValidField(s)
            <==> && 1 <= |s| <= 256 && Trim(Units(s)) == Units(s)
                 && forall u :: u in Units(s) ==> !(u < 0x20) && !(0x7F <= u < 0xA0)
  {
    hide Trim, Whitespace, TrimmedAway;
    if s != [] {
      TrimIsIdentity(Units(s));
      TrimmedIsWhitespace(s[0]);
      TrimmedIsWhitespace(s[|s| - 1]);
      WhitespaceExactly(s[0] as int);
      WhitespaceExactly(s[|s| - 1] as int);
    }
    forall i | 0 <= i < |s| ensures Units(s)[i] in Units(s) {}
  }

  const CAPITALS := "ABCDEFGHIJKLMNOPQRSTUVWXYZ"
  const LETTERS := "abcdefghijklmnopqrstuvwxyz"
  const DIGITS := "0123456789"
  const MARKS := "._-"

  predicate InToken(c: char) {
    c in CAPITALS || c in LETTERS || c in DIGITS || c in MARKS
  }

  /** A token is a field of letters, digits, points, underscores and hyphens. */
  lemma {:induction false} TokenExactly(s: string, maxLength: nat)
    requires maxLength <= 256
    ensures OpaqueToken(s, maxLength) <==> ValidField(s) && |s| <= maxLength && forall c :: c in s ==> InToken(c)
  {
    forall c ensures OpaqueCharacter(c) <==> InToken(c) { OpaqueExactly(c); }
    forall c | OpaqueCharacter(c) ensures !TrimmedAway(c) && !ControlCharacter(c) {}
    hide OpaqueCharacter, TrimmedAway, ControlCharacter, InToken;
    forall i | 0 <= i < |s| ensures s[i] in s {}
  }

  lemma OpaqueExactly(c: char)
    ensures OpaqueCharacter(c) <==> InToken(c)
  {
    CapitalExactly(c);
    LetterExactly(c);
    DigitExactly(c);
  }

  lemma CapitalExactly(c: char)
    ensures c in CAPITALS <==> 'A' <= c <= 'Z'
  {
    if 'A' <= c <= 'Z' { assert CAPITALS[c as int - 65] == c; }
  }

  lemma LetterExactly(c: char)
    ensures c in LETTERS <==> 'a' <= c <= 'z'
  {
    if 'a' <= c <= 'z' { assert LETTERS[c as int - 97] == c; }
  }

  lemma DigitExactly(c: char)
    ensures c in DIGITS <==> '0' <= c <= '9'
  {
    if '0' <= c <= '9' { assert DIGITS[c as int - 48] == c; }
  }

  /** A decision version is a digest in lower-case digits. */
  lemma {:induction false} VersionExactly(s: string)
    ensures Sha256Text(s) <==> exists digits :: s == "sha256:" + digits && |digits| == 64 && forall c :: c in digits ==> c in LOWER_DIGITS
  {
    forall c ensures LowerHex(c) <==> c in LOWER_DIGITS { LowerHexExactly(c); }
    hide LowerHex;
    if Sha256Text(s) {
      assert s == "sha256:" + s[7..];
      forall c | c in s[7..] ensures c in LOWER_DIGITS {
        var i :| 0 <= i < |s[7..]| && s[7..][i] == c;
        assert s[i + 7] == c;
      }
    }
    if digits :| s == "sha256:" + digits && |digits| == 64 && forall c :: c in digits ==> c in LOWER_DIGITS {
      assert s[..7] == "sha256:";
      forall i | 7 <= i < 71 ensures LowerHex(s[i]) { assert s[i] == digits[i - 7] && digits[i - 7] in digits; }
    }
  }

  lemma LowerHexExactly(c: char)
    ensures LowerHex(c) <==> c in LOWER_DIGITS
  {
    assert '0' <= c <= '9' ==> LOWER_DIGITS[c as int - 48] == c;
    assert 'a' <= c <= 'f' ==> LOWER_DIGITS[c as int - 87] == c;
  }
}
