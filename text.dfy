/** The whitespace test behind the guards `!newTaskText.trim()` and `!commentInput.trim()`:
    ECMAScript's String.prototype.trim removes WhiteSpace and LineTerminator code points
    from both ends, and the guard rejects the input when nothing is left. */
module Text {

  /** WhiteSpace and LineTerminator of ECMAScript (sections 12.2 and 12.3 of ECMA-262). */
  predicate IsJsSpace(c: char) {
    c == ' ' || c == '\t' || c == '\n' || c == '\r' || c == '\U{000B}' || c == '\U{000C}'
    || c == '\U{00A0}' || c == '\U{FEFF}' || c == '\U{1680}' || ('\U{2000}' <= c <= '\U{200A}')
    || c == '\U{2028}' || c == '\U{2029}' || c == '\U{202F}' || c == '\U{205F}' || c == '\U{3000}'
  }

  /** Every character of `s` is whitespace (vacuously true of the empty string). */
  predicate IsBlank(s: string) {
    forall i :: 0 <= i < |s| ==> IsJsSpace(s[i])
  }

  /** Drops the leading whitespace. */
  function TrimStart(s: string): (r: string)
    ensures |r| <= |s|
  {
    if |s| > 0 && IsJsSpace(s[0]) then TrimStart(s[1..]) else s
  }

  /** Drops the trailing whitespace. */
  function TrimEnd(s: string): (r: string)
    ensures |r| <= |s|
  {
    if |s| > 0 && IsJsSpace(s[|s| - 1]) then TrimEnd(s[..|s| - 1]) else s
  }

  /** String.prototype.trim: neither end of the result is whitespace. */
  function Trim(s: string): (r: string)
    ensures |r| <= |s|
    ensures r == [] || (!IsJsSpace(r[0]) && !IsJsSpace(r[|r| - 1]))
  {
    TrimStartDropsLeadingSpace(s);
    TrimEndDropsTrailingSpace(TrimStart(s));
    TrimEnd(TrimStart(s))
  }

  /** The result of `TrimStart` is the suffix of `s` left after its leading whitespace, and
      does not itself start with whitespace. */
  lemma {:induction false} TrimStartDropsLeadingSpace(s: string)
    ensures var r := TrimStart(s);
      && r == s[|s| - |r|..]
      && (forall i :: 0 <= i < |s| - |r| ==> IsJsSpace(s[i]))
      && (r == [] || !IsJsSpace(r[0]))
  {
    if |s| > 0 && IsJsSpace(s[0]) {
      TrimStartDropsLeadingSpace(s[1..]);
      var r := TrimStart(s);
      assert r == s[1..][|s| - 1 - |r|..];
      forall i | 0 <= i < |s| - |r| ensures IsJsSpace(s[i]) {
        if i > 0 {
          assert s[i] == s[1..][i - 1];
        }
      }
    }
  }

  /** The result of `TrimEnd` is the prefix of `s` left before its trailing whitespace, and
      does not itself end with whitespace. */
  lemma {:induction false} TrimEndDropsTrailingSpace(s: string)
    ensures var r := TrimEnd(s);
      && r == s[..|r|]
      && (forall i :: |r| <= i < |s| ==> IsJsSpace(s[i]))
      && (r == [] || !IsJsSpace(r[|r| - 1]))
  {
    if |s| > 0 && IsJsSpace(s[|s| - 1]) {
      var s' := s[..|s| - 1];
      TrimEndDropsTrailingSpace(s');
      var r := TrimEnd(s);
      assert r == s'[..|r|];
      forall i | |r| <= i < |s| ensures IsJsSpace(s[i]) {
        if i < |s| - 1 {
          assert s[i] == s'[i];
        }
      }
    }
  }

  /** `!s.trim()` holds exactly when `s` is empty or made only of whitespace. */
  lemma TrimEmptyIffBlank(s: string)
    ensures Trim(s) == "" <==> IsBlank(s)
  {
    var t := TrimStart(s);
    TrimStartDropsLeadingSpace(s);
    TrimEndDropsTrailingSpace(t);
    if Trim(s) == "" {
      assert t == [];
    } else {
      assert Trim(s)[0] == t[0] == s[|s| - |t|];
    }
  }

  /** The guard `!s.trim()`: true exactly when `s` is empty or made only of whitespace. */
  function TrimsToEmpty(s: string): (b: bool)
    ensures b <==> IsBlank(s)
  {
    TrimEmptyIffBlank(s);
    Trim(s) == ""
  }

  /** `s.trim()` is the part of `s` between its leading and its trailing whitespace. */
  lemma TrimIsMiddle(s: string)
    ensures var r := Trim(s);
      exists a :: 0 <= a <= |s| - |r| && r == s[a..a + |r|] && IsBlank(s[..a]) && IsBlank(s[a + |r|..])
  {
    var t := TrimStart(s);
    TrimStartDropsLeadingSpace(s);
    TrimEndDropsTrailingSpace(t);
    var r := Trim(s);
    var a := |s| - |t|;
    assert t == s[a..];
    assert r == s[a..a + |r|];
    var rest := s[a + |r|..];
    forall i | 0 <= i < |rest| ensures IsJsSpace(rest[i]) {
      assert rest[i] == t[|r| + i];
    }
    assert IsBlank(s[..a]);
    assert 0 <= a <= |s| - |r| && r == s[a..a + |r|] && IsBlank(s[..a]) && IsBlank(rest);
  }
}
