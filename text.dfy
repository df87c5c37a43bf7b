/** The .NET string operations the input check relies on: Char.IsWhiteSpace, String.Trim and
    String.IsNullOrWhiteSpace, with characters as Unicode scalar values. */
module Text {

  /** The characters that Char.IsWhiteSpace accepts (Unicode space separators, line and paragraph
      separators, and the control characters U+0009-U+000D and U+0085). */
  predicate IsWhiteSpace(ch: char)
  {
    || ch == ' ' || ('\t' <= ch <= '\r') || ch == '\U{0085}' || ch == '\U{00A0}'
    || ch == '\U{1680}' || ('\U{2000}' <= ch <= '\U{200A}') || ch == '\U{2028}' || ch == '\U{2029}'
    || ch == '\U{202F}' || ch == '\U{205F}' || ch == '\U{3000}'
  }

  /** String.IsNullOrWhiteSpace for a non-null string: empty, or whitespace only. */
  predicate IsNullOrWhiteSpace(s: string)
  {
    forall k | 0 <= k < |s| :: IsWhiteSpace(s[k])
  }

  /** Drops the leading whitespace. */
  function TrimStart(s: string): (r: string)
    ensures |r| <= |s|
    decreases |s|
  {
    if s != [] && IsWhiteSpace(s[0]) then TrimStart(s[1..]) else s
  }

  /** TrimStart leaves a suffix of `s` that does not start with whitespace, and everything it
      drops is whitespace. */
  lemma {:induction false} TrimStartSpec(s: string)
    ensures TrimStart(s) == s[|s| - |TrimStart(s)|..]
    ensures IsNullOrWhiteSpace(s[..|s| - |TrimStart(s)|])
    ensures TrimStart(s) != [] ==> !IsWhiteSpace(TrimStart(s)[0])
    decreases |s|
  {
    if s != [] && IsWhiteSpace(s[0]) {
      TrimStartSpec(s[1..]);
      var n := |s| - |TrimStart(s)|;
      assert s[1..][n - 1..] == s[n..];
      var gone := s[..n];
      forall k | 0 <= k < |gone| ensures IsWhiteSpace(gone[k]) {
        if k > 0 {
          assert gone[k] == s[1..][..n - 1][k - 1];
        }
      }
    }
  }

  /** Drops the trailing whitespace. */
  function TrimEnd(s: string): (r: string)
    ensures |r| <= |s|
    decreases |s|
  {
    if s != [] && IsWhiteSpace(s[|s| - 1]) then TrimEnd(s[..|s| - 1]) else s
  }

  /** TrimEnd leaves a prefix of `s` that does not end with whitespace, and everything it drops
      is whitespace. */
  lemma {:induction false} TrimEndSpec(s: string)
    ensures TrimEnd(s) == s[..|TrimEnd(s)|]
    ensures IsNullOrWhiteSpace(s[|TrimEnd(s)|..])
    ensures TrimEnd(s) != [] ==> !IsWhiteSpace(TrimEnd(s)[|TrimEnd(s)| - 1])
    decreases |s|
  {
    if s != [] && IsWhiteSpace(s[|s| - 1]) {
      var init := s[..|s| - 1];
      TrimEndSpec(init);
      var n := |TrimEnd(s)|;
      assert init[..n] == s[..n];
      var gone := s[n..];
      forall k | 0 <= k < |gone| ensures IsWhiteSpace(gone[k]) {
        if k < |gone| - 1 {
          assert gone[k] == init[n..][k];
        }
      }
    }
  }

  /** String.Trim(): the slice of `s` between its leading and its trailing whitespace. */
  function Trim(s: string): (r: string)
    ensures |r| <= |s|
  {
    TrimEnd(TrimStart(s))
  }

  /** The trimmed string is the slice of `s` from position `i` on, where everything before `i`
      and everything after the slice is whitespace; it neither starts nor ends with whitespace. */
  lemma {:induction false} TrimSpec(s: string)
    ensures var i := |s| - |TrimStart(s)|;
      && i + |Trim(s)| <= |s|
      && Trim(s) == s[i..i + |Trim(s)|]
      && IsNullOrWhiteSpace(s[..i])
      && IsNullOrWhiteSpace(s[i + |Trim(s)|..])
    ensures Trim(s) != [] ==> !IsWhiteSpace(Trim(s)[0]) && !IsWhiteSpace(Trim(s)[|Trim(s)| - 1])
  {
    var t := TrimStart(s);
    var r := TrimEnd(t);
    var i := |s| - |t|;
    TrimStartSpec(s);
    TrimEndSpec(t);
    assert Trim(s) == r;
    assert t[..|r|] == s[i..i + |r|];
    assert t[|r|..] == s[i + |r|..];
    if r != [] {
      assert r[0] == t[0];
    }
  }

  /** After trimming, "null or whitespace" means empty, and it holds exactly when the untrimmed
      input was whitespace only. */
  lemma {:induction false} TrimmedBlank(s: string)
    ensures IsNullOrWhiteSpace(Trim(s)) <==> Trim(s) == []
    ensures Trim(s) == [] <==> IsNullOrWhiteSpace(s)
  {
    TrimSpec(s);
    var r := Trim(s);
    var i := |s| - |TrimStart(s)|;
    if r != [] {
      assert !IsWhiteSpace(r[0]);
      assert s[i] == r[0];
    } else {
      var head, tail := s[..i], s[i..];
      forall k | 0 <= k < |s| ensures IsWhiteSpace(s[k]) {
        if k < i {
          assert s[k] == head[k];
        } else {
          assert s[k] == tail[k - i];
        }
      }
    }
  }

  /** Trimming twice is the same as trimming once. */
  lemma {:induction false} TrimIdempotent(s: string)
    ensures Trim(Trim(s)) == Trim(s)
  {
    TrimSpec(s);
    var r := Trim(s);
    if r != [] {
      assert TrimStart(r) == r;
      assert TrimEnd(r) == r;
    }
  }
}
