/** JavaScript's String.prototype.trim, over strings as sequences of characters. */
module Text {

  /** The characters ECMAScript's trim removes: WhiteSpace and LineTerminator
      (tab, vertical tab, form feed, space, no-break space, the byte-order mark,
      every space separator of Unicode category Zs, and the four line terminators). */
  predicate IsWhitespace(c: char) {
    || c == '\t' || c == '\n' || c == '\U{000B}' || c == '\U{000C}' || c == '\r'
    || c == ' ' || c == '\U{00A0}' || c == '\U{1680}'
    || ('\U{2000}' <= c <= '\U{200A}')
    || c == '\U{2028}' || c == '\U{2029}' || c == '\U{202F}' || c == '\U{205F}'
    || c == '\U{3000}' || c == '\U{FEFF}'
  }

  predicate AllWhitespace(s: string) {
    forall k | 0 <= k < |s| :: IsWhitespace(s[k])
  }

  /** Drops leading whitespace: the result is the suffix of s that remains once
      every leading whitespace character is removed. */
  function TrimStart(s: string): (r: string)
    ensures |r| <= |s| && r == s[|s| - |r|..]
    ensures forall k | 0 <= k < |s| - |r| :: IsWhitespace(s[k])
    ensures r == [] || !IsWhitespace(r[0])
  {
    if |s| > 0 && IsWhitespace(s[0]) then
      var r := TrimStart(s[1..]);
      assert s[1..][|s| - 1 - |r|..] == s[|s| - |r|..];
      assert forall k | 0 < k < |s| - |r| :: s[k] == s[1..][k - 1];
      r
    else
      s
  }

  /** Drops trailing whitespace: the result is the prefix of s that remains once
      every trailing whitespace character is removed. */
  function TrimEnd(s: string): (r: string)
    ensures |r| <= |s| && r == s[..|r|]
    ensures forall k | |r| <= k < |s| :: IsWhitespace(s[k])
    ensures r == [] || !IsWhitespace(r[|r| - 1])
  {
    if |s| > 0 && IsWhitespace(s[|s| - 1]) then
      var r := TrimEnd(s[..|s| - 1]);
      assert s[..|s| - 1][..|r|] == s[..|r|];
      assert forall k | |r| <= k < |s| - 1 :: s[k] == s[..|s| - 1][k];
      r
    else
      s
  }

  /** `s.trim()`. The result is empty exactly when s is all whitespace, and a
      non-empty result neither starts nor ends with whitespace. */
  function Trim(s: string): (r: string)
    ensures r == [] <==> AllWhitespace(s)
    ensures r != [] ==> !IsWhitespace(r[0]) && !IsWhitespace(r[|r| - 1])
  {
    var t := TrimStart(s);
    var r := TrimEnd(t);
    assert r == [] ==> AllWhitespace(s) by {
      if r == [] {
        assert s == s[..|s| - |t|] + t;
        assert AllWhitespace(t) by { assert t[|r|..] == t; }
      }
    }
    assert r != [] ==> r[0] == t[0];
    r
  }

  /** A string with no whitespace at either end is its own trim. */
  lemma TrimOfTrimmed(s: string)
    requires s == [] || (!IsWhitespace(s[0]) && !IsWhitespace(s[|s| - 1]))
    ensures Trim(s) == s
  {
  }

  /** Trimming twice is trimming once. */
  lemma TrimIdempotent(s: string)
    ensures Trim(Trim(s)) == Trim(s)
  {
    TrimOfTrimmed(Trim(s));
  }

  lemma {:induction false} TrimStartPadded(w: string, s: string)
    requires AllWhitespace(w)
    ensures TrimStart(w + s) == TrimStart(s)
  {
    if w != [] {
      assert (w + s)[0] == w[0] && IsWhitespace(w[0]);
      assert (w + s)[1..] == w[1..] + s;
      TrimStartPadded(w[1..], s);
    } else {
      assert w + s == s;
    }
  }

  lemma {:induction false} TrimEndPadded(s: string, w: string)
    requires AllWhitespace(w)
    ensures TrimEnd(s + w) == TrimEnd(s)
  {
    if w != [] {
      assert (s + w)[|s + w| - 1] == w[|w| - 1] && IsWhitespace(w[|w| - 1]);
      assert (s + w)[..|s + w| - 1] == s + w[..|w| - 1];
      TrimEndPadded(s, w[..|w| - 1]);
    } else {
      assert s + w == s;
    }
  }

  /** Trailing text survives TrimStart untouched unless everything before it was blank. */
  lemma {:induction false} TrimStartAppend(s: string, w: string)
    requires AllWhitespace(w)
    ensures TrimStart(s + w) == if TrimStart(s) == [] then TrimStart(w) else TrimStart(s) + w
  {
    if s == [] {
      assert s + w == w;
    } else if IsWhitespace(s[0]) {
      assert (s + w)[0] == s[0];
      assert (s + w)[1..] == s[1..] + w;
      TrimStartAppend(s[1..], w);
    } else {
      assert (s + w)[0] == s[0];
    }
  }

  lemma AllWhitespaceTrimsToEmpty(w: string)
    requires AllWhitespace(w)
    ensures TrimStart(w) == []
  {
  }

  /** Whitespace added at either end of a text does not change its trim. */
  lemma TrimPadded(w1: string, s: string, w2: string)
    requires AllWhitespace(w1) && AllWhitespace(w2)
    ensures Trim(w1 + s + w2) == Trim(s)
  {
    var sw := s + w2;
    var x := w1 + sw;
    assert w1 + s + w2 == x;
    TrimStartPadded(w1, sw);
    TrimStartAppend(s, w2);
    var t := TrimStart(s);
    if t == [] {
      AllWhitespaceTrimsToEmpty(w2);
      assert TrimStart(x) == [];
    } else {
      assert TrimStart(x) == t + w2;
      TrimEndPadded(t, w2);
    }
    assert Trim(x) == TrimEnd(TrimStart(x));
    assert Trim(s) == TrimEnd(t);
  }
}
