/**
 * The one string operation the form relies on: `String.prototype.trim`,
 * which removes leading and trailing white space and line terminators as
 * ECMAScript defines them (section 22.1.3.32 of ECMA-262, with the
 * WhiteSpace and LineTerminator productions of sections 12.2 and 12.3).
 */
module JsString {

  /** WhiteSpace or LineTerminator in ECMAScript: TAB, VT, FF, SP, NBSP,
      ZWNBSP, the Unicode category Zs, and LF, CR, LS, PS. */
  predicate IsWhitespace(c: char) {
    || '\t' <= c <= '\r'                 // TAB, LF, VT, FF, CR
    || c == ' ' || c == '\U{00A0}' || c == '\U{1680}'
    || '\U{2000}' <= c <= '\U{200A}'
    || c == '\U{2028}' || c == '\U{2029}' // LS, PS
    || c == '\U{202F}' || c == '\U{205F}' || c == '\U{3000}'
    || c == '\U{FEFF}'                    // ZWNBSP
  }

  /** True when `s[lo..hi]` is all white space. */
  predicate WhitespaceBetween(s: string, lo: int, hi: int) {
    forall i :: lo <= i < hi && 0 <= i < |s| ==> IsWhitespace(s[i])
  }

  /** True when every character of `s` is white space (vacuously for ""). */
  predicate AllWhitespace(s: string) {
    WhitespaceBetween(s, 0, |s|)
  }

  /** `s` with its leading white space removed. */
  function TrimStart(s: string): (r: string)
    ensures |r| <= |s|
  {
    if s != [] && IsWhitespace(s[0]) then TrimStart(s[1..]) else s
  }

  /** What TrimStart cuts off is white space, what it keeps is a suffix of
      `s` that does not start with white space. */
  lemma {:induction false} TrimStartSpec(s: string)
    ensures var r := TrimStart(s);
      && r == s[|s| - |r|..]
      && WhitespaceBetween(s, 0, |s| - |r|)
      && (r != [] ==> !IsWhitespace(r[0]))
  {
    if s != [] && IsWhitespace(s[0]) {
      TrimStartSpec(s[1..]);
    }
  }

  /** `s` with its trailing white space removed. */
  function TrimEnd(s: string): (r: string)
    ensures |r| <= |s|
  {
    if s != [] && IsWhitespace(s[|s| - 1]) then TrimEnd(s[..|s| - 1]) else s
  }

  /** What TrimEnd cuts off is white space, what it keeps is a prefix of `s`
      that does not end with white space. */
  lemma {:induction false} TrimEndSpec(s: string)
    ensures var r := TrimEnd(s);
      && r == s[..|r|]
      && WhitespaceBetween(s, |r|, |s|)
      && (r != [] ==> !IsWhitespace(r[|r| - 1]))
  {
    if s != [] && IsWhitespace(s[|s| - 1]) {
      TrimEndSpec(s[..|s| - 1]);
    }
  }

  /** `s.trim()`: leading and trailing white space removed. */
  function Trim(s: string): (r: string)
    ensures |r| <= |s|
  {
    TrimEnd(TrimStart(s))
  }

  /** Trim gives the infix of `s` that neither starts nor ends with white
      space such that everything cut off on either side is white space; it is
      empty exactly when `s` is all white space. */
  lemma TrimSpec(s: string)
    ensures var r := Trim(s);
      && (r == [] <==> AllWhitespace(s))
      && (r != [] ==> !IsWhitespace(r[0]) && !IsWhitespace(r[|r| - 1]))
      && exists lo :: 0 <= lo <= |s| - |r| && r == s[lo..lo + |r|]
           && WhitespaceBetween(s, 0, lo) && WhitespaceBetween(s, lo + |r|, |s|)
  {
    var t := TrimStart(s);
    var r := TrimEnd(t);
    TrimStartSpec(s);
    TrimEndSpec(t);
    var lo := |s| - |t|;
    assert r == s[lo..lo + |r|];
    assert WhitespaceBetween(s, lo + |r|, |s|) by {
      forall i | lo + |r| <= i < |s| ensures IsWhitespace(s[i]) {
        assert s[i] == t[i - lo];
      }
    }
    if r != [] {
      assert r[0] == s[lo];
    }
  }

  /** Trimming twice is the same as trimming once. */
  lemma TrimIdempotent(s: string)
    ensures Trim(Trim(s)) == Trim(s)
  {
    var t := Trim(s);
    TrimSpec(s);
    if t != [] {
      assert TrimStart(t) == t;
      assert TrimEnd(t) == t;
    }
  }
}
