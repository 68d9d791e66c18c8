/**
 * String operations the core relies on: Python's `str.endswith` and `str.lower`
 * (used by the upload route) and JavaScript's `String.prototype.trim` (used by
 * the chat inputs).
 */
module Text {

  /** Python's `s.endswith(suffix)`. */
  predicate EndsWith(s: string, suffix: string) {
    |suffix| <= |s| && s[|s| - |suffix|..] == suffix
  }

  /** Python's `str.lower` on one character, restricted to the ASCII letters. */
  function LowerChar(c: char): (r: char)
    ensures 'A' <= c <= 'Z' ==> r as int == c as int + 32
    ensures !('A' <= c <= 'Z') ==> r == c
  {
    if 'A' <= c <= 'Z' then (c as int + 32) as char else c
  }

  /** Python's `str.lower`, character by character. */
  function Lower(s: string): (r: string)
    ensures |r| == |s|
    ensures forall i :: 0 <= i < |s| ==> r[i] == LowerChar(s[i])
  {
    if s == [] then [] else [LowerChar(s[0])] + Lower(s[1..])
  }

  /** Lowering commutes with taking a suffix. */
  lemma {:induction false} LowerDrop(s: string, k: nat)
    requires k <= |s|
    ensures Lower(s)[k..] == Lower(s[k..])
  {
    var a, b := Lower(s)[k..], Lower(s[k..]);
    assert |a| == |b|;
    forall i | 0 <= i < |a| ensures a[i] == b[i] {
      assert a[i] == LowerChar(s[k + i]);
    }
  }

  /** A name with a given ending still has the lowered ending after lowering. */
  lemma EndsWithLower(s: string, suffix: string)
    requires EndsWith(s, suffix)
    ensures EndsWith(Lower(s), Lower(suffix))
  {
    LowerDrop(s, |s| - |suffix|);
  }

  /** Lowering a lower-case string changes nothing. */
  lemma {:induction false} LowerFixed(s: string)
    requires forall i :: 0 <= i < |s| ==> !('A' <= s[i] <= 'Z')
    ensures Lower(s) == s
  {
    if s != [] {
      LowerFixed(s[1..]);
    }
  }

  /**
   * The characters JavaScript's `trim` removes: WhiteSpace (tab, vertical tab,
   * form feed, the byte order mark and every space separator) and
   * LineTerminator, as section 12.2 and 12.3 of ECMA-262 list them.
   */
  predicate IsJsWhitespace(c: char) {
    || c == '\t' || c == '\n' || c == '\U{000B}' || c == '\U{000C}' || c == '\r'
    || c == ' ' || c == '\U{00A0}' || c == '\U{1680}'
    || ('\U{2000}' <= c <= '\U{200A}')
    || c == '\U{2028}' || c == '\U{2029}' || c == '\U{202F}' || c == '\U{205F}'
    || c == '\U{3000}' || c == '\U{FEFF}'
  }

  predicate AllWhitespace(s: string) {
    forall i :: 0 <= i < |s| ==> IsJsWhitespace(s[i])
  }

  /** `trimStart`: drops the leading whitespace and nothing else. */
  function TrimStart(s: string): (r: string)
    ensures |r| <= |s| && r == s[|s| - |r|..]
    ensures forall i :: 0 <= i < |s| - |r| ==> IsJsWhitespace(s[i])
    ensures r == [] || !IsJsWhitespace(r[0])
  {
    if s != [] && IsJsWhitespace(s[0]) then
      var r := TrimStart(s[1..]);
      assert s[1..][|s| - 1 - |r|..] == s[|s| - |r|..];
      r
    else s
  }

  /** `trimEnd`: drops the trailing whitespace and nothing else. */
  function TrimEnd(s: string): (r: string)
    ensures |r| <= |s| && r == s[..|r|]
    ensures forall i :: |r| <= i < |s| ==> IsJsWhitespace(s[i])
    ensures r == [] || !IsJsWhitespace(r[|r| - 1])
  {
    if s != [] && IsJsWhitespace(s[|s| - 1]) then
      var r := TrimEnd(s[..|s| - 1]);
      assert s[..|s| - 1][..|r|] == s[..|r|];
      r
    else s
  }

  /** The number of whitespace characters `trimStart` drops. */
  function Leading(s: string): (n: nat)
    ensures n <= |s| && TrimStart(s) == s[n..]
    ensures forall i :: 0 <= i < n ==> IsJsWhitespace(s[i])
  {
    |s| - |TrimStart(s)|
  }

  /** JavaScript's `s.trim()`. */
  function Trim(s: string): (r: string)
    ensures |r| <= |s|
    ensures r == [] || (!IsJsWhitespace(r[0]) && !IsJsWhitespace(r[|r| - 1]))
  {
    var t := TrimStart(s);
    var r := TrimEnd(t);
    assert r != [] ==> r[0] == t[0];
    r
  }

  /** `trim` keeps a contiguous slice of its input, starting after the leading whitespace. */
  lemma TrimSlice(s: string)
    ensures var n, r := Leading(s), Trim(s);
      n + |r| <= |s| && r == s[n..n + |r|]
  {
    var n, t := Leading(s), TrimStart(s);
    var r := TrimEnd(t);
    assert Trim(s) == r;
    forall k | 0 <= k < |r| ensures r[k] == s[n + k] {
      assert r[k] == t[k] == s[n..][k];
    }
  }

  /** What `trim` cuts off on either side is whitespace. */
  lemma TrimCutsWhitespace(s: string)
    ensures var n, r := Leading(s), Trim(s);
      && n + |r| <= |s|
      && (forall i :: 0 <= i < n ==> IsJsWhitespace(s[i]))
      && (forall i :: n + |r| <= i < |s| ==> IsJsWhitespace(s[i]))
  {
    var n, t := Leading(s), TrimStart(s);
    var r := TrimEnd(t);
    assert Trim(s) == r;
    forall i | n + |r| <= i < |s| ensures IsJsWhitespace(s[i]) {
      assert s[i] == t[i - n];
      assert |r| <= i - n < |t|;
    }
  }

  /** A string trims to "" exactly when it is all whitespace. */
  lemma TrimEmpty(s: string)
    ensures Trim(s) == [] <==> AllWhitespace(s)
  {
    TrimSlice(s);
    TrimCutsWhitespace(s);
    var r, n := Trim(s), Leading(s);
    if r != [] {
      assert s[n] == r[0];
    }
  }

  /** Trimming twice is trimming once. */
  lemma TrimIdempotent(s: string)
    ensures Trim(Trim(s)) == Trim(s)
  {
    var r := Trim(s);
    if r != [] {
      assert TrimStart(r) == r;
      assert TrimEnd(r) == r;
    }
  }
}
