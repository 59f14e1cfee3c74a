/** The JavaScript string built-ins the core relies on: `String.prototype.trim`,
    the regular-expression class `\s`, and `Array.prototype.join`. */
module Text {

  /** ECMAScript's WhiteSpace and LineTerminator code points. `trim()` strips
      exactly these, and the regular-expression class `\s` matches exactly these. */
  predicate IsWhitespace(c: char)
  {
    || c == '\t' || c == '\n' || c == '\U{0B}' || c == '\U{0C}' || c == '\r'
    || c == ' ' || c == '\U{A0}' || c == '\U{1680}'
    || ('\U{2000}' <= c <= '\U{200A}')
    || c == '\U{2028}' || c == '\U{2029}' || c == '\U{202F}' || c == '\U{205F}'
    || c == '\U{3000}' || c == '\U{FEFF}'
  }

  /** Drops the longest whitespace prefix. */
  function TrimStart(s: string): (r: string)
    ensures |r| <= |s| && r == s[|s| - |r|..]
    ensures forall i :: 0 <= i < |s| - |r| ==> IsWhitespace(s[i])
    ensures r == [] || !IsWhitespace(r[0])
  {
    if s == [] || !IsWhitespace(s[0]) then s else TrimStart(s[1..])
  }

  /** Drops the longest whitespace suffix. */
  function TrimEnd(s: string): (r: string)
    ensures |r| <= |s| && r == s[..|r|]
    ensures forall i :: |r| <= i < |s| ==> IsWhitespace(s[i])
    ensures r == [] || !IsWhitespace(r[|r| - 1])
  {
    if s == [] || !IsWhitespace(s[|s| - 1]) then s else TrimEnd(s[..|s| - 1])
  }

  /** `s.trim()`: the part of `s` that remains once leading and trailing
      whitespace is dropped. */
  function Trim(s: string): (r: string)
    ensures |r| <= |s|
    ensures r == [] || (!IsWhitespace(r[0]) && !IsWhitespace(r[|r| - 1]))
  {
    TrimEnd(TrimStart(s))
  }

  /** The trimmed string is a contiguous piece of the input, and everything
      around that piece is whitespace. */
  lemma {:induction false} TrimIsInfix(s: string) returns (k: nat)
    ensures k + |Trim(s)| <= |s| && Trim(s) == s[k..k + |Trim(s)|]
    ensures forall i :: 0 <= i < k ==> IsWhitespace(s[i])
    ensures forall i :: k + |Trim(s)| <= i < |s| ==> IsWhitespace(s[i])
  {
    var t := TrimStart(s);
    k := |s| - |t|;
    assert forall i :: 0 <= i < k ==> IsWhitespace(s[i]);
    var r := TrimEnd(t);
    assert Trim(s) == r;
    assert r == t[..|r|];
    SuffixTail(s, t, k, |r|);
  }

  /** A prefix of a suffix of `s` is a slice of `s`, and whitespace after that
      prefix in the suffix is whitespace at the same place in `s`. */
  lemma {:induction false} SuffixTail(s: string, t: string, k: nat, n: nat)
    requires k <= |s| && t == s[k..] && n <= |t|
    requires forall i :: n <= i < |t| ==> IsWhitespace(t[i])
    ensures t[..n] == s[k..k + n]
    ensures forall i :: k + n <= i < |s| ==> IsWhitespace(s[i])
  {
    forall i | k + n <= i < |s| ensures IsWhitespace(s[i]) {
      assert s[i] == t[i - k];
    }
  }

  /** `!s.trim()`: the trimmed string is empty, hence falsy. That happens
      exactly when every character of `s` is whitespace. */
  function IsBlank(s: string): (r: bool)
    ensures r <==> forall i :: 0 <= i < |s| ==> IsWhitespace(s[i])
  {
    Trim(s) == []
  }

  /** `xs.join(sep)`: the elements separated by `sep`; "" for no elements,
      the element itself for one, and it always starts with the first
      element. JoinAt and JoinLength say where every element sits. */
  function Join(xs: seq<string>, sep: string): (r: string)
    ensures |xs| == 0 ==> r == []
    ensures |xs| == 1 ==> r == xs[0]
    ensures |xs| > 0 ==> |xs[0]| <= |r| && r[..|xs[0]|] == xs[0]
  {
    if |xs| == 0 then ""
    else if |xs| == 1 then xs[0]
    else xs[0] + sep + Join(xs[1..], sep)
  }

  /** The offset at which element `i` starts in `Join(xs, sep)`: the lengths
      of the elements before it plus one separator after each of them. */
  function JoinOffset(xs: seq<string>, sep: string, i: nat): (offset: nat)
    requires i <= |xs|
  {
    if i == 0 then 0 else |xs[0]| + |sep| + JoinOffset(xs[1..], sep, i - 1)
  }

  /** A slice that lies in the right part of a concatenation is a slice of
      that part. */
  lemma SliceOfRightPart(a: string, b: string, lo: nat, hi: nat)
    requires |a| <= lo <= hi <= |a| + |b|
    ensures (a + b)[lo..hi] == b[lo - |a|..hi - |a|]
  {
    assert forall k :: lo <= k < hi ==> (a + b)[k] == b[k - |a|];
  }

  /** Every element appears, in order, at its offset in the joined string,
      and a separator follows every element but the last. */
  lemma {:induction false} JoinAt(xs: seq<string>, sep: string, i: nat)
    requires i < |xs|
    ensures JoinOffset(xs, sep, i) + |xs[i]| <= |Join(xs, sep)|
    ensures Join(xs, sep)[JoinOffset(xs, sep, i)..JoinOffset(xs, sep, i) + |xs[i]|] == xs[i]
    ensures i + 1 < |xs| ==>
      JoinOffset(xs, sep, i) + |xs[i]| + |sep| <= |Join(xs, sep)| &&
      Join(xs, sep)[JoinOffset(xs, sep, i) + |xs[i]|..JoinOffset(xs, sep, i) + |xs[i]| + |sep|] == sep
  {
    if i == 0 {
      if |xs| > 1 {
        assert Join(xs, sep) == xs[0] + sep + Join(xs[1..], sep);
      }
    } else {
      JoinAt(xs[1..], sep, i - 1);
      var rest := Join(xs[1..], sep);
      var head := xs[0] + sep;
      assert Join(xs, sep) == head + rest;
      var o := JoinOffset(xs[1..], sep, i - 1);
      assert xs[1..][i - 1] == xs[i];
      SliceOfRightPart(head, rest, |head| + o, |head| + o + |xs[i]|);
      if i + 1 < |xs| {
        SliceOfRightPart(head, rest, |head| + o + |xs[i]|, |head| + o + |xs[i]| + |sep|);
      }
    }
  }

  /** The joined length: every element once, and one separator between
      each pair of neighbours. */
  lemma {:induction false} JoinLength(xs: seq<string>, sep: string)
    requires |xs| > 0
    ensures |Join(xs, sep)| == JoinOffset(xs, sep, |xs| - 1) + |xs[|xs| - 1]|
  {
    if |xs| > 1 {
      JoinLength(xs[1..], sep);
      assert xs[1..][|xs| - 2] == xs[|xs| - 1];
    }
  }
}
