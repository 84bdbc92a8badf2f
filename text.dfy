/** The few JavaScript string built-ins the shop's handlers rely on: the `\s`
    character class, `String.prototype.trim`, `replace(/\s/g, '')` and
    `split('|')`.  Strings are sequences of Unicode scalar values. */
module Text {

  /** The characters JavaScript's `\s` matches and `trim()` removes: the
      ECMAScript WhiteSpace and LineTerminator characters. */
  predicate IsJsSpace(c: char)
    ensures ('0' <= c <= '9') || ('a' <= c <= 'z') || ('A' <= c <= 'Z') ==> !IsJsSpace(c)
    ensures c == ' ' || c == '\t' || c == '\n' ==> IsJsSpace(c)
  {
    || c == '\t' || c == '\n' || c == '\U{000B}' || c == '\U{000C}' || c == '\r'
    || c == ' ' || c == '\U{00A0}' || c == '\U{1680}'
    || ('\U{2000}' <= c <= '\U{200A}')
    || c == '\U{2028}' || c == '\U{2029}' || c == '\U{202F}' || c == '\U{205F}'
    || c == '\U{3000}' || c == '\U{FEFF}'
  }

  predicate NoSpaces(s: string) {
    forall k :: 0 <= k < |s| ==> !IsJsSpace(s[k])
  }

  /** `s.replace(/\s/g, '')`: the string with every whitespace character removed. */
  function StripSpaces(s: string): (r: string)
    ensures |r| <= |s|
    ensures NoSpaces(r)
    ensures forall c :: c in s && !IsJsSpace(c) ==> c in r
    ensures forall c :: c in r ==> c in s
  {
    if s == [] then []
    else if IsJsSpace(s[0]) then StripSpaces(s[1..])
    else [s[0]] + StripSpaces(s[1..])
  }

  /** Stripping leaves a string without whitespace as it is. */
  lemma {:induction false} StripSpacesKeepsPlain(s: string)
    requires NoSpaces(s)
    ensures StripSpaces(s) == s
  {
    if s != [] {
      assert !IsJsSpace(s[0]);
      StripSpacesKeepsPlain(s[1..]);
    }
  }

  /** Stripping works piecewise: it distributes over concatenation. */
  lemma {:induction false} StripSpacesAppend(a: string, b: string)
    ensures StripSpaces(a + b) == StripSpaces(a) + StripSpaces(b)
  {
    if a != [] {
      assert (a + b)[1..] == a[1..] + b;
      StripSpacesAppend(a[1..], b);
    } else {
      assert a + b == b;
    }
  }

  /** `trimStart()`: the suffix left once the leading whitespace is removed. */
  function TrimStart(s: string): (r: string)
    ensures |r| <= |s| && r == s[|s| - |r|..]
    ensures r == [] || !IsJsSpace(r[0])
    ensures forall k :: 0 <= k < |s| - |r| ==> IsJsSpace(s[k])
  {
    if s != [] && IsJsSpace(s[0]) then TrimStart(s[1..]) else s
  }

  /** `trimEnd()`: the prefix left once the trailing whitespace is removed. */
  function TrimEnd(s: string): (r: string)
    ensures |r| <= |s| && r == s[..|r|]
    ensures r == [] || !IsJsSpace(r[|r| - 1])
    ensures forall k :: |r| <= k < |s| ==> IsJsSpace(s[k])
  {
    if s != [] && IsJsSpace(s[|s| - 1]) then TrimEnd(s[..|s| - 1]) else s
  }

  /** `r` is `s[i..j]`, and everything of `s` outside it is whitespace. */
  predicate CutAt(s: string, r: string, i: int, j: int) {
    && 0 <= i <= j <= |s| && r == s[i..j]
    && (forall k :: 0 <= k < i ==> IsJsSpace(s[k]))
    && (forall k :: j <= k < |s| ==> IsJsSpace(s[k]))
  }

  /** `trim()`: the slice of `s` left once the whitespace at both ends is cut
      off; it neither starts nor ends with whitespace, and it is empty exactly
      when `s` is all whitespace, which is when a required form field counts
      as missing. */
  function Trim(s: string): (r: string)
    ensures exists i, j :: CutAt(s, r, i, j)
    ensures r == [] || (!IsJsSpace(r[0]) && !IsJsSpace(r[|r| - 1]))
    ensures r == [] <==> forall k :: 0 <= k < |s| ==> IsJsSpace(s[k])
  {
    var t := TrimStart(s);
    var r := TrimEnd(t);
    CutTwice(s, t, r);
    CutEmpty(s, r, |s| - |t|, |s| - |t| + |r|);
    assert r != [] ==> r[0] == t[0];
    r
  }

  /** Cutting whitespace off the start of `s` (leaving the suffix `t`) and
      then off the end of `t` (leaving the prefix `r`) cuts only whitespace
      off `s`, on both sides of a slice. */
  lemma CutTwice(s: string, t: string, r: string)
    requires |t| <= |s| && t == s[|s| - |t|..]
    requires forall k :: 0 <= k < |s| - |t| ==> IsJsSpace(s[k])
    requires |r| <= |t| && r == t[..|r|]
    requires forall k :: |r| <= k < |t| ==> IsJsSpace(t[k])
    ensures CutAt(s, r, |s| - |t|, |s| - |t| + |r|)
  {
    var i := |s| - |t|;
    forall k | 0 <= k < |r| ensures r[k] == s[i + k] {
      assert r[k] == t[k];
    }
    forall k | i + |r| <= k < |s| ensures IsJsSpace(s[k]) {
      assert t[k - i] == s[k];
    }
  }

  /** A slice with only whitespace around it, ending in a character that is
      not whitespace when it is not empty, is empty exactly when the whole
      string is whitespace. */
  lemma CutEmpty(s: string, r: string, i: int, j: int)
    requires CutAt(s, r, i, j)
    requires r == [] || !IsJsSpace(r[|r| - 1])
    ensures r == [] <==> forall k :: 0 <= k < |s| ==> IsJsSpace(s[k])
  {
    if r != [] {
      assert s[j - 1] == r[|r| - 1];
    }
  }

  /** Position of the first `c` in `s`, or `|s|` when there is none. */
  function FirstIndex(s: string, c: char): (i: nat)
    ensures i <= |s|
    ensures i < |s| <==> c in s
    ensures i < |s| ==> s[i] == c
    ensures forall k :: 0 <= k < i ==> s[k] != c
  {
    if s == [] then 0
    else if s[0] == c then 0
    else 1 + FirstIndex(s[1..], c)
  }

  /** `s.split(c)[0]`: the text before the first `c`, all of `s` when there is none. */
  function SplitHead(s: string, c: char): (r: string)
    ensures r <= s
    ensures c !in r
    ensures c !in s ==> r == s
  {
    s[..FirstIndex(s, c)]
  }

  /** The text after the first `c`; `s.split(c)[1]` is its `SplitHead`. */
  function SplitTail(s: string, c: char): (r: string)
    requires c in s
    ensures |r| < |s|
  {
    s[FirstIndex(s, c) + 1..]
  }

  /** Cutting at the first separator loses nothing. */
  lemma SplitRoundTrip(s: string, c: char)
    requires c in s
    ensures SplitHead(s, c) + [c] + SplitTail(s, c) == s
  {
    var i := FirstIndex(s, c);
    assert s == s[..i] + [s[i]] + s[i + 1..];
  }
}
