/** The handful of Python string operations the rate limiter and the anomaly detector rely on:
    `startswith`, `endswith`, `in`, `lower`, `strip`, `split(sep)[0]`, `replace(old, "")`, and
    the decimal rendering and parsing of a non-negative whole number (`str(n)` and `float(s)`
    restricted to what `str(n)` produces). */
module Text {
  import opened Wrappers

  predicate StartsWith(s: string, prefix: string) {
    |prefix| <= |s| && s[..|prefix|] == prefix
  }

  predicate EndsWith(s: string, suffix: string) {
    |suffix| <= |s| && s[|s| - |suffix|..] == suffix
  }

  /** `sub` occurs in `s` starting at position `k`. */
  predicate OccursAt(s: string, sub: string, k: nat) {
    k + |sub| <= |s| && s[k..k + |sub|] == sub
  }

  /** Python's `sub in s`: `sub` occurs at some position of `s`. */
  predicate Contains(s: string, sub: string) {
    exists k: nat | k <= |s| :: OccursAt(s, sub, k)
  }

  /** ASCII case folding, as `str.lower()` does on ASCII text. */
  function LowerChar(c: char): char {
    if 'A' <= c <= 'Z' then (c as int + 32) as char else c
  }

  function Lower(s: string): (r: string)
    ensures |r| == |s|
    ensures forall i :: 0 <= i < |s| ==> r[i] == LowerChar(s[i])
  {
    seq(|s|, i requires 0 <= i < |s| => LowerChar(s[i]))
  }

  /** Lower-casing is idempotent. */
  lemma LowerIdempotent(s: string)
    ensures Lower(Lower(s)) == Lower(s)
  {
    assert forall i :: 0 <= i < |s| ==> LowerChar(LowerChar(s[i])) == LowerChar(s[i]);
  }

  /** The characters `str.strip()` removes: Python's whitespace (`str.isspace`), that is the
      ASCII blanks and separators `\t`..`\r` and `\x1c`..`\x1f`, the space, NEL, the no-break
      space, and the Unicode space and line/paragraph separators. Header values arrive decoded
      as latin-1, so only the first twelve can occur in them. */
  predicate IsSpace(c: char) {
    || '\U{0009}' <= c <= '\U{000D}'
    || '\U{001C}' <= c <= '\U{0020}'
    || c == '\U{0085}' || c == '\U{00A0}' || c == '\U{1680}'
    || '\U{2000}' <= c <= '\U{200A}'
    || c == '\U{2028}' || c == '\U{2029}' || c == '\U{202F}' || c == '\U{205F}' || c == '\U{3000}'
  }

  function TrimStart(s: string): (r: string)
    ensures |r| <= |s| && r == s[|s| - |r|..]
    ensures forall i :: 0 <= i < |s| - |r| ==> IsSpace(s[i])
    ensures r != [] ==> !IsSpace(r[0])
  {
    if s != [] && IsSpace(s[0]) then TrimStart(s[1..]) else s
  }

  function TrimEnd(s: string): (r: string)
    ensures |r| <= |s| && r == s[..|r|]
    ensures forall i :: |r| <= i < |s| ==> IsSpace(s[i])
    ensures r != [] ==> !IsSpace(r[|r| - 1])
  {
    if s != [] && IsSpace(s[|s| - 1]) then TrimEnd(s[..|s| - 1]) else s
  }

  /** Python's `s.strip()`: leading and trailing blanks removed (see `StripShape`). */
  function Strip(s: string): (r: string)
    ensures |r| <= |s|
    ensures r != [] ==> !IsSpace(r[0]) && !IsSpace(r[|r| - 1])
  {
    TrimEnd(TrimStart(s))
  }

  /** What `Strip` keeps is one slice of `s`, starting where `TrimStart` stops; all it drops
      on either side are blanks. */
  lemma StripShape(s: string)
    ensures OccursAt(s, Strip(s), |s| - |TrimStart(s)|)
    ensures forall i :: 0 <= i < |s| - |TrimStart(s)| ==> IsSpace(s[i])
    ensures forall i :: |s| - |TrimStart(s)| + |Strip(s)| <= i < |s| ==> IsSpace(s[i])
  {
    StripTail(s, TrimStart(s), |s| - |TrimStart(s)|);
  }

  /** `r` is a slice of `s` with only blanks on either side of it. */
  ghost predicate BlankPadded(s: string, r: string) {
    exists lo: nat :: && OccursAt(s, r, lo)
                      && (forall i :: 0 <= i < lo ==> IsSpace(s[i]))
                      && (forall i :: lo + |r| <= i < |s| ==> IsSpace(s[i]))
  }

  /** `strip()` keeps a slice of its input with only blanks around it. */
  lemma StripIsBlankPadded(s: string)
    ensures BlankPadded(s, Strip(s))
  {
    StripShape(s);
    var lo := |s| - |TrimStart(s)|;
    assert OccursAt(s, Strip(s), lo);
  }

  /** What `TrimEnd` drops from the tail `t` of `s` starting at `lo` are blanks of `s`. */
  lemma StripTail(s: string, t: string, lo: nat)
    requires lo <= |s| && t == s[lo..]
    ensures OccursAt(s, TrimEnd(t), lo)
    ensures forall i :: lo + |TrimEnd(t)| <= i < |s| ==> IsSpace(s[i])
  {
    var r := TrimEnd(t);
    assert s[lo..lo + |r|] == t[..|r|];
    forall i | lo + |r| <= i < |s|
      ensures IsSpace(s[i])
    {
      assert s[i] == t[i - lo];
    }
  }

  /** Python's `s.split(sep)[0]`: everything before the first `sep`, or all of `s`. */
  function TakeUntil(s: string, sep: char): (r: string)
    ensures StartsWith(s, r) && sep !in r
    ensures |r| < |s| ==> s[|r|] == sep
  {
    if s == [] || s[0] == sep then [] else [s[0]] + TakeUntil(s[1..], sep)
  }

  /** Text without blanks at either end is what `strip()` leaves it. */
  lemma StripTrimmed(s: string)
    requires s != [] ==> !IsSpace(s[0]) && !IsSpace(s[|s| - 1])
    ensures Strip(s) == s
  {
    assert TrimStart(s) == s;
  }

  /** Blanks in front of text that starts with a non-blank are what `TrimStart` removes. */
  lemma {:induction false} TrimStartPadded(pad: string, s: string)
    requires forall i :: 0 <= i < |pad| ==> IsSpace(pad[i])
    requires s != [] && !IsSpace(s[0])
    ensures TrimStart(pad + s) == s
    decreases |pad|
  {
    if pad != [] {
      assert (pad + s)[0] == pad[0] && IsSpace(pad[0]);
      assert (pad + s)[1..] == pad[1..] + s;
      TrimStartPadded(pad[1..], s);
    } else {
      assert pad + s == s;
    }
  }

  /** Blanks after text that ends with a non-blank are what `TrimEnd` removes. */
  lemma {:induction false} TrimEndPadded(s: string, pad: string)
    requires forall i :: 0 <= i < |pad| ==> IsSpace(pad[i])
    requires s != [] && !IsSpace(s[|s| - 1])
    ensures TrimEnd(s + pad) == s
    decreases |pad|
  {
    if pad != [] {
      assert (s + pad)[..|s + pad| - 1] == s + pad[..|pad| - 1];
      TrimEndPadded(s, pad[..|pad| - 1]);
    } else {
      assert s + pad == s;
    }
  }

  /** `strip()` of text padded with blanks on both sides gives the text back. */
  lemma StripPadded(pad1: string, s: string, pad2: string)
    requires forall i :: 0 <= i < |pad1| ==> IsSpace(pad1[i])
    requires forall i :: 0 <= i < |pad2| ==> IsSpace(pad2[i])
    requires s != [] && !IsSpace(s[0]) && !IsSpace(s[|s| - 1])
    ensures Strip(pad1 + s + pad2) == s
  {
    assert pad1 + s + pad2 == pad1 + (s + pad2);
    assert (s + pad2)[0] == s[0];
    TrimStartPadded(pad1, s + pad2);
    TrimEndPadded(s, pad2);
  }

  /** `split(sep)[0]` of `head` followed by `sep` and anything else, or of `head` alone, is
      `head` when `head` holds no `sep`. */
  lemma {:induction false} TakeUntilHead(head: string, rest: string, sep: char)
    requires sep !in head && (rest == [] || rest[0] == sep)
    ensures TakeUntil(head + rest, sep) == head
    decreases |head|
  {
    if head != [] {
      assert (head + rest)[1..] == head[1..] + rest;
      TakeUntilHead(head[1..], rest, sep);
    } else {
      assert head + rest == rest;
    }
  }

  /** Python's `s.replace(pat, "")`: every occurrence of `pat`, found left to right without
      overlap, is dropped. */
  function RemoveAll(s: string, pat: string): (r: string)
    requires pat != []
    ensures |r| <= |s|
    decreases |s|
  {
    if StartsWith(s, pat) then RemoveAll(s[|pat|..], pat)
    else if s == [] then []
    else [s[0]] + RemoveAll(s[1..], pat)
  }

  /** Text without any occurrence of `pat` is left as it is. */
  lemma {:induction false} RemoveAllAbsent(s: string, pat: string)
    requires pat != [] && !Contains(s, pat)
    ensures RemoveAll(s, pat) == s
    decreases |s|
  {
    if s != [] {
      assert !OccursAt(s, pat, 0);
      forall k: nat | k <= |s| - 1
        ensures !OccursAt(s[1..], pat, k)
      {
        assert s[1..][k..] == s[k + 1..] && !OccursAt(s, pat, k + 1);
      }
      RemoveAllAbsent(s[1..], pat);
    }
  }

  predicate IsDigit(c: char) {
    '0' <= c <= '9'
  }

  predicate AllDigits(s: string) {
    forall i :: 0 <= i < |s| ==> IsDigit(s[i])
  }

  function DigitChar(d: nat): (c: char)
    requires d < 10
    ensures IsDigit(c) && c as int - '0' as int == d
  {
    ('0' as int + d) as char
  }

  /** The number a string of decimal digits denotes (most significant digit first). */
  function DigitsValue(s: string): nat
    requires AllDigits(s)
    decreases |s|
  {
    if s == [] then 0 else DigitsValue(s[..|s| - 1]) * 10 + (s[|s| - 1] as int - '0' as int)
  }

  /** Python's `str(n)` for a whole number `n >= 0`. */
  function NatToString(n: nat): (r: string)
    ensures r != [] && AllDigits(r)
    decreases n
  {
    if n < 10 then [DigitChar(n)] else NatToString(n / 10) + [DigitChar(n % 10)]
  }

  /** Reading a decimal number back: `None` for anything that is not one or more digits. */
  function ParseNat(s: string): Option<nat> {
    if s != [] && AllDigits(s) then Some(DigitsValue(s)) else None
  }

  /** Rendering a number and reading it back gives the number. */
  lemma {:induction false} ParseNatToString(n: nat)
    ensures ParseNat(NatToString(n)) == Some(n)
    decreases n
  {
    var s := NatToString(n);
    if n < 10 {
      assert s[..|s| - 1] == [];
      assert DigitsValue(s) == DigitsValue([]) * 10 + n;
    } else {
      ParseNatToString(n / 10);
      var p := NatToString(n / 10);
      assert s == p + [DigitChar(n % 10)];
      assert s[..|s| - 1] == p;
    }
  }

  /** Python's `a < b` on strings: lexicographic order by code point, a proper prefix
      first. */
  predicate LexLess(a: string, b: string)
    decreases |a|
  {
    if a == [] then b != []
    else if b == [] then false
    else if a[0] != b[0] then a[0] < b[0]
    else LexLess(a[1..], b[1..])
  }

  /** A string sorts strictly before every proper extension of it. */
  lemma {:induction false} LexLessExtension(p: string, q: string)
    requires q != []
    ensures LexLess(p, p + q)
    decreases |p|
  {
    if p != [] {
      assert (p + q)[0] == p[0];
      assert (p + q)[1..] == p[1..] + q;
      LexLessExtension(p[1..], q);
    }
  }

  /** The order is strict: no two strings each sort before the other. */
  lemma {:induction false} LexLessAsymmetric(a: string, b: string)
    ensures !(LexLess(a, b) && LexLess(b, a))
    decreases |a|
  {
    if a != [] && b != [] && a[0] == b[0] {
      LexLessAsymmetric(a[1..], b[1..]);
    }
  }
}
