/**
 * The JavaScript string operations the POI pipeline relies on:
 * `String.prototype.trim`, `replace(/[0-9]/g, "")`, the decimal
 * rendering of an integer in a template literal, `Array.prototype.join`
 * and, as its partner, splitting on a one-character separator.
 */
module JsText {

  /** The characters ECMAScript's `trim` removes: WhiteSpace and LineTerminator. */
  predicate IsJsWhitespace(c: char) {
    c == '\t' || c == '\n' || c == '\U{000B}' || c == '\U{000C}' || c == '\r' || c == ' '
    || c == '\U{00A0}' || c == '\U{1680}' || ('\U{2000}' <= c <= '\U{200A}')
    || c == '\U{2028}' || c == '\U{2029}' || c == '\U{202F}' || c == '\U{205F}'
    || c == '\U{3000}' || c == '\U{FEFF}'
  }

  function TrimStart(s: string): (r: string)
    ensures |r| <= |s| && r == s[|s| - |r|..]
    ensures forall i :: 0 <= i < |s| - |r| ==> IsJsWhitespace(s[i])
    ensures r == [] || !IsJsWhitespace(r[0])
  {
    if s != [] && IsJsWhitespace(s[0]) then
      var r := TrimStart(s[1..]);
      assert forall i :: 1 <= i < |s| ==> s[i] == s[1..][i - 1];
      r
    else s
  }

  function TrimEnd(s: string): (r: string)
    ensures |r| <= |s| && r == s[..|r|]
    ensures forall i :: |r| <= i < |s| ==> IsJsWhitespace(s[i])
    ensures r == [] || !IsJsWhitespace(r[|r| - 1])
  {
    if s != [] && IsJsWhitespace(s[|s| - 1]) then TrimEnd(s[..|s| - 1]) else s
  }

  /** `s.trim()` */
  function Trim(s: string): string {
    TrimEnd(TrimStart(s))
  }

  predicate IsAsciiDigit(c: char) {
    '0' <= c <= '9'
  }

  /** `s.replace(/[0-9]/g, "")` */
  function RemoveDigits(s: string): (r: string)
    ensures |r| <= |s|
    ensures forall i :: 0 <= i < |r| ==> !IsAsciiDigit(r[i])
  {
    if s == [] then []
    else if IsAsciiDigit(s[0]) then RemoveDigits(s[1..])
    else [s[0]] + RemoveDigits(s[1..])
  }

  function DigitChar(d: nat): (c: char)
    requires d < 10
    ensures IsAsciiDigit(c) && DigitValue(c) == d
  {
    ('0' as int + d) as char
  }

  /** The number an ASCII digit stands for. */
  function DigitValue(c: char): nat
    requires IsAsciiDigit(c)
  {
    c as int - '0' as int
  }

  /** The number a string of ASCII digits denotes in decimal. */
  ghost function DecimalValue(s: string): nat
    requires forall i :: 0 <= i < |s| ==> IsAsciiDigit(s[i])
  {
    if s == [] then 0 else 10 * DecimalValue(s[..|s| - 1]) + DigitValue(s[|s| - 1])
  }

  /** The number a decimal text with an optional leading minus sign denotes. */
  ghost predicate DenotesInt(s: string, i: int) {
    if s != [] && s[0] == '-' then
      && |s| >= 2
      && (forall k :: 1 <= k < |s| ==> IsAsciiDigit(s[k]))
      && (s[1] != '0' || |s| == 2)
      && DecimalValue(s[1..]) == -i
    else
      && s != []
      && (forall k :: 0 <= k < |s| ==> IsAsciiDigit(s[k]))
      && (s[0] != '0' || |s| == 1)
      && DecimalValue(s) == i
  }

  /** Decimal digits of a natural number, most significant first, no leading zeros. */
  function NatToString(n: nat): (r: string)
    ensures |r| >= 1
    ensures forall i :: 0 <= i < |r| ==> IsAsciiDigit(r[i])
    ensures r[0] != '0' || |r| == 1
  {
    if n < 10 then [DigitChar(n)] else NatToString(n / 10) + [DigitChar(n % 10)]
  }

  /** `${i}` for an integer-valued number below 10^21 in magnitude. */
  function IntToString(i: int): (r: string)
    ensures |r| >= 1
    ensures i >= 0 <==> IsAsciiDigit(r[0])
  {
    if i < 0 then "-" + NatToString(-i) else NatToString(i)
  }

  /** Read back in decimal, the digits of `n` denote `n`. */
  lemma {:induction false} NatToStringValue(n: nat)
    ensures DecimalValue(NatToString(n)) == n
  {
    if n >= 10 {
      NatToStringValue(n / 10);
      var r := NatToString(n);
      assert r[..|r| - 1] == NatToString(n / 10);
    }
  }

  /**
   * `${i}` is the one canonical decimal text of `i`: an optional minus
   * sign, then digits without a leading zero, denoting `i`.
   */
  lemma IntToStringDenotes(i: int)
    ensures DenotesInt(IntToString(i), i)
  {
    var n := if i < 0 then -i else i;
    NatToStringValue(n);
    if i < 0 {
      assert IntToString(i)[1..] == NatToString(n);
    }
  }

  /** Different integers print differently. */
  lemma IntToStringInjective(i: int, j: int)
    requires IntToString(i) == IntToString(j)
    ensures i == j
  {
    IntToStringDenotes(i);
    IntToStringDenotes(j);
  }

  /** `xs.join(sep)` */
  function Join(xs: seq<string>, sep: string): string {
    if |xs| == 0 then ""
    else if |xs| == 1 then xs[0]
    else xs[0] + sep + Join(xs[1..], sep)
  }

  /** Position of the first `c` in `s`. */
  function FirstIndex(s: string, c: char): (i: nat)
    requires c in s
    ensures i < |s| && s[i] == c && c !in s[..i]
  {
    if s[0] == c then 0 else 1 + FirstIndex(s[1..], c)
  }

  /** `s.split(c)` for a one-character separator. */
  function Split(s: string, c: char): (r: seq<string>)
    ensures |r| >= 1
    ensures forall k :: 0 <= k < |r| ==> c !in r[k]
    decreases |s|
  {
    if c !in s then [s]
    else
      var i := FirstIndex(s, c);
      [s[..i]] + Split(s[i + 1..], c)
  }

  lemma FirstIndexAfter(a: string, c: char, b: string)
    requires c !in a
    ensures c in a + [c] + b && FirstIndex(a + [c] + b, c) == |a|
  {
    var s := a + [c] + b;
    assert s[|a|] == c;
    assert s[..|a|] == a;
  }

  /** Splitting at the first separator peels off the part before it. */
  lemma SplitAtFirst(a: string, c: char, b: string)
    requires c !in a
    ensures Split(a + [c] + b, c) == [a] + Split(b, c)
  {
    var s := a + [c] + b;
    FirstIndexAfter(a, c, b);
    assert s[..|a|] == a;
    assert s[|a| + 1..] == b;
  }

  /** Splitting a join on a separator no part contains gives the parts back. */
  lemma {:induction false} SplitJoin(xs: seq<string>, c: char)
    requires |xs| >= 1
    requires forall k :: 0 <= k < |xs| ==> c !in xs[k]
    ensures Split(Join(xs, [c]), c) == xs
  {
    if |xs| > 1 {
      var rest := Join(xs[1..], [c]);
      assert Join(xs, [c]) == xs[0] + [c] + rest;
      SplitAtFirst(xs[0], c, rest);
      SplitJoin(xs[1..], c);
      assert xs == [xs[0]] + xs[1..];
    }
  }

  /** Splitting at any separator splits each side on its own. */
  lemma {:induction false} SplitAtSeparator(a: string, c: char, b: string)
    ensures Split(a + [c] + b, c) == Split(a, c) + Split(b, c)
    decreases |a|
  {
    if c !in a {
      SplitAtFirst(a, c, b);
    } else {
      var i := FirstIndex(a, c);
      var head, tail := a[..i], a[i + 1..];
      var rest := tail + [c] + b;
      assert a == head + [c] + tail;
      assert a + [c] + b == head + [c] + rest;
      SplitAtFirst(head, c, rest);
      SplitAtFirst(head, c, tail);
      assert Split(a, c) == [head] + Split(tail, c);
      SplitAtSeparator(tail, c, b);
      ConsAppend(head, Split(tail, c), Split(b, c));
    }
  }

  lemma ConsAppend(x: string, u: seq<string>, v: seq<string>)
    ensures [x] + (u + v) == ([x] + u) + v
  {
  }

  /** A prefix without the separator joins the first part. */
  lemma SplitAfterPrefix(p: string, s: string, c: char)
    requires c !in p
    ensures Split(p + s, c) == [p + Split(s, c)[0]] + Split(s, c)[1..]
  {
    if c !in s {
      assert c !in p + s;
    } else {
      var i := FirstIndex(s, c);
      var head, tail := s[..i], s[i + 1..];
      assert s == head + [c] + tail;
      assert p + s == (p + head) + [c] + tail;
      SplitAtFirst(head, c, tail);
      SplitAtFirst(p + head, c, tail);
    }
  }

  /** The parts of every string in turn. */
  function SplitEach(xs: seq<string>, c: char): seq<string> {
    if xs == [] then [] else Split(xs[0], c) + SplitEach(xs[1..], c)
  }

  /**
   * Splitting a join on its own separator gives the parts of every joined
   * string in turn, whether or not they contain the separator.
   */
  lemma {:induction false} SplitJoinEach(xs: seq<string>, c: char)
    requires |xs| >= 1
    ensures Split(Join(xs, [c]), c) == SplitEach(xs, c)
  {
    if |xs| == 1 {
      assert SplitEach(xs, c) == Split(xs[0], c) + SplitEach([], c);
    } else {
      var rest := Join(xs[1..], [c]);
      assert Join(xs, [c]) == xs[0] + [c] + rest;
      SplitAtSeparator(xs[0], c, rest);
      SplitJoinEach(xs[1..], c);
    }
  }

  /** A single character survives exactly when it is not a digit. */
  lemma RemoveDigitsOne(c: char)
    ensures RemoveDigits([c]) == if IsAsciiDigit(c) then [] else [c]
  {
  }

  /** Digits are removed piece by piece: with `RemoveDigitsOne` this fixes the result. */
  lemma {:induction false} RemoveDigitsAppend(a: string, b: string)
    ensures RemoveDigits(a + b) == RemoveDigits(a) + RemoveDigits(b)
  {
    if a != [] {
      assert (a + b)[1..] == a[1..] + b;
      RemoveDigitsAppend(a[1..], b);
    } else {
      assert a + b == b;
    }
  }

  /** A suffix that starts with a non-whitespace character survives `TrimStart`. */
  lemma {:induction false} TrimStartKeepsTail(x: string, t: string)
    requires t != [] && !IsJsWhitespace(t[0])
    ensures |TrimStart(x + t)| >= |t|
    ensures TrimStart(x + t)[|TrimStart(x + t)| - |t|..] == t
  {
    if x != [] {
      assert (x + t)[0] == x[0];
      assert (x + t)[1..] == x[1..] + t;
      if IsJsWhitespace(x[0]) {
        TrimStartKeepsTail(x[1..], t);
      } else {
        assert TrimStart(x + t) == x + t;
      }
    } else {
      assert x + t == t;
    }
  }

  /**
   * Whatever stands around it, a string containing " at " and ending in a
   * non-whitespace character trims to at least four characters.
   */
  lemma TrimAtLeastFour(p: string, q: string, last: char)
    requires !IsJsWhitespace(last)
    ensures |Trim(p + " at " + q + [last])| >= 4
  {
    var t := "at " + q + [last];
    assert p + " at " + q + [last] == (p + " ") + t;
    TrimStartKeepsTail(p + " ", t);
    var u := TrimStart((p + " ") + t);
    assert u[|u| - 1] == t[|t| - 1] == last;
    assert TrimEnd(u) == u;
  }

  /** A string built from three pieces can be cut back into them, measuring from the front. */
  lemma Cut(a: string, b: string, c: string)
    ensures |a| + |b| <= |a + b + c|
    ensures (a + b + c)[..|a|] == a
    ensures (a + b + c)[|a|..|a| + |b|] == b
    ensures (a + b + c)[|a| + |b|..] == c
  {
  }
}
