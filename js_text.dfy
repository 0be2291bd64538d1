/**
 * The handful of JavaScript string operations the log exporter relies on, with their
 * ECMAScript meaning: decimal rendering of integers (`String(n)`), `String.prototype.slice`
 * with negative indices, `indexOf` for one character, `split` on a one-character
 * separator and `Array.prototype.join`.
 */
module JsText {

  predicate IsDigit(c: char) {
    '0' <= c <= '9'
  }

  function DigitChar(d: int): (c: char)
    requires 0 <= d < 10
    ensures IsDigit(c) && c as int - '0' as int == d
  {
    ('0' as int + d) as char
  }

  function DigitVal(c: char): (d: nat)
    requires IsDigit(c)
    ensures d < 10
  {
    c as int - '0' as int
  }

  predicate AllDigits(s: string) {
    forall i :: 0 <= i < |s| ==> IsDigit(s[i])
  }

  /** The number written by a string of decimal digits, most significant first. */
  function DecimalValue(s: string): nat
    requires forall i :: 0 <= i < |s| ==> IsDigit(s[i])
  {
    if s == [] then 0 else DecimalValue(s[..|s| - 1]) * 10 + DigitVal(s[|s| - 1])
  }

  function Pow10(w: nat): (p: nat)
    ensures p >= 1
  {
    if w == 0 then 1 else 10 * Pow10(w - 1)
  }

  /** `String(n)` for a non-negative integer: its decimal digits, no leading zero. */
  function NatToString(n: nat): (s: string)
    ensures 1 <= |s|
    ensures forall i :: 0 <= i < |s| ==> IsDigit(s[i])
    ensures n < 10 <==> |s| == 1
  {
    if n < 10 then [DigitChar(n)] else NatToString(n / 10) + [DigitChar(n % 10)]
  }

  /** `String(n)` for any integer. */
  function IntToString(n: int): string {
    if n < 0 then "-" + NatToString(-n) else NatToString(n)
  }

  /** `n` written in exactly `w` digits with leading zeros (the low `w` digits of `n`). */
  function PadDigits(n: nat, w: nat): (s: string)
    ensures |s| == w
    ensures forall i :: 0 <= i < |s| ==> IsDigit(s[i])
  {
    if w == 0 then [] else PadDigits(n / 10, w - 1) + [DigitChar(n % 10)]
  }

  /** Every digit string read back is the number it was written from. */
  lemma {:induction false} NatToStringValue(n: nat)
    ensures DecimalValue(NatToString(n)) == n
  {
    if n >= 10 {
      NatToStringValue(n / 10);
      var s := NatToString(n);
      assert s[..|s| - 1] == NatToString(n / 10);
    }
  }

  /** A number below `10^w` survives padding to `w` digits. */
  lemma {:induction false} PadDigitsValue(n: nat, w: nat)
    requires n < Pow10(w)
    ensures DecimalValue(PadDigits(n, w)) == n
  {
    if w > 0 {
      PadDigitsValue(n / 10, w - 1);
      var s := PadDigits(n, w);
      assert s[..|s| - 1] == PadDigits(n / 10, w - 1);
    }
  }

  /** A number of exactly `w` digits is written the same with or without padding to `w`. */
  lemma {:induction false} NatToStringPads(n: nat, w: nat)
    requires 1 <= w && Pow10(w - 1) <= n < Pow10(w)
    ensures NatToString(n) == PadDigits(n, w)
  {
    if w == 1 {
      assert n / 10 == 0 && n % 10 == n;
      assert PadDigits(n, 1) == PadDigits(0, 0) + [DigitChar(n)];
    } else {
      var p, q := Pow10(w - 2), Pow10(w - 1);
      assert q == 10 * p && Pow10(w) == 10 * q;
      assert p <= n / 10 < q;
      NatToStringPads(n / 10, w - 1);
    }
  }

  /** A relative index of `slice`: negative counts from the end; the result is clamped to `[0, len]`. */
  function RelativeIndex(k: int, len: nat): (r: nat)
    ensures r <= len
    ensures 0 <= k <= len ==> r == k
    ensures -(len as int) <= k < 0 ==> r as int == len as int + k
    ensures k > len as int ==> r == len
    ensures k < -(len as int) ==> r == 0
  {
    if k < 0 then (if len + k < 0 then 0 else len + k) else if k > len then len else k
  }

  /** `s.slice(start, end)`. */
  function Slice(s: string, start: int, end: int): (r: string)
    ensures |r| <= |s|
  {
    var from, to := RelativeIndex(start, |s|), RelativeIndex(end, |s|);
    if to <= from then "" else s[from..to]
  }

  /** `s.slice(start)`. */
  function SliceFrom(s: string, start: int): string {
    Slice(s, start, |s|)
  }

  /** `("0" + n).slice(-2)`: the two-character field the object key uses for month, day and time. */
  function TwoDigitField(n: nat): string {
    SliceFrom("0" + NatToString(n), -2)
  }

  /** For every value below 100 the two-character field is that value zero-padded to two digits. */
  lemma TwoDigitFieldPads(n: nat)
    requires n < 100
    ensures TwoDigitField(n) == PadDigits(n, 2)
    ensures DecimalValue(TwoDigitField(n)) == n
  {
    var s := NatToString(n);
    var x := "0" + s;
    assert PadDigits(n, 2) == PadDigits(n / 10, 1) + [DigitChar(n % 10)];
    assert PadDigits(n / 10, 1) == PadDigits(n / 100, 0) + [DigitChar((n / 10) % 10)];
    if n >= 10 {
      assert s == NatToString(n / 10) + [DigitChar(n % 10)];
      assert NatToString(n / 10) == [DigitChar(n / 10)];
      assert |x| == 3 && RelativeIndex(-2, 3) == 1;
      assert TwoDigitField(n) == x[1..3] == s;
    } else {
      assert s == [DigitChar(n)];
      assert |x| == 2 && RelativeIndex(-2, 2) == 0;
      assert TwoDigitField(n) == x[0..2] == x;
    }
    PadDigitsValue(n, 2);
  }

  /** `s.indexOf(c)`: the first position of `c`, or -1. */
  function IndexOf(s: string, c: char): (i: int)
    ensures -1 <= i < |s|
    ensures 0 <= i ==> s[i] == c && c !in s[..i]
    ensures i == -1 <==> c !in s
  {
    if s == [] then -1
    else if s[0] == c then 0
    else
      var j := IndexOf(s[1..], c);
      assert s[1..][..j + 1] == s[1..j + 2] by { }
      if j == -1 then -1 else j + 1
  }

  /** `s.split(c)` for a one-character separator: the pieces between separators, in order. */
  function Split(s: string, c: char): (parts: seq<string>)
    ensures 1 <= |parts|
    ensures forall k :: 0 <= k < |parts| ==> c !in parts[k]
    decreases |s|
  {
    var i := IndexOf(s, c);
    if i < 0 then [s] else [s[..i]] + Split(s[i + 1..], c)
  }

  /** `parts.join(sep)`. */
  function Join(parts: seq<string>, sep: string): string {
    if |parts| == 0 then ""
    else if |parts| == 1 then parts[0]
    else parts[0] + sep + Join(parts[1..], sep)
  }

  lemma JoinCons(head: string, rest: seq<string>, sep: string)
    requires 1 <= |rest|
    ensures Join([head] + rest, sep) == head + sep + Join(rest, sep)
  {
    assert ([head] + rest)[1..] == rest;
  }

  /** Joining the pieces of a split with the same separator gives the string back. */
  lemma {:induction false} JoinSplit(s: string, c: char)
    ensures Join(Split(s, c), [c]) == s
    decreases |s|
  {
    var i := IndexOf(s, c);
    if i >= 0 {
      var head, tail := s[..i], s[i + 1..];
      var rest := Split(tail, c);
      assert Split(s, c) == [head] + rest;
      JoinSplit(tail, c);
      JoinCons(head, rest, [c]);
      assert s[i] == c;
      Reassemble(s, i);
    }
  }

  lemma Reassemble(s: string, i: nat)
    requires i < |s|
    ensures s == s[..i] + [s[i]] + s[i + 1..]
  {
  }

  lemma IndexOfAfterPiece(p: string, c: char, rest: string)
    requires c !in p
    ensures IndexOf(p + [c] + rest, c) == |p|
  {
    var s := p + [c] + rest;
    assert s[|p|] == c;
    assert s[..|p|] == p;
  }

  /** A separator-free piece followed by the separator splits off as the first part. */
  lemma SplitAfterPiece(p: string, c: char, rest: string)
    requires c !in p
    ensures Split(p + [c] + rest, c) == [p] + Split(rest, c)
  {
    var s := p + [c] + rest;
    IndexOfAfterPiece(p, c, rest);
    assert s[..|p|] == p;
    assert s[|p| + 1..] == rest;
  }

  /** Splitting a join of separator-free pieces gives the pieces back. */
  lemma {:induction false} SplitJoin(parts: seq<string>, c: char)
    requires 1 <= |parts|
    requires forall k :: 0 <= k < |parts| ==> c !in parts[k]
    ensures Split(Join(parts, [c]), c) == parts
  {
    if |parts| > 1 {
      var tail := Join(parts[1..], [c]);
      assert Join(parts, [c]) == parts[0] + [c] + tail;
      assert c !in parts[0];
      SplitAfterPiece(parts[0], c, tail);
      SplitJoin(parts[1..], c);
      assert parts == [parts[0]] + parts[1..];
    } else {
      assert c !in parts[0];
    }
  }

}
