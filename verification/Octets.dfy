/** Byte strings: finding, splitting, and decimal numbers. */
module Octets {
  import opened Wrappers

  newtype Byte = x: int | 0 <= x < 256

  type Bytes = seq<Byte>

  const NUL: Byte := 0
  const LF: Byte := 10
  const SPACE: Byte := 32

  predicate AsciiText(s: string) {
    forall i | 0 <= i < |s| :: s[i] < 128 as char
  }

  /** A text as bytes. */
  function Ascii(s: string): Bytes
    requires AsciiText(s)
  {
    seq(|s|, i requires 0 <= i < |s| => s[i] as int as Byte)
  }

  /** Where `b` first is; the length when it is nowhere. */
  function IndexOf(s: Bytes, b: Byte): (i: nat)
    ensures i <= |s|
  {
    if s == [] || s[0] == b then 0 else 1 + IndexOf(s[1..], b)
  }

  lemma {:induction false} IndexIs(s: Bytes, b: Byte)
    ensures IndexOf(s, b) < |s| ==> s[IndexOf(s, b)] == b
    ensures b !in s[..IndexOf(s, b)]
  {
    if s != [] && s[0] != b {
      IndexIs(s[1..], b);
      var i := IndexOf(s[1..], b);
      assert s[..i + 1] == [s[0]] + s[1..][..i];
    }
  }

  lemma {:induction false} IndexAfter(a: Bytes, b: Byte, rest: Bytes)
    requires b !in a
    ensures IndexOf(a + [b] + rest, b) == |a|
  {
    if a == [] {
      assert (a + [b] + rest)[0] == b;
    } else {
      assert a[0] in a && (a + [b] + rest)[1..] == a[1..] + [b] + rest;
      IndexAfter(a[1..], b, rest);
    }
  }

  lemma {:induction false} IndexBefore(a: Bytes, b: Byte, rest: Bytes)
    requires b in a
    ensures IndexOf(a, b) < |a| && IndexOf(a + rest, b) == IndexOf(a, b)
  {
    if a[0] != b {
      assert a == [a[0]] + a[1..] && (a + rest)[1..] == a[1..] + rest;
      IndexBefore(a[1..], b, rest);
    }
  }

  /** Text after the last `b`, when there is one. */
  function AfterLast(s: Bytes, b: Byte): Option<Bytes> {
    if s == [] then None
    else if s[|s| - 1] == b then Some([])
    else
      match AfterLast(s[..|s| - 1], b)
      case None => None
      case Some(t) => Some(t + [s[|s| - 1]])
  }

  lemma {:induction false} AfterLastOf(a: Bytes, b: Byte, t: Bytes)
    requires b !in t
    ensures AfterLast(a + [b] + t, b) == Some(t)
    decreases |t|
  {
    var s := a + [b] + t;
    if t == [] {
      assert s[|s| - 1] == b;
    } else {
      var front, last := t[..|t| - 1], t[|t| - 1];
      assert s[..|s| - 1] == a + [b] + front && s[|s| - 1] == last && last in t;
      AfterLastOf(a, b, front);
      assert front + [last] == t;
    }
  }

  /** The fields between separators, one more than there are separators. */
  function Split(s: Bytes, b: Byte): (fields: seq<Bytes>)
    ensures |fields| >= 1
    decreases |s|
  {
    var i := IndexOf(s, b);
    if i == |s| then [s] else [s[..i]] + Split(s[i + 1..], b)
  }

  lemma SplitFirst(a: Bytes, b: Byte, rest: Bytes)
    requires b !in a
    ensures Split(a + [b] + rest, b) == [a] + Split(rest, b)
  {
    var s := a + [b] + rest;
    IndexAfter(a, b, rest);
    assert s[..|a|] == a && s[|a| + 1..] == rest;
  }

  /** A slice as Python takes it, clipped to the end. */
  function Take(s: Bytes, n: nat): Bytes { if n <= |s| then s[..n] else s }

  function Drop(s: Bytes, n: nat): Bytes { if n <= |s| then s[n..] else [] }

  // ---- decimal -----------------------------------------------------------

  predicate IsDigit(b: Byte) { 48 <= b <= 57 }

  function Digit(n: nat): Byte
    requires n < 10
  {
    48 + n as Byte
  }

  function Decimal(n: nat): (s: Bytes)
    ensures |s| > 0 && forall b | b in s :: IsDigit(b)
  {
    if n < 10 then [Digit(n)] else Decimal(n / 10) + [Digit(n % 10)]
  }

  function ParseDecimal(s: Bytes): Option<nat> {
    if s == [] || !IsDigit(s[|s| - 1]) then None
    else
      var d := s[|s| - 1] as int - 48;
      if |s| == 1 then Some(d)
      else
        match ParseDecimal(s[..|s| - 1])
        case None => None
        case Some(n) => Some(n * 10 + d)
  }

  lemma DigitsAre(b: Byte)
    ensures IsDigit(b) <==> exists n: nat :: n < 10 && b == Digit(n)
    ensures Digit(0) == '0' as int as Byte && Digit(9) == '9' as int as Byte
  {
    if IsDigit(b) {
      var n := b as int - 48;
      assert b == Digit(n);
    }
  }

  /** A number is one or more digits, and nothing else is one. */
  lemma {:induction false} ParsesWhen(s: Bytes)
    ensures ParseDecimal(s).Some? <==> s != [] && forall i | 0 <= i < |s| :: 48 <= s[i] < 58
  {
    if |s| > 1 {
      var front := s[..|s| - 1];
      ParsesWhen(front);
      assert forall i | 0 <= i < |front| :: front[i] == s[i];
    }
  }

  lemma {:induction false} DecimalRoundTrip(n: nat)
    ensures ParseDecimal(Decimal(n)) == Some(n)
  {
    if n >= 10 {
      DecimalRoundTrip(n / 10);
      assert Decimal(n)[..|Decimal(n)| - 1] == Decimal(n / 10);
    }
  }
}
