/** Decimal printing: the specification used for "%d", and the hand-written
    `itoa` of types/ports.go, which fills a 20-byte buffer from the right. */
module Decimal {
  import opened Sequences

  const MIN_INT64: int := -0x8000_0000_0000_0000
  const MAX_INT64: int := 0x7fff_ffff_ffff_ffff

  type int64 = i: int | MIN_INT64 <= i <= MAX_INT64

  function Digit(d: nat): char
    requires d < 10
  {
    '0' + d as char
  }

  function DigitValue(c: char): nat
  {
    if '0' <= c <= '9' then (c - '0') as nat else 0
  }

  /** The decimal numeral of a natural number. */
  function Print(n: nat): string
  {
    if n < 10 then [Digit(n)] else Print(n / 10) + [Digit(n % 10)]
  }

  /** The numeral of a signed number. */
  function PrintInt(i: int): string
  {
    if i < 0 then "-" + Print(-i) else Print(i)
  }

  /** Reads a string of digits, most significant first. */
  function Parse(s: string): nat
  {
    if s == "" then 0 else 10 * Parse(s[..|s| - 1]) + DigitValue(s[|s| - 1])
  }

  function ParseInt(s: string): int
  {
    if s != "" && s[0] == '-' then -(Parse(s[1..]) as int) else Parse(s)
  }

  function Pow10(k: nat): nat
  {
    if k == 0 then 1 else 10 * Pow10(k - 1)
  }

  predicate AllDigits(s: string)
  {
    forall k :: 0 <= k < |s| ==> '0' <= s[k] <= '9'
  }

  /** Printing produces digits only, without a leading zero unless the number
      is zero, and parses back to the number. */
  lemma {:induction false} PrintRoundTrip(n: nat)
    ensures Parse(Print(n)) == n
    ensures |Print(n)| > 0 && AllDigits(Print(n))
    ensures Print(n)[0] == '0' ==> n == 0
  {
    if n >= 10 {
      PrintRoundTrip(n / 10);
      var s := Print(n);
      assert s[..|s| - 1] == Print(n / 10);
    } else {
      assert Print(n)[..0] == "";
    }
  }

  /** The signed round trip: every integer is read back from its numeral. */
  lemma PrintIntRoundTrip(i: int)
    ensures ParseInt(PrintInt(i)) == i
    ensures PrintInt(i) != "" && (PrintInt(i)[0] == '0' ==> i == 0)
    ensures i < 0 <==> PrintInt(i)[0] == '-'
  {
    if i < 0 {
      PrintRoundTrip(-i);
      assert PrintInt(i)[1..] == Print(-i);
    } else {
      PrintRoundTrip(i);
    }
  }

  lemma PrintInjective(m: int, n: int)
    requires PrintInt(m) == PrintInt(n)
    ensures m == n
  {
    PrintIntRoundTrip(m);
    PrintIntRoundTrip(n);
  }

  /** `k` decimal digits suffice exactly for the numbers below 10^k. */
  lemma {:induction false} PrintLength(n: nat, k: nat)
    requires k > 0
    ensures |Print(n)| <= k <==> n < Pow10(k)
  {
    if n < 10 {
      Pow10Positive(k - 1);
    } else if k == 1 {
      PrintRoundTrip(n / 10);
      assert Pow10(1) == 10 * Pow10(0);
    } else {
      PrintLength(n / 10, k - 1);
    }
  }

  lemma {:induction false} Pow10Positive(k: nat)
    ensures Pow10(k) > 0
  {
    if k > 0 {
      Pow10Positive(k - 1);
    }
  }

  /** Go's unary minus on int64 wraps at the minimum. */
  function NegInt64(i: int64): int64
  {
    if i == MIN_INT64 then MIN_INT64 else -i
  }

  lemma BufferSuffices(i: int64)
    requires i > 0
    ensures |Print(i)| <= 19
  {
    assert Pow10(19) == 10_000_000_000_000_000_000 by {
      assert Pow10(5) == 100_000;
      assert Pow10(10) == 100_000 * Pow10(5);
      assert Pow10(15) == 100_000 * Pow10(10);
      assert Pow10(19) == 10_000 * Pow10(15);
    }
    PrintLength(i, 19);
  }

  /** The digits still to be written. */
  function Pending(n: nat): string {
    if n == 0 then "" else Print(n)
  }

  lemma LastDigitFirst(n: nat)
    requires n > 0
    ensures Pending(n) == Pending(n / 10) + [Digit(n % 10)]
  {
  }

  /** `itoa`: every buffer index written lies in the 20-byte buffer, and the
      result is the numeral of `i`, except that the minimum int64 prints as a
      bare minus sign because its negation wraps. */
  method Itoa(i: int64) returns (s: string)
    ensures s == if i == MIN_INT64 then "-" else PrintInt(i)
  {
    if i == 0 {
      return "0";
    }
    var n := i;
    var negative := n < 0;
    if negative {
      n := NegInt64(n);
    }
    var buf := new char[20];
    var pos := buf.Length;
    if n > 0 {
      BufferSuffices(n);
      pos := WriteDigits(buf, n);
    }
    if negative {
      pos := pos - 1;
      buf[pos] := '-';
    }
    s := buf[pos..];
  }

  /** The loop of `itoa`, which fills the buffer from the right. */
  method WriteDigits(buf: array<char>, i: int64) returns (pos: nat)
    requires i > 0 && |Pending(i)| < buf.Length
    modifies buf
    ensures 0 < pos <= buf.Length && buf[pos..] == Pending(i)
  {
    hide Print, Pending, Digit;
    assert Pending(0) == "" by {
      NothingPending();
    }
    var n: nat := i;
    pos := buf.Length;
    while n > 0
      invariant 0 < pos <= buf.Length
      invariant Pending(i) == Pending(n) + buf[pos..]
      decreases n
    {
      LastDigitFirst(n);
      ghost var tail := buf[pos..];
      Regroup(Pending(n / 10), [Digit(n % 10)], tail);
      assert |Pending(i)| == |Pending(n / 10)| + 1 + |tail|;
      pos := pos - 1;
      buf[pos] := Digit(n % 10);
      assert buf[pos..] == [Digit(n % 10)] + tail;
      n := n / 10;
    }
  }

  lemma NothingPending()
    ensures Pending(0) == ""
  {
  }

  /** No number prints as a bare minus sign, and a bare minus sign reads as 0. */
  lemma BareSign(i: int)
    ensures PrintInt(i) != "-" && ParseInt("-") == 0
  {
    PrintRoundTrip(if i < 0 then -i else i);
    if i >= 0 {
      PrintIntRoundTrip(i);
    }
    assert "-"[1..] == "";
  }

  /** What `itoa` prints denotes its argument exactly when the argument is not
      the minimum int64. */
  lemma ItoaCorrectIff(i: int64, s: string)
    requires s == if i == MIN_INT64 then "-" else PrintInt(i)
    ensures s == PrintInt(i) <==> i != MIN_INT64
    ensures ParseInt(s) == i <==> i != MIN_INT64
  {
    BareSign(i);
    if i != MIN_INT64 {
      PrintIntRoundTrip(i);
    }
  }

  /** Numerals are decimal: one more digit stands for ten times the number and the
      digit. */
  lemma PrintsDecimal(n: nat, d: nat)
    requires n > 0 && d < 10
    ensures Print(10 * n + d) == Print(n) + [ "0123456789"[d] ]
    ensures Print(d) == [ "0123456789"[d] ]
  {
    assert (10 * n + d) / 10 == n && (10 * n + d) % 10 == d;
  }
}
