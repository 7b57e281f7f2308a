/** Decimal text of an integer, as yajl_gen_integer renders it with "%lld":
    an optional minus sign and the digits, most significant first, with no
    leading zeros. */
module Decimal {
  import opened GenTypes

  predicate IsDigit(b: byte)
  {
    DIGIT_ZERO <= b < DIGIT_ZERO + 10
  }

  function DigitByte(d: nat): (b: byte)
    requires d < 10
    ensures IsDigit(b)
  {
    (DIGIT_ZERO as int + d) as byte
  }

  /** The digits of n. */
  function Digits(n: nat): (s: seq<byte>)
    ensures |s| > 0
    ensures forall i :: 0 <= i < |s| ==> IsDigit(s[i])
    decreases n
  {
    if n < 10 then [DigitByte(n)] else Digits(n / 10) + [DigitByte(n % 10)]
  }

  /** The text "%lld" produces for n. */
  function Text(n: int): seq<byte>
  {
    if n < 0 then [MINUS] + Digits(-n) else Digits(n)
  }

  /** The value a run of digits denotes. */
  function DigitsValue(s: seq<byte>): nat
    requires forall i :: 0 <= i < |s| ==> IsDigit(s[i])
  {
    if |s| == 0 then 0
    else
      var last := s[|s| - 1];
      assert IsDigit(last);
      DigitsValue(s[..|s| - 1]) * 10 + (last as int - DIGIT_ZERO as int)
  }

  /** Reads back an optionally signed run of digits. */
  function Parse(s: seq<byte>): Option<int>
  {
    if |s| > 0 && s[0] == MINUS && forall i :: 1 <= i < |s| ==> IsDigit(s[i]) then
      var magnitude: int := DigitsValue(s[1..]);
      Some(-magnitude)
    else if forall i :: 0 <= i < |s| ==> IsDigit(s[i]) then
      Some(DigitsValue(s))
    else None
  }

  lemma {:induction false} DigitsRoundTrip(n: nat)
    ensures DigitsValue(Digits(n)) == n
    decreases n
  {
    if n >= 10 {
      DigitsRoundTrip(n / 10);
      var s := Digits(n);
      assert s[..|s| - 1] == Digits(n / 10);
    }
  }

  /** Reading the rendered text back gives the number. */
  lemma TextRoundTrip(n: int)
    ensures Parse(Text(n)) == Some(n)
  {
    if n < 0 {
      DigitsRoundTrip(-n);
      assert Text(n)[1..] == Digits(-n);
    } else {
      DigitsRoundTrip(n);
    }
  }

  /** The rendering is canonical: a leading zero only for zero itself. */
  lemma {:induction false} DigitsHaveNoLeadingZero(n: nat)
    ensures Digits(n)[0] == DIGIT_ZERO <==> n == 0
    decreases n
  {
    if n >= 10 {
      DigitsHaveNoLeadingZero(n / 10);
    }
  }

  function Pow10(k: nat): (r: nat)
    ensures r >= 1
  {
    if k == 0 then 1 else 10 * Pow10(k - 1)
  }

  lemma {:induction false} DigitsLength(n: nat, k: nat)
    requires 1 <= k && n < Pow10(k)
    ensures |Digits(n)| <= k
    decreases k
  {
    if n >= 10 {
      assert n / 10 < Pow10(k - 1);
      DigitsLength(n / 10, k - 1);
    }
  }

  /** Every 64-bit value renders in at most 20 bytes, so it fits the 32-byte
      scratch array yajl_gen_integer formats into. */
  lemma Int64TextFits(n: int64)
    ensures |Text(n as int)| <= 20
  {
    assert Pow10(1) == 10;
    assert Pow10(2) == 100;
    assert Pow10(3) == 1000;
    assert Pow10(4) == 10000;
    assert Pow10(5) == 100000;
    assert Pow10(6) == 1000000;
    assert Pow10(7) == 10000000;
    assert Pow10(8) == 100000000;
    assert Pow10(9) == 1000000000;
    assert Pow10(10) == 10000000000;
    assert Pow10(11) == 100000000000;
    assert Pow10(12) == 1000000000000;
    assert Pow10(13) == 10000000000000;
    assert Pow10(14) == 100000000000000;
    assert Pow10(15) == 1000000000000000;
    assert Pow10(16) == 10000000000000000;
    assert Pow10(17) == 100000000000000000;
    assert Pow10(18) == 1000000000000000000;
    assert Pow10(19) == 10000000000000000000;
    if n < 0 {
      DigitsLength(-(n as int), 19);
    } else {
      DigitsLength(n as int, 19);
    }
  }
}
