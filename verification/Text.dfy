/** ASCII text: lower case and decimal numbers. */
module Text {

  function LowerChar(c: char): char {
    if 'A' <= c <= 'Z' then (c as int + 32) as char else c
  }

  /** `toLowerCase` on ASCII text. */
  function Lower(s: string): (t: string)
    ensures |t| == |s|
    ensures forall i :: 0 <= i < |s| ==> t[i] == LowerChar(s[i])
  {
    if s == "" then "" else [LowerChar(s[0])] + Lower(s[1..])
  }

  /** The number a string of decimal digits writes. */
  function DecimalValue(s: string): nat
    requires forall i :: 0 <= i < |s| ==> '0' <= s[i] <= '9'
  {
    if s == "" then 0 else 10 * DecimalValue(s[..|s| - 1]) + (s[|s| - 1] as int - '0' as int)
  }

  /** A whole number in decimal digits, without leading zeros. */
  function Decimal(n: nat): (s: string)
    ensures |s| >= 1 && forall i :: 0 <= i < |s| ==> '0' <= s[i] <= '9'
  {
    var digit := [(n % 10 + '0' as int) as char];
    if n < 10 then digit else Decimal(n / 10) + digit
  }

  lemma {:induction false} DecimalRoundTrip(n: nat)
    ensures DecimalValue(Decimal(n)) == n
    ensures n > 0 ==> Decimal(n)[0] != '0'
  {
    var s := Decimal(n);
    if n >= 10 {
      DecimalRoundTrip(n / 10);
      assert s[..|s| - 1] == Decimal(n / 10);
    } else {
      assert s[..|s| - 1] == "";
    }
  }

  function Pow10(k: nat): nat {
    if k == 0 then 1 else 10 * Pow10(k - 1)
  }

  lemma {:induction false} DecimalLength(n: nat, k: nat)
    requires n < Pow10(k) && k > 0
    ensures |Decimal(n)| <= k
  {
    if n >= 10 {
      DecimalLength(n / 10, k - 1);
    }
  }

  /** A number of 128 bits has at most 39 digits, and one of 64 bits at most 20. */
  lemma DigitsAreEnough()
    ensures 0x1_0000_0000_0000_0000_0000_0000_0000_0000 <= Pow10(39) && 0x1_0000_0000_0000_0000 <= Pow10(20)
  {
    assert Pow10(10) == 10_000_000_000;
    assert Pow10(20) == 100_000_000_000_000_000_000;
    assert Pow10(30) == 1_000_000_000_000_000_000_000_000_000_000;
    assert Pow10(39) == 1_000_000_000_000_000_000_000_000_000_000_000_000_000;
  }

  lemma DigitSplits(a: nat, digit: nat)
    requires digit < 10
    ensures (10 * a + digit) / 10 == a && (10 * a + digit) % 10 == digit
  {
  }

  /** Without leading zeros a number has one text. */
  lemma {:induction false} DecimalIsItsText(s: string)
    requires |s| > 0 && (forall i :: 0 <= i < |s| ==> '0' <= s[i] <= '9') && (s[0] == '0' ==> |s| == 1)
    ensures Decimal(DecimalValue(s)) == s
    ensures s[0] != '0' ==> DecimalValue(s) > 0
  {
    var last := |s| - 1;
    var digit := s[last] as int - '0' as int;
    if last == 0 {
      assert s[..0] == "" && DecimalValue(s) == digit;
      assert Decimal(digit) == [s[0]];
    } else {
      assert s[..last][0] == s[0];
      DecimalIsItsText(s[..last]);
      DigitSplits(DecimalValue(s[..last]), digit);
      assert s == s[..last] + [s[last]];
    }
  }

  lemma {:induction false} DecimalIsLong(n: nat, k: nat)
    requires n >= Pow10(k)
    ensures |Decimal(n)| > k
  {
    if k > 0 {
      assert Pow10(k) == 10 * Pow10(k - 1) && Pow10(k - 1) >= 1 by {
        PowersArePositive(k - 1);
      }
      DecimalIsLong(n / 10, k - 1);
    }
  }

  lemma {:induction false} PowersArePositive(k: nat)
    ensures Pow10(k) >= 1
  {
    if k > 0 {
      PowersArePositive(k - 1);
    }
  }
}
