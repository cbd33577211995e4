/** Unsigned decimal text, as the staging protocol carries offsets in user properties. */
module Decimal {
  import opened Bytes
  import opened Wire

  predicate Digit(b: Byte) {
    48 <= b <= 57
  }

  predicate AllDigits(s: seq<Byte>) {
    forall i | 0 <= i < |s| :: Digit(s[i])
  }

  /** Decimal digits without leading zeros. */
  function Format(n: nat): (s: seq<Byte>)
    ensures |s| >= 1 && AllDigits(s)
  {
    if n < 10 then [48 + n] else Format(n / 10) + [48 + n % 10]
  }

  function Value(s: seq<Byte>): nat
    requires AllDigits(s)
  {
    if s == [] then 0 else Value(s[..|s| - 1]) * 10 + (s[|s| - 1] as int - 48)
  }

  /** `str::parse::<u32>`: an optional plus sign, at least one digit, no overflow. */
  function ParseU32(s: seq<Byte>): Option<U32> {
    var digits := if |s| >= 1 && s[0] == 43 then s[1..] else s;
    if digits == [] || !AllDigits(digits) || Value(digits) >= 0x1_0000_0000 then None
    else Some(Value(digits))
  }

  lemma {:induction false} ValueOfFormat(n: nat)
    ensures Value(Format(n)) == n
  {
    if n >= 10 {
      var head := Format(n / 10);
      ValueOfFormat(n / 10);
      assert Format(n)[..|head|] == head;
    }
  }

  /** Offsets survive the trip through text. */
  lemma RoundTrip(n: U32)
    ensures ParseU32(Format(n)) == Some(n)
  {
    ValueOfFormat(n);
    assert Digit(Format(n)[0]);
  }

  function Power(k: nat): nat {
    if k == 0 then 1 else 10 * Power(k - 1)
  }

  lemma {:induction false} Digits(n: nat, k: nat)
    requires n < Power(k) && k >= 1
    ensures |Format(n)| <= k
  {
    if n >= 10 {
      assert k > 1 by { assert Power(1) == 10; }
      Digits(n / 10, k - 1);
    }
  }

  lemma AtMostTenDigits(n: U32)
    ensures |Format(n)| <= 10
  {
    assert Power(5) == 100_000;
    assert Power(10) == 10 * (10 * (10 * (10 * (10 * Power(5)))));
    Digits(n, 10);
  }

  lemma {:induction false} MoreDigits(n: nat, k: nat)
    requires n >= Power(k)
    ensures |Format(n)| > k
  {
    if k > 0 {
      assert n / 10 >= Power(k - 1);
      MoreDigits(n / 10, k - 1);
      assert Power(k) >= 10 by { PowerPositive(k - 1); }
    }
  }

  lemma {:induction false} PowerPositive(k: nat)
    ensures Power(k) >= 1
  {
    if k > 0 {
      PowerPositive(k - 1);
    }
  }

  lemma TenDigits(n: nat)
    requires n >= 1_000_000_000
    ensures |Format(n)| >= 10
  {
    assert Power(5) == 100_000;
    assert Power(9) == 10 * (10 * (10 * (10 * Power(5))));
    MoreDigits(n, 9);
  }

  lemma {:induction false} AsciiIsText(s: seq<Byte>)
    requires forall i | 0 <= i < |s| :: s[i] < 0x80
    ensures IsUtf8(s)
  {
    if s != [] {
      AsciiIsText(s[1..]);
    }
  }

  /** Decimal text. */
  function FormatText(n: nat): (t: Text)
    ensures t == Format(n)
  {
    AsciiIsText(Format(n));
    Format(n)
  }
}
