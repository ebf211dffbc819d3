/**
 * The roundings that work on the digits of a string, for the usage meter and for the
 * displayed amounts, and why they agree with the arithmetic rounding.
 */
module Rounding {
  import opened Prelude
  import opened Buckets
  import opened Decimals
  import Money

  const METER_FRACTION_DIGITS: nat := 6
  const MAX_SIGNED_BIGINT: nat := 9223372036854775807

  function PadEnd(s: string, length: nat): string
  {
    if |s| < length then s + Zeros(length - |s|) else s
  }

  /** Keeps `digits` digits of the fraction and rounds up on the next digit alone. */
  function RoundDigits(unsigned: string, digits: nat): nat
    requires IsUnsigned(unsigned)
  {
    var whole, fraction := WholePart(unsigned), FractionPart(unsigned);
    var kept := PadEnd(if |fraction| > digits then fraction[..digits] else fraction, digits);
    KeptIsDigits(whole, fraction, digits);
    Number(whole + kept) + (if |fraction| > digits && fraction[digits] >= '5' then 1 else 0)
  }

  lemma KeptIsDigits(whole: string, fraction: string, digits: nat)
    requires AllDigits(whole) && AllDigits(fraction)
    ensures AllDigits(whole + PadEnd(if |fraction| > digits then fraction[..digits] else fraction, digits))
  {}

  lemma {:induction false} NumberConcat(a: string, b: string)
    requires AllDigits(a) && AllDigits(b)
    ensures AllDigits(a + b) && Number(a + b) == Number(a) * PowerOfTen(|b|) + Number(b)
    decreases |b|
  {
    if b == "" {
      assert a + b == a;
    } else {
      var init, last := b[..|b| - 1], b[|b| - 1];
      NumberConcat(a, init);
      assert (a + b)[..|a + b| - 1] == a + init;
      TenTimes(Number(a), PowerOfTen(|init|));
    }
  }

  lemma TenTimes(a: nat, p: nat)
    ensures a * p * 10 == a * (10 * p)
  {}

  lemma {:induction false} NumberBelow(s: string)
    requires AllDigits(s)
    ensures Number(s) < PowerOfTen(|s|)
  {
    if s != "" { NumberBelow(s[..|s| - 1]); }
  }

  lemma {:induction false} NumberZeros(n: nat)
    ensures AllDigits(Zeros(n)) && Number(Zeros(n)) == 0
  {
    if n > 0 {
      NumberZeros(n - 1);
      assert Zeros(n)[..n - 1] == Zeros(n - 1);
    }
  }

  /** Only the first dropped digit decides whether half a unit is reached. */
  lemma FirstDigitDecides(kept: nat, digit: nat, rest: nat, p: nat)
    requires digit < 10 && rest < p
    ensures Money.HalfUp((kept * 10 + digit) * p + rest, 10 * p) == kept + (if digit >= 5 then 1 else 0)
  {
    var dropped := digit * p + rest;
    DigitTimes(digit, p);
    assert (kept * 10 + digit) * p + rest == kept * (10 * p) + dropped;
    Quotient(kept, dropped, 10 * p);
  }

  lemma DigitTimes(digit: nat, p: nat)
    requires digit < 10
    ensures digit <= 9 && digit * p <= 9 * p
    ensures digit >= 5 ==> digit * p >= 5 * p
    ensures digit < 5 ==> digit * p <= 4 * p
  {}

  lemma Quotient(q: nat, r: nat, d: nat)
    requires r < d
    ensures (q * d + r) / d == q && (q * d + r) % d == r
  {
    var n := q * d + r;
    var k := q - n / d;
    Difference(q, n / d, d);
    assert k * d == n % d - r;
    SmallMultiple(k, d);
  }

  lemma Difference(a: int, b: int, d: int)
    ensures (a - b) * d == a * d - b * d
  {}

  lemma SmallMultiple(k: int, d: int)
    requires -d < k * d < d
    ensures k == 0
  {
    CancelFactor(k, 1, d);
    CancelFactor(-1, k, d);
  }

  lemma CancelFactor(a: int, b: int, d: int)
    requires d > 0 && a * d < b * d
    ensures a < b
  {}

  /** Rounding on the digits is the arithmetic rounding, at every scale. */
  lemma DigitsAgree(unsigned: string, digits: nat)
    requires IsUnsigned(unsigned) && !IsNegative(unsigned)
    ensures RoundDigits(unsigned, digits) == Money.RoundHalfAway(Parsed(unsigned), digits)
  {
    hide Number, PowerOfTen, Money.HalfUp;
    var whole, fraction := WholePart(unsigned), FractionPart(unsigned);
    if |fraction| <= digits {
      AllKept(whole, fraction, digits);
    } else {
      assert PadEnd(fraction[..digits], digits) == fraction[..digits];
      CutRounds(whole, fraction, digits);
    }
  }

  lemma AllKept(whole: string, fraction: string, digits: nat)
    requires AllDigits(whole) && AllDigits(fraction) && |fraction| <= digits
    ensures AllDigits(whole + PadEnd(fraction, digits))
    ensures Number(whole + PadEnd(fraction, digits))
         == Number(whole + fraction) * PowerOfTen(digits - |fraction|)
  {
    var zeros := Zeros(digits - |fraction|);
    NumberZeros(digits - |fraction|);
    NumberConcat(whole + fraction, zeros);
    assert whole + (fraction + zeros) == (whole + fraction) + zeros;
    assert PadEnd(fraction, digits) == fraction + zeros;
  }

  lemma CutRounds(whole: string, fraction: string, digits: nat)
    requires AllDigits(whole) && AllDigits(fraction) && digits < |fraction|
    ensures PowerOfTen(|fraction| - digits) > 0
    ensures Money.HalfUp(Number(whole + fraction), PowerOfTen(|fraction| - digits))
         == Number(whole + fraction[..digits]) + (if fraction[digits] >= '5' then 1 else 0)
  {
    hide Number, PowerOfTen, Money.HalfUp;
    CutNumber(whole, fraction, digits);
    var rest := fraction[digits + 1..];
    FirstDigitDecides(Number(whole + fraction[..digits]), ValueOf(fraction[digits]), Number(rest), PowerOfTen(|rest|));
  }

  lemma CutNumber(whole: string, fraction: string, digits: nat)
    requires AllDigits(whole) && AllDigits(fraction) && digits < |fraction|
    ensures var head, rest := whole + fraction[..digits], fraction[digits + 1..];
      && Number(whole + fraction)
         == (Number(head) * 10 + ValueOf(fraction[digits])) * PowerOfTen(|rest|) + Number(rest)
      && Number(rest) < PowerOfTen(|rest|)
      && PowerOfTen(|fraction| - digits) == 10 * PowerOfTen(|rest|)
  {
    hide Number, PowerOfTen;
    var head, next, rest := whole + fraction[..digits], fraction[digits], fraction[digits + 1..];
    assert whole + fraction == (head + [next]) + rest;
    NumberConcat(head + [next], rest);
    NumberBelow(rest);
    NumberSnoc(head, next);
    PowerStep(|rest|);
  }

  lemma PowerStep(n: nat)
    ensures PowerOfTen(n + 1) == 10 * PowerOfTen(n)
  {}

  lemma NumberSnoc(s: string, c: char)
    requires AllDigits(s) && IsDigit(c)
    ensures AllDigits(s + [c]) && Number(s + [c]) == Number(s) * 10 + ValueOf(c)
  {
    assert (s + [c])[..|s|] == s;
  }

  // ---- The usage meter ---------------------------------------------------------------

  /** The meter counts millionths of a minor unit; only plain non-negative amounts are metered. */
  function MeterQuantity(amount: string, currency: string): Result<nat>
  {
    if !IsUnsigned(amount) || !Money.IsCurrency(currency) then Err(AmountInvalid) else
    var quantity := RoundDigits(amount, Money.MinorDigits(currency) + METER_FRACTION_DIGITS);
    if quantity > MAX_SIGNED_BIGINT then Err(AmountOutOfRange) else Ok(quantity)
  }

  lemma MeterIsRounding(amount: string, currency: string)
    requires MeterQuantity(amount, currency).Ok?
    ensures IsDecimal(amount)
    ensures MeterQuantity(amount, currency).value
         == Money.RoundHalfAway(Parsed(amount), Money.MinorDigits(currency) + METER_FRACTION_DIGITS)
  {
    UnsignedIsDecimal(amount);
    DigitsAgree(amount, Money.MinorDigits(currency) + METER_FRACTION_DIGITS);
  }

  /**
   * A dollar amount without a sign is metered in hundred-millionths of a dollar, to the nearest
   * one with halves rounded up, unless that exceeds what 64 bits hold; an amount with a sign is
   * refused.
   */
  lemma MeteredDollars(amount: string)
    requires IsDecimal(amount)
    ensures var r, doubled := MeterQuantity(amount, "USD"), 2.0 * Money.Amount(amount) * 100_000_000.0;
      if IsNegative(amount) then r == Err(AmountInvalid)
      else if doubled >= (2 * 9223372036854775807 + 1) as real then r == Err(AmountOutOfRange)
      else r.Ok? && (2 * r.value - 1) as real <= doubled < (2 * r.value + 1) as real
  {
    hide Scaled, RoundDigits, Money.RoundHalfAway, IsUnsigned;
    if IsNegative(amount) { SignNotUnsigned(amount); }
    if !IsNegative(amount) {
      assert Unsigned(amount) == amount;
      assert Money.MinorDigits("USD") == 2;
      DigitsAgree(amount, 8);
      NotNegative(amount);
      Money.RoundsToNearest(Parsed(amount), 8);
      Money.NonNegativeValue(Parsed(amount));
      var r: int := RoundDigits(amount, 8);
      EightDigits(2 * r - 1);
      EightDigits(2 * r + 1);
    }
  }

  lemma SignNotUnsigned(s: string)
    requires IsNegative(s)
    ensures !IsUnsigned(s)
  {
    assert IndexOfPoint(s) > 0;
    assert !IsDigit(s[..IndexOfPoint(s)][0]);
  }

  lemma NotNegative(s: string)
    requires IsDecimal(s) && !IsNegative(s)
    ensures Parsed(s).coefficient >= 0
  {}

  lemma EightDigits(n: int)
    ensures Scaled(n, 8) * 100_000_000.0 == n as real
  {
    ThreeDigits(n);
    assert Scaled(n, 8) == Scaled(n, 7) / 10.0;
    assert Scaled(n, 7) == Scaled(n, 6) / 10.0;
    assert Scaled(n, 6) == Scaled(n, 5) / 10.0;
    assert Scaled(n, 5) == Scaled(n, 4) / 10.0;
    assert Scaled(n, 4) == Scaled(n, 3) / 10.0;
  }

  lemma UnsignedIsDecimal(s: string)
    requires IsUnsigned(s)
    ensures !IsNegative(s) && IsDecimal(s)
  {
    assert s[..IndexOfPoint(s)][0] == s[0];
  }

  // ---- Displayed amounts --------------------------------------------------------------

  /** The cents shown for a dollar amount. */
  function UsdCents(value: string): int
    requires IsDecimal(value)
  {
    var unsigned := Unsigned(value);
    var whole, padded := WholePart(unsigned), PadEnd(FractionPart(unsigned), 3);
    PaddedIsDigits(FractionPart(unsigned), 3);
    var cents: int := Number(whole) * 100 + Number(padded[..2]) + (if padded[2] >= '5' then 1 else 0);
    if IsNegative(value) then -cents else cents
  }

  lemma PaddedIsDigits(fraction: string, length: nat)
    requires AllDigits(fraction)
    ensures AllDigits(PadEnd(fraction, length)) && |PadEnd(fraction, length)| >= length
  {}

  /** The displayed cents are the amount as it would be charged, at every scale. */
  lemma DisplayAgrees(value: string)
    requires IsDecimal(value)
    ensures Ok(UsdCents(value)) == Money.MajorToMinorRounded(value, "USD")
  {
    var unsigned := Unsigned(value);
    UnsignedIsDecimal(unsigned);
    CentsAreDigits(unsigned);
    DigitsAgree(unsigned, 2);
    Money.RoundingIsOdd(Parsed(unsigned), 2);
  }

  lemma CentsAreDigits(unsigned: string)
    requires IsUnsigned(unsigned) && IsDecimal(unsigned) && !IsNegative(unsigned)
    ensures UsdCents(unsigned) == RoundDigits(unsigned, 2)
  {
    var whole, fraction := WholePart(unsigned), FractionPart(unsigned);
    var padded := PadEnd(fraction, 3);
    PaddedIsDigits(fraction, 3);
    NumberConcat(whole, padded[..2]);
    assert PowerOfTen(2) == 100;
    if |fraction| >= 3 {
      assert padded[..2] == PadEnd(fraction[..2], 2);
    } else {
      assert padded[2] == '0';
      assert padded[..2] == PadEnd(fraction, 2);
    }
  }

  /** The source's integer division truncates toward zero. */
  function TruncatedQuotient(a: int, d: nat): int
    requires d > 0
  {
    if a >= 0 then a / d else -(-a / d)
  }

  /** Whole credits shown to a customer: a negative balance is never shown too favourably. */
  function DisplayedCredits(microcredits: int): (credits: int)
    ensures credits * 1_000_000 <= microcredits < (credits + 1) * 1_000_000
  {
    var credits := TruncatedQuotient(microcredits, MICROCREDITS_PER_CREDIT);
    if microcredits < 0 && microcredits % MICROCREDITS_PER_CREDIT != 0 then credits - 1 else credits
  }

  datatype CreditAmount = CreditAmount(credits: string, usd: string, usdCents: int)

  function CreditAmountOf(microcredits: int): Result<CreditAmount>
  {
    if microcredits % 10 != 0 then Err(CreditPrecisionInvalid) else
    var credits := DisplayedCredits(microcredits);
    var usd := Print(Decimal(credits, 3));
    RoundTrip(Decimal(credits, 3));
    Ok(CreditAmount(Print(Decimal(credits, 0)), usd, UsdCents(usd)))
  }

  /** A thousand credits are worth a dollar: the shown equivalent is exact and its cents are the nearest ones. */
  lemma CreditAmountExact(microcredits: int)
    requires microcredits % 10 == 0
    ensures CreditAmountOf(microcredits).Ok?
    ensures var shown := CreditAmountOf(microcredits).value;
      && IsDecimal(shown.credits) && IsDecimal(shown.usd)
      && Parsed(shown.credits) == Decimal(DisplayedCredits(microcredits), 0)
      && Money.Amount(shown.usd) * 1000.0 == DisplayedCredits(microcredits) as real
      && shown.usdCents == Money.RoundHalfAway(Decimal(DisplayedCredits(microcredits), 3), 2)
  {
    hide Money.RoundHalfAway, Print, Parsed, UsdCents, DisplayedCredits;
    var credits := DisplayedCredits(microcredits);
    RoundTrip(Decimal(credits, 0));
    RoundTrip(Decimal(credits, 3));
    var usd := Print(Decimal(credits, 3));
    DisplayAgrees(usd);
    Money.RoundByValue(Parsed(usd), Decimal(credits, 3), 2);
    ThreeDigits(credits);
  }

  lemma CreditAmountRefused(microcredits: int)
    requires microcredits % 10 != 0
    ensures CreditAmountOf(microcredits) == Err(CreditPrecisionInvalid)
  {}

  lemma ThreeDigits(n: int)
    ensures Scaled(n, 3) * 1000.0 == n as real
  {
    assert Scaled(n, 3) == Scaled(n, 2) / 10.0;
    assert Scaled(n, 2) == Scaled(n, 1) / 10.0;
    assert Scaled(n, 1) == Scaled(n, 0) / 10.0;
  }
}
