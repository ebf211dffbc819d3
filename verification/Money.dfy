/** Exact arithmetic on decimal strings, and the rounding at currency boundaries. */
module Money {
  import opened Prelude
  import opened Decimals

  const MAX_SAFE_INTEGER: nat := 9007199254740991

  function Larger(a: nat, b: nat): nat
  {
    if a > b then a else b
  }

  /** The coefficient of a decimal written at a larger scale. */
  function Widened(d: Decimal, scale: nat): int
    requires d.scale <= scale
  {
    d.coefficient * PowerOfTen(scale - d.scale)
  }

  function Sum(left: Decimal, right: Decimal): Decimal
  {
    var scale := Larger(left.scale, right.scale);
    Decimal(Widened(left, scale) + Widened(right, scale), scale)
  }

  function Difference(left: Decimal, right: Decimal): Decimal
  {
    var scale := Larger(left.scale, right.scale);
    Decimal(Widened(left, scale) - Widened(right, scale), scale)
  }

  /** A basis point is a ten-thousandth. */
  function Marked(d: Decimal, basisPoints: nat): Decimal
  {
    Decimal(d.coefficient * basisPoints, d.scale + 4)
  }

  function Add(left: string, right: string): Result<string>
  {
    if !IsDecimal(left) || !IsDecimal(right) then Err(DecimalInvalid)
    else Ok(Print(Sum(Parsed(left), Parsed(right))))
  }

  function Subtract(left: string, right: string): Result<string>
  {
    if !IsDecimal(left) || !IsDecimal(right) then Err(DecimalInvalid)
    else Ok(Print(Difference(Parsed(left), Parsed(right))))
  }

  function MultiplyByBps(value: string, basisPoints: int): Result<string>
  {
    if !(0 <= basisPoints <= MAX_SAFE_INTEGER) then Err(MultiplierInvalid)
    else if !IsDecimal(value) then Err(DecimalInvalid)
    else Ok(Print(Marked(Parsed(value), basisPoints)))
  }

  // ---- Strings stand for values -------------------------------------------------

  ghost function Amount(s: string): real
    requires IsDecimal(s)
  {
    Value(Parsed(s))
  }

  predicate Canonical(s: string)
  {
    IsDecimal(s) && Print(Parsed(s)) == s
  }

  lemma PrintCanonical(d: Decimal)
    ensures Canonical(Print(d)) && Amount(Print(d)) == Value(d)
  {
    RoundTrip(d);
    PrintNormal(d);
  }

  /** A canonical string has a sign exactly when it stands for less than nothing. */
  lemma CanonicalSign(s: string)
    requires Canonical(s)
    ensures IsNegative(s) <==> Amount(s) < 0.0
  {
    hide Scaled, PrintUnsigned, IsUnsigned;
    var d := Parsed(s);
    ScaledTimes(0, 0, d.scale);
    ScaledInjective(d.coefficient, 0, d.scale);
    if d.coefficient > 0 {
      PrintedSign(d);
    }
  }

  lemma PrintedSign(d: Decimal)
    requires d.coefficient > 0
    ensures !IsNegative(Print(d))
  {
    RoundTrip(d);
    NormalKeepsSign(d);
  }

  lemma {:induction false} NormalKeepsSign(d: Decimal)
    requires d.coefficient > 0
    ensures Normal(d).coefficient > 0
    decreases d.scale
  {
    if d.scale > 0 && d.coefficient % 10 == 0 {
      NormalKeepsSign(Decimal(d.coefficient / 10, d.scale - 1));
    }
  }

  lemma CanonicalDecides(a: string, b: string)
    requires Canonical(a) && Canonical(b)
    ensures a == b <==> Amount(a) == Amount(b)
  {
    PrintDecides(Parsed(a), Parsed(b));
  }

  lemma WidenedExact(d: Decimal, scale: nat)
    requires d.scale <= scale
    ensures Scaled(Widened(d, scale), scale) == Value(d)
  {
    Rescale(d.coefficient, d.scale, scale - d.scale);
  }

  lemma SumExact(left: Decimal, right: Decimal)
    ensures Value(Sum(left, right)) == Value(left) + Value(right)
  {
    var scale := Larger(left.scale, right.scale);
    WidenedExact(left, scale);
    WidenedExact(right, scale);
    ScaledAdd(Widened(left, scale), Widened(right, scale), scale);
  }

  lemma DifferenceExact(left: Decimal, right: Decimal)
    ensures Value(Difference(left, right)) == Value(left) - Value(right)
  {
    var scale := Larger(left.scale, right.scale);
    WidenedExact(left, scale);
    WidenedExact(right, scale);
    ScaledSubtract(Widened(left, scale), Widened(right, scale), scale);
  }

  lemma ScaledSubtract(a: int, b: int, scale: nat)
    ensures Scaled(a - b, scale) == Scaled(a, scale) - Scaled(b, scale)
  {
    ScaledAdd(a - b, b, scale);
  }

  lemma MarkedExact(d: Decimal, basisPoints: nat)
    ensures Value(Marked(d, basisPoints)) * 10000.0 == Value(d) * basisPoints as real
  {
    ScaledTimes(d.coefficient, basisPoints, d.scale);
    FourDigits(d.coefficient * basisPoints, d.scale);
  }

  lemma FourDigits(n: int, scale: nat)
    ensures Scaled(n, scale + 4) * 10000.0 == Scaled(n, scale)
  {
    assert Scaled(n, scale + 4) == Scaled(n, scale + 3) / 10.0;
    assert Scaled(n, scale + 3) == Scaled(n, scale + 2) / 10.0;
    assert Scaled(n, scale + 2) == Scaled(n, scale + 1) / 10.0;
  }

  /** Addition of strings is addition of the values they stand for, and its result is canonical. */
  lemma AddExact(left: string, right: string)
    requires IsDecimal(left) && IsDecimal(right)
    ensures var sum := Add(left, right);
      sum.Ok? && Canonical(sum.value) && Amount(sum.value) == Amount(left) + Amount(right)
  {
    SumExact(Parsed(left), Parsed(right));
    PrintCanonical(Sum(Parsed(left), Parsed(right)));
  }

  lemma SubtractExact(left: string, right: string)
    requires IsDecimal(left) && IsDecimal(right)
    ensures var difference := Subtract(left, right);
      difference.Ok? && Canonical(difference.value) && Amount(difference.value) == Amount(left) - Amount(right)
  {
    DifferenceExact(Parsed(left), Parsed(right));
    PrintCanonical(Difference(Parsed(left), Parsed(right)));
  }

  /** Multiplying by basis points is exact: n/10000 of the value, with no rounding. */
  lemma MultiplyExact(value: string, basisPoints: nat)
    requires IsDecimal(value) && basisPoints <= MAX_SAFE_INTEGER
    ensures var product := MultiplyByBps(value, basisPoints);
      product.Ok? && Canonical(product.value)
      && Amount(product.value) * 10000.0 == Amount(value) * basisPoints as real
  {
    hide Marked, Value, Print, Parsed;
    MarkedExact(Parsed(value), basisPoints);
    PrintCanonical(Marked(Parsed(value), basisPoints));
  }

  // ---- The algebra of decimal strings ----------------------------------------------

  function Then(first: Result<string>, next: string -> Result<string>): Result<string>
  {
    match first
    case Ok(s) => next(s)
    case Err(e) => Err(e)
  }

  lemma AddCommutes(a: string, b: string)
    ensures Add(a, b) == Add(b, a)
  {
    if IsDecimal(a) && IsDecimal(b) {
      AddExact(a, b);
      AddExact(b, a);
      CanonicalDecides(Add(a, b).value, Add(b, a).value);
    }
  }

  lemma AddAssociates(a: string, b: string, c: string)
    ensures Then(Add(a, b), ab => Add(ab, c)) == Then(Add(b, c), bc => Add(a, bc))
  {
    hide Sum, Print, Parsed, Value;
    if IsDecimal(a) && IsDecimal(b) && IsDecimal(c) {
      AddExact(a, b);
      AddExact(b, c);
      var ab, bc := Add(a, b).value, Add(b, c).value;
      AddExact(ab, c);
      AddExact(a, bc);
      CanonicalDecides(Add(ab, c).value, Add(a, bc).value);
    }
  }

  /** Marking up a sum is the sum of the marked-up parts, as the very same string. */
  lemma MultiplyDistributes(a: string, b: string, basisPoints: nat)
    requires basisPoints <= MAX_SAFE_INTEGER
    ensures Then(Add(a, b), ab => MultiplyByBps(ab, basisPoints))
         == Then(MultiplyByBps(a, basisPoints), x => Then(MultiplyByBps(b, basisPoints), y => Add(x, y)))
  {
    hide Sum, Marked, Print, Parsed, Value;
    if IsDecimal(a) && IsDecimal(b) {
      AddExact(a, b);
      MultiplyExact(a, basisPoints);
      MultiplyExact(b, basisPoints);
      var ab, x, y := Add(a, b).value, MultiplyByBps(a, basisPoints).value, MultiplyByBps(b, basisPoints).value;
      MultiplyExact(ab, basisPoints);
      AddExact(x, y);
      SameProduct(Amount(a), Amount(b), basisPoints as real, Amount(x), Amount(y),
        Amount(MultiplyByBps(ab, basisPoints).value));
      CanonicalDecides(MultiplyByBps(ab, basisPoints).value, Add(x, y).value);
    }
  }

  lemma SameProduct(a: real, b: real, n: real, x: real, y: real, xy: real)
    requires x * 10000.0 == a * n && y * 10000.0 == b * n && xy * 10000.0 == (a + b) * n
    ensures xy == x + y
  {
    assert (a + b) * n == a * n + b * n;
  }

  /** Subtraction undoes addition, up to the canonical spelling of the operand. */
  lemma SubtractInverts(a: string, b: string)
    requires IsDecimal(a) && IsDecimal(b)
    ensures Then(Add(a, b), ab => Subtract(ab, b)) == Ok(Print(Parsed(a)))
  {
    AddExact(a, b);
    SubtractExact(Add(a, b).value, b);
    PrintCanonical(Parsed(a));
    CanonicalDecides(Subtract(Add(a, b).value, b).value, Print(Parsed(a)));
  }

  // ---- Rounding -----------------------------------------------------------------------

  const ZERO_DECIMAL_CURRENCIES: set<string> :=
    {"BIF", "CLP", "DJF", "GNF", "JPY", "KMF", "KRW", "PYG", "RWF", "UGX", "VND", "VUV", "XAF", "XOF", "XPF"}
  const THREE_DECIMAL_CURRENCIES: set<string> := {"BHD", "IQD", "JOD", "KWD", "LYD", "OMR", "TND"}

  predicate IsCurrency(s: string)
  {
    |s| == 3 && forall i :: 0 <= i < 3 ==> 'A' <= s[i] <= 'Z'
  }

  function MinorDigits(currency: string): nat
  {
    if currency in ZERO_DECIMAL_CURRENCIES then 0
    else if currency in THREE_DECIMAL_CURRENCIES then 3
    else 2
  }

  /** Some currencies have no minor unit, some a thousandth, and all others a hundredth. */
  lemma CurrencyDigits(currency: string)
    ensures MinorDigits(currency)
         == if currency in {"BIF", "CLP", "DJF", "GNF", "JPY", "KMF", "KRW", "PYG", "RWF", "UGX", "VND", "VUV", "XAF",
                            "XOF", "XPF"} then 0
            else if currency in {"BHD", "IQD", "JOD", "KWD", "LYD", "OMR", "TND"} then 3
            else 2
  {}

  /** A whole number of minor units without leading zeros. */
  predicate IsMinorAmount(s: string)
  {
    s != "" && AllDigits(s) && (s[0] == '0' ==> |s| == 1)
  }

  function MinorToMajor(amountMinor: string, currency: string): Result<string>
  {
    if !IsMinorAmount(amountMinor) || !IsCurrency(currency) then Err(MoneyInvalid)
    else Ok(Print(Decimal(Number(amountMinor), MinorDigits(currency))))
  }

  /** The quotient, a half or more of the divisor counting as one. */
  function HalfUp(absolute: nat, divisor: nat): nat
    requires divisor > 0
  {
    absolute / divisor + (if absolute % divisor * 2 >= divisor then 1 else 0)
  }

  /** To the nearest whole multiple of 10^-digits, halves away from zero. */
  function RoundHalfAway(d: Decimal, digits: nat): int
  {
    if d.scale <= digits then d.coefficient * PowerOfTen(digits - d.scale) else
    PowerPositive(d.scale - digits);
    var rounded: int := HalfUp(Abs(d.coefficient), PowerOfTen(d.scale - digits));
    if d.coefficient < 0 then -rounded else rounded
  }

  function MajorToMinorRounded(amount: string, currency: string): Result<int>
  {
    if !IsCurrency(currency) then Err(MoneyInvalid)
    else if !IsDecimal(amount) then Err(DecimalInvalid)
    else Ok(RoundHalfAway(Parsed(amount), MinorDigits(currency)))
  }

  lemma {:induction false} PowerPositive(n: nat)
    ensures PowerOfTen(n) > 0
  {
    if n > 0 { PowerPositive(n - 1); }
  }

  function AbsReal(x: real): real
  {
    if x < 0.0 then -x else x
  }

  /** r is |x| rounded to the nearest multiple of 10^-digits, halves up. */
  ghost predicate Nearest(r: int, x: real, digits: nat)
  {
    Scaled(2 * r - 1, digits) <= 2.0 * x < Scaled(2 * r + 1, digits)
  }

  lemma NearestUnique(r: int, q: int, x: real, digits: nat)
    requires Nearest(r, x, digits) && Nearest(q, x, digits)
    ensures r == q
  {
    ScaledInjective(2 * r - 1, 2 * q + 1, digits);
    ScaledInjective(2 * q - 1, 2 * r + 1, digits);
  }

  lemma ScaledSign(a: int, scale: nat)
    ensures AbsReal(Scaled(a, scale)) == Scaled(Abs(a), scale)
  {
    ScaledTimes(0, 0, scale);
    ScaledInjective(a, 0, scale);
    ScaledNegate(a, scale);
  }

  lemma QuotientNearest(absolute: nat, divisor: nat)
    requires divisor > 0
    ensures var r := HalfUp(absolute, divisor);
      (2 * r - 1) * divisor <= 2 * absolute < (2 * r + 1) * divisor
  {
    var q, m := absolute / divisor, absolute % divisor;
    assert absolute == q * divisor + m;
    assert (2 * q + 1) * divisor == 2 * (q * divisor) + divisor;
    assert (2 * q - 1) * divisor == 2 * (q * divisor) - divisor;
    assert (2 * (q + 1) + 1) * divisor == 2 * (q * divisor) + 3 * divisor;
  }

  lemma WidenedIsNearest(absolute: nat, scale: nat, extra: nat)
    ensures Nearest(absolute * PowerOfTen(extra), Scaled(absolute, scale), scale + extra)
  {
    Rescale(absolute, scale, extra);
    ExactIsNearest(absolute * PowerOfTen(extra), scale + extra);
  }

  lemma ExactIsNearest(r: int, digits: nat)
    ensures Nearest(r, Scaled(r, digits), digits)
  {
    ScaledAdd(r, r, digits);
    ScaledInjective(2 * r - 1, r + r, digits);
    ScaledInjective(r + r, 2 * r + 1, digits);
  }

  lemma NarrowedIsNearest(r: int, absolute: nat, digits: nat, extra: nat)
    requires (2 * r - 1) * PowerOfTen(extra) <= 2 * absolute < (2 * r + 1) * PowerOfTen(extra)
    ensures Nearest(r, Scaled(absolute, digits + extra), digits)
  {
    var scale := digits + extra;
    ScaledTimes(absolute, 2, scale);
    Rescale(2 * r - 1, digits, extra);
    Rescale(2 * r + 1, digits, extra);
    ScaledInjective(2 * absolute, (2 * r - 1) * PowerOfTen(extra), scale);
    ScaledInjective(2 * absolute, (2 * r + 1) * PowerOfTen(extra), scale);
  }

  /** The rounded amount is the nearest one to the exact value, and keeps its sign. */
  lemma RoundsToNearest(d: Decimal, digits: nat)
    ensures Nearest(Abs(RoundHalfAway(d, digits)), AbsReal(Value(d)), digits)
    ensures d.coefficient >= 0 ==> RoundHalfAway(d, digits) >= 0
    ensures d.coefficient <= 0 ==> RoundHalfAway(d, digits) <= 0
  {
    ScaledSign(d.coefficient, d.scale);
    if d.scale <= digits {
      WidenedRounds(d, digits);
    } else {
      NarrowedRounds(d, digits);
    }
  }

  lemma WidenedRounds(d: Decimal, digits: nat)
    requires d.scale <= digits
    ensures Nearest(Abs(RoundHalfAway(d, digits)), Scaled(Abs(d.coefficient), d.scale), digits)
    ensures d.coefficient >= 0 ==> RoundHalfAway(d, digits) >= 0
    ensures d.coefficient <= 0 ==> RoundHalfAway(d, digits) <= 0
  {
    hide Nearest;
    var extra := digits - d.scale;
    PowerPositive(extra);
    SignOfProduct(d.coefficient, PowerOfTen(extra));
    WidenedIsNearest(Abs(d.coefficient), d.scale, extra);
  }

  lemma NarrowedRounds(d: Decimal, digits: nat)
    requires d.scale > digits
    ensures Nearest(Abs(RoundHalfAway(d, digits)), Scaled(Abs(d.coefficient), d.scale), digits)
    ensures d.coefficient >= 0 ==> RoundHalfAway(d, digits) >= 0
    ensures d.coefficient <= 0 ==> RoundHalfAway(d, digits) <= 0
  {
    hide Nearest, HalfUp, PowerOfTen, Scaled;
    var extra := d.scale - digits;
    PowerPositive(extra);
    var r := HalfUp(Abs(d.coefficient), PowerOfTen(extra));
    QuotientNearest(Abs(d.coefficient), PowerOfTen(extra));
    NarrowedIsNearest(r, Abs(d.coefficient), digits, extra);
  }

  lemma SignOfProduct(a: int, p: nat)
    requires p > 0
    ensures Abs(a * p) == Abs(a) * p
    ensures a >= 0 ==> a * p >= 0
    ensures a <= 0 ==> a * p <= 0
  {}

  /** Rounding sees the value only, not how it is written. */
  lemma RoundByValue(a: Decimal, b: Decimal, digits: nat)
    requires Value(a) == Value(b)
    ensures RoundHalfAway(a, digits) == RoundHalfAway(b, digits)
  {
    RoundsToNearest(a, digits);
    RoundsToNearest(b, digits);
    NearestUnique(Abs(RoundHalfAway(a, digits)), Abs(RoundHalfAway(b, digits)), AbsReal(Value(a)), digits);
    ScaledTimes(0, 0, a.scale);
    ScaledTimes(0, 0, b.scale);
    ScaledInjective(a.coefficient, 0, a.scale);
    ScaledInjective(b.coefficient, 0, b.scale);
    ScaledInjective(0, a.coefficient, a.scale);
    ScaledInjective(0, b.coefficient, b.scale);
  }

  /** A credit rounds to exactly the opposite of the charge it mirrors. */
  lemma RoundingIsOdd(d: Decimal, digits: nat)
    ensures RoundHalfAway(Decimal(-d.coefficient, d.scale), digits) == -RoundHalfAway(d, digits)
  {
    if d.scale <= digits {
      NegateProduct(d.coefficient, PowerOfTen(digits - d.scale));
    } else {
      PowerPositive(d.scale - digits);
      var divisor := PowerOfTen(d.scale - digits);
      assert 0 / divisor == 0 && 0 % divisor == 0;
    }
  }

  lemma NegateProduct(a: int, p: int)
    ensures (-a) * p == -(a * p)
  {}

  /** Whole minor amounts survive the trip through the major decimal, in every currency. */
  lemma MinorRoundTrip(amountMinor: string, currency: string)
    requires IsMinorAmount(amountMinor) && IsCurrency(currency)
    ensures var major := MinorToMajor(amountMinor, currency);
      major.Ok? && MajorToMinorRounded(major.value, currency) == Ok(Number(amountMinor))
  {
    var d := Decimal(Number(amountMinor), MinorDigits(currency));
    RoundTrip(d);
    RoundByValue(Parsed(Print(d)), d, d.scale);
  }

  /** Whole minor units can be added before or after rounding a non-negative amount. */
  lemma WholeUnitsPassRounding(whole: nat, usage: Decimal, total: Decimal, digits: nat)
    requires usage.coefficient >= 0 && Value(total) == Scaled(whole, digits) + Value(usage)
    ensures RoundHalfAway(total, digits) == whole + RoundHalfAway(usage, digits)
  {
    hide RoundHalfAway, Scaled;
    RoundsToNearest(usage, digits);
    RoundsToNearest(total, digits);
    NonNegativeValue(usage);
    NonNegativeScaled(whole, digits);
    NonNegativeCoefficient(total);
    NearestShift(RoundHalfAway(usage, digits), whole, Value(usage), digits);
    NearestUnique(RoundHalfAway(total, digits), whole + RoundHalfAway(usage, digits), Value(total), digits);
  }

  lemma NonNegativeScaled(n: nat, scale: nat)
    ensures Scaled(n, scale) >= 0.0
  {
    ScaledTimes(0, 0, scale);
    ScaledInjective(n, 0, scale);
  }

  lemma NonNegativeValue(d: Decimal)
    requires d.coefficient >= 0
    ensures Value(d) >= 0.0
  {
    NonNegativeScaled(d.coefficient, d.scale);
  }

  lemma NonNegativeCoefficient(d: Decimal)
    ensures Value(d) >= 0.0 ==> d.coefficient >= 0
  {
    ScaledTimes(0, 0, d.scale);
    ScaledInjective(d.coefficient, 0, d.scale);
  }

  lemma NearestShift(r: int, whole: int, x: real, digits: nat)
    requires Nearest(r, x, digits)
    ensures Nearest(whole + r, x + Scaled(whole, digits), digits)
  {
    ScaledAdd(whole, whole, digits);
    ScaledAdd(2 * r - 1, whole + whole, digits);
    ScaledAdd(2 * r + 1, whole + whole, digits);
    assert 2 * r - 1 + (whole + whole) == 2 * (whole + r) - 1;
    assert 2 * r + 1 + (whole + whole) == 2 * (whole + r) + 1;
  }

  // ---- Minor units, in figures ------------------------------------------------------------

  /** How many minor units make one. */
  function MinorPerMajor(currency: string): real
  {
    if MinorDigits(currency) == 0 then 1.0 else if MinorDigits(currency) == 3 then 1000.0 else 100.0
  }

  lemma ScaledMinor(n: int, currency: string)
    ensures Scaled(n, MinorDigits(currency)) * MinorPerMajor(currency) == n as real
  {
    assert Scaled(n, 3) == Scaled(n, 2) / 10.0;
    assert Scaled(n, 2) == Scaled(n, 1) / 10.0;
    assert Scaled(n, 1) == Scaled(n, 0) / 10.0;
  }

  /** An amount becomes the nearest whole number of minor units, halves going away from zero. */
  lemma MinorAmount(amount: string, currency: string)
    ensures var r := MajorToMinorRounded(amount, currency);
      if |currency| != 3 || exists i :: 0 <= i < 3 && !('A' <= currency[i] <= 'Z') then r == Err(MoneyInvalid)
      else if !IsDecimal(amount) then r == Err(DecimalInvalid)
      else
        && r.Ok?
        && var doubled := 2.0 * Amount(amount) * MinorPerMajor(currency);
           if doubled >= 0.0 then r.value >= 0 && (2 * r.value - 1) as real <= doubled < (2 * r.value + 1) as real
           else r.value <= 0 && (-2 * r.value - 1) as real <= -doubled < (-2 * r.value + 1) as real
  {
    hide RoundHalfAway, Scaled, MinorDigits, IsDecimal;
    if IsCurrency(currency) && IsDecimal(amount) {
      var d, digits := Parsed(amount), MinorDigits(currency);
      RoundsToNearest(d, digits);
      NonNegativeCoefficient(d);
      if d.coefficient >= 0 { NonNegativeValue(d); }
      var r := Abs(RoundHalfAway(d, digits)) as int;
      ScaledMinor(2 * r - 1, currency);
      ScaledMinor(2 * r + 1, currency);
    }
  }

  /** A whole number of minor units is exactly so many parts of the major amount. */
  lemma MajorAmount(amountMinor: string, currency: string)
    ensures var r := MinorToMajor(amountMinor, currency);
      if !IsMinorAmount(amountMinor) || !IsCurrency(currency) then r == Err(MoneyInvalid)
      else r.Ok? && Canonical(r.value) && Amount(r.value) * MinorPerMajor(currency) == Number(amountMinor) as real
  {
    hide Scaled, MinorDigits, Canonical;
    if IsMinorAmount(amountMinor) && IsCurrency(currency) {
      PrintCanonical(Decimal(Number(amountMinor), MinorDigits(currency)));
      ScaledMinor(Number(amountMinor), currency);
    }
  }
}
