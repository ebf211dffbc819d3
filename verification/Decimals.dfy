/** Exact decimal strings: the parser, the printer and the arithmetic over them. */
module Decimals {
  datatype Decimal = Decimal(coefficient: int, scale: nat)

  // ---- Digit strings -----------------------------------------------------------

  predicate IsDigit(c: char) { '0' <= c <= '9' }

  predicate AllDigits(s: string)
  {
    forall i :: 0 <= i < |s| ==> IsDigit(s[i])
  }

  function DigitOf(n: nat): char
    requires n < 10
  {
    ['0', '1', '2', '3', '4', '5', '6', '7', '8', '9'][n]
  }

  function ValueOf(c: char): (n: nat)
    requires IsDigit(c)
  {
    c as int - '0' as int
  }

  /** The decimal digits of a number, without leading zeros. */
  function Digits(n: nat): string
  {
    if n < 10 then [DigitOf(n)] else Digits(n / 10) + [DigitOf(n % 10)]
  }

  function Number(s: string): nat
    requires AllDigits(s)
  {
    if s == "" then 0 else Number(s[..|s| - 1]) * 10 + ValueOf(s[|s| - 1])
  }

  function PowerOfTen(n: nat): nat
  {
    if n == 0 then 1 else 10 * PowerOfTen(n - 1)
  }

  function Zeros(n: nat): string
  {
    seq(n, _ => '0')
  }

  function PadStart(s: string, length: nat): string
  {
    if |s| < length then Zeros(length - |s|) + s else s
  }

  /** Removes the trailing zeros. */
  function StripZeros(s: string): string
  {
    if s != "" && s[|s| - 1] == '0' then StripZeros(s[..|s| - 1]) else s
  }

  // ---- Parsing and printing ------------------------------------------------------

  function IndexOfPoint(s: string): (i: nat)
    ensures i <= |s|
    ensures i < |s| ==> s[i] == '.'
    ensures forall j :: 0 <= j < i ==> s[j] != '.'
  {
    if s == "" || s[0] == '.' then 0 else 1 + IndexOfPoint(s[1..])
  }

  /** A whole part without leading zeros and an optional fraction. */
  predicate IsUnsigned(s: string)
  {
    var point := IndexOfPoint(s);
    && point > 0 && AllDigits(s[..point]) && (s[0] == '0' ==> point == 1)
    && (point < |s| ==> point + 1 < |s| && AllDigits(s[point + 1..]))
  }

  function WholePart(s: string): string
  {
    s[..IndexOfPoint(s)]
  }

  function FractionPart(s: string): string
  {
    var point := IndexOfPoint(s);
    if point < |s| then s[point + 1..] else ""
  }

  predicate IsNegative(s: string)
  {
    s != "" && s[0] == '-'
  }

  function Unsigned(s: string): string
  {
    if IsNegative(s) then s[1..] else s
  }

  predicate IsDecimal(s: string)
  {
    IsUnsigned(Unsigned(s))
  }

  function Parsed(s: string): Decimal
    requires IsDecimal(s)
  {
    var whole, fraction := WholePart(Unsigned(s)), FractionPart(Unsigned(s));
    var coefficient: int := Number(whole + fraction);
    Decimal(if IsNegative(s) then -coefficient else coefficient, |fraction|)
  }

  function Abs(n: int): nat
  {
    if n < 0 then -n else n
  }

  /** The digits of n, padded so that at least one stands before the last `scale`. */
  function Padded(n: nat, scale: nat): (s: string)
    ensures |s| > scale
  {
    PadStart(Digits(n), scale + 1)
  }

  function PrintUnsigned(n: nat, scale: nat): string
  {
    if scale == 0 then Digits(n) else
    var padded := Padded(n, scale);
    var whole := padded[..|padded| - scale];
    var fraction := StripZeros(padded[|padded| - scale..]);
    whole + (if fraction != "" then "." + fraction else "")
  }

  function Print(d: Decimal): string
  {
    if d.coefficient == 0 then "0"
    else (if d.coefficient < 0 then "-" else "") + PrintUnsigned(Abs(d.coefficient), d.scale)
  }

  // ---- Values ----------------------------------------------------------------------

  /** coefficient / 10^scale, divided one digit at a time. */
  ghost function Scaled(coefficient: int, scale: nat): real
  {
    if scale == 0 then coefficient as real else Scaled(coefficient, scale - 1) / 10.0
  }

  ghost function Value(d: Decimal): real
  {
    Scaled(d.coefficient, d.scale)
  }

  lemma {:induction false} ScaledAdd(a: int, b: int, scale: nat)
    ensures Scaled(a + b, scale) == Scaled(a, scale) + Scaled(b, scale)
  {
    if scale > 0 { ScaledAdd(a, b, scale - 1); }
  }

  lemma {:induction false} ScaledTimes(a: int, n: nat, scale: nat)
    ensures Scaled(a * n, scale) == Scaled(a, scale) * n as real
  {
    if n == 0 {
      ScaledAdd(0, 0, scale);
    } else {
      ScaledTimes(a, n - 1, scale);
      ScaledAdd(a * (n - 1), a, scale);
      assert a * n == a * (n - 1) + a;
    }
  }

  lemma {:induction false} ScaledNegate(a: int, scale: nat)
    ensures Scaled(-a, scale) == -Scaled(a, scale)
  {
    if scale > 0 { ScaledNegate(a, scale - 1); }
  }

  /** Widening the scale by zeros keeps the value. */
  lemma {:induction false} Rescale(a: int, scale: nat, extra: nat)
    ensures Scaled(a * PowerOfTen(extra), scale + extra) == Scaled(a, scale)
  {
    if extra > 0 {
      Rescale(a, scale, extra - 1);
      var narrow := a * PowerOfTen(extra - 1);
      ScaledTimes(narrow, 10, scale + extra - 1);
      assert a * PowerOfTen(extra) == narrow * 10;
    }
  }

  lemma {:induction false} ScaledInjective(a: int, b: int, scale: nat)
    ensures Scaled(a, scale) == Scaled(b, scale) <==> a == b
    ensures Scaled(a, scale) < Scaled(b, scale) <==> a < b
  {
    if scale > 0 { ScaledInjective(a, b, scale - 1); }
  }

  // ---- The normal form --------------------------------------------------------------

  /** Drops trailing zeros of the fraction; zero is written without a fraction. */
  function Normal(d: Decimal): Decimal
    decreases d.scale
  {
    if d.coefficient == 0 then Decimal(0, 0)
    else if d.scale > 0 && d.coefficient % 10 == 0 then Normal(Decimal(d.coefficient / 10, d.scale - 1))
    else d
  }

  predicate IsNormal(d: Decimal)
  {
    if d.coefficient == 0 then d.scale == 0 else d.scale == 0 || d.coefficient % 10 != 0
  }

  lemma {:induction false} NormalKeepsValue(d: Decimal)
    ensures Value(Normal(d)) == Value(d) && IsNormal(Normal(d))
    decreases d.scale
  {
    if d.coefficient == 0 {
      ScaledTimes(0, 0, d.scale);
    } else if d.scale > 0 && d.coefficient % 10 == 0 {
      NormalKeepsValue(Decimal(d.coefficient / 10, d.scale - 1));
      Rescale(d.coefficient / 10, d.scale - 1, 1);
    }
  }

  /** A value has one normal form. */
  lemma NormalUnique(a: Decimal, b: Decimal)
    requires IsNormal(a) && IsNormal(b) && Value(a) == Value(b)
    ensures a == b
  {
    if a.scale < b.scale {
      WiderNotNormal(a, b);
    } else if b.scale < a.scale {
      WiderNotNormal(b, a);
    } else {
      ScaledInjective(a.coefficient, b.coefficient, a.scale);
    }
  }

  lemma WiderNotNormal(a: Decimal, b: Decimal)
    requires a.scale < b.scale && Value(a) == Value(b)
    ensures !IsNormal(b)
  {
    var extra := b.scale - a.scale;
    Rescale(a.coefficient, a.scale, extra);
    ScaledInjective(a.coefficient * PowerOfTen(extra), b.coefficient, b.scale);
    assert b.coefficient == 10 * (a.coefficient * PowerOfTen(extra - 1));
  }

  // ---- Printing ---------------------------------------------------------------------

  lemma {:induction false} DigitsAreCanonical(n: nat)
    ensures AllDigits(Digits(n)) && Number(Digits(n)) == n
    ensures Digits(n)[0] == '0' ==> n == 0
  {
    if n >= 10 {
      DigitsAreCanonical(n / 10);
      assert Digits(n)[..|Digits(n)| - 1] == Digits(n / 10);
    } else {
      assert Digits(n)[..0] == "";
    }
  }

  lemma {:induction false} NumberPadded(n: nat, s: string)
    requires AllDigits(s)
    ensures AllDigits(Zeros(n) + s) && Number(Zeros(n) + s) == Number(s)
  {
    var padded := Zeros(n) + s;
    if s == "" {
      if n > 0 {
        assert padded[..|padded| - 1] == Zeros(n - 1) + s;
        NumberPadded(n - 1, s);
      }
    } else {
      assert padded[..|padded| - 1] == Zeros(n) + s[..|s| - 1];
      NumberPadded(n, s[..|s| - 1]);
    }
  }

  lemma PaddedDropsZero(n: nat, scale: nat)
    requires n > 0 && n % 10 == 0 && scale > 0
    ensures Padded(n, scale) == Padded(n / 10, scale - 1) + "0"
  {
    assert Digits(n) == Digits(n / 10) + "0";
    if |Digits(n)| <= scale {
      assert Zeros(scale + 1 - |Digits(n)|) + (Digits(n / 10) + "0")
          == Zeros(scale - |Digits(n / 10)|) + Digits(n / 10) + "0";
    }
  }

  lemma NothingLeft()
    ensures StripZeros("") == ""
  {}

  /** A trailing zero of the coefficient is never printed in the fraction. */
  lemma PrintDropsZero(n: nat, scale: nat)
    requires n > 0 && n % 10 == 0 && scale > 0
    ensures PrintUnsigned(n, scale) == PrintUnsigned(n / 10, scale - 1)
  {
    hide Padded, StripZeros, Digits;
    PaddedDropsZero(n, scale);
    var short := Padded(n / 10, scale - 1);
    SplitDropsZero(short, scale);
    if scale == 1 {
      PaddedWhole(n / 10);
      NothingLeft();
    }
  }

  lemma SplitDropsZero(short: string, scale: nat)
    requires 0 < scale <= |short|
    ensures var split := |short| + 1 - scale;
      (short + "0")[..split] == short[..split]
      && StripZeros((short + "0")[split..]) == StripZeros(short[split..])
      && (scale == 1 ==> short[..split] == short && short[split..] == "")
  {
    var split := |short| + 1 - scale;
    var fraction := short[split..];
    assert (short + "0")[split..] == fraction + "0";
    assert (fraction + "0")[..|fraction|] == fraction;
  }

  lemma {:induction false} PrintNormal(d: Decimal)
    ensures Print(d) == Print(Normal(d))
    decreases d.scale
  {
    hide PrintUnsigned;
    if d.coefficient != 0 && d.scale > 0 && d.coefficient % 10 == 0 {
      assert Abs(d.coefficient / 10) == Abs(d.coefficient) / 10;
      PrintDropsZero(Abs(d.coefficient), d.scale);
      PrintNormal(Decimal(d.coefficient / 10, d.scale - 1));
    }
  }

  lemma {:induction false} PointAt(whole: string, rest: string)
    requires forall i :: 0 <= i < |whole| ==> whole[i] != '.'
    requires rest == "" || rest[0] == '.'
    ensures IndexOfPoint(whole + rest) == |whole|
  {
    if whole == "" {
      assert whole + rest == rest;
    } else {
      assert (whole + rest)[1..] == whole[1..] + rest;
      PointAt(whole[1..], rest);
    }
  }

  /** How a string of digits is cut by its point. */
  lemma CutAtPoint(whole: string, fraction: string)
    requires whole != "" && AllDigits(whole) && AllDigits(fraction) && (whole[0] == '0' ==> |whole| == 1)
    ensures var s := whole + (if fraction != "" then "." + fraction else "");
      IsUnsigned(s) && WholePart(s) == whole && FractionPart(s) == fraction && !IsNegative(s)
  {
    PointAt(whole, if fraction != "" then "." + fraction else "");
    var s := whole + (if fraction != "" then "." + fraction else "");
    assert s[..|whole|] == whole;
    if fraction != "" {
      assert s[|whole| + 1..] == fraction;
    }
  }

  lemma PaddedParts(n: nat, scale: nat)
    ensures AllDigits(Padded(n, scale)) && Number(Padded(n, scale)) == n
    ensures var whole := Padded(n, scale)[..|Padded(n, scale)| - scale];
      whole[0] == '0' ==> |whole| == 1
  {
    DigitsAreCanonical(n);
    var digits := Digits(n);
    if |digits| < scale + 1 {
      NumberPadded(scale + 1 - |digits|, digits);
    }
  }

  lemma PaddedWhole(n: nat)
    ensures Padded(n, 0) == Digits(n)
  {
    DigitsAreCanonical(n);
  }

  /** A number that is no multiple of ten ends in no zero. */
  lemma NothingStripped(padded: string, split: nat)
    requires AllDigits(padded) && split < |padded| && Number(padded) % 10 != 0
    ensures StripZeros(padded[split..]) == padded[split..]
  {
    assert padded[split..][|padded[split..]| - 1] == padded[|padded| - 1];
  }

  lemma PrintParses(n: nat, scale: nat)
    requires scale == 0 || n % 10 != 0
    ensures var s := PrintUnsigned(n, scale);
      IsUnsigned(s) && !IsNegative(s) && |FractionPart(s)| == scale
      && Number(WholePart(s) + FractionPart(s)) == n
  {
    hide Number, Digits, Padded, StripZeros, IsUnsigned, WholePart, FractionPart, IsNegative;
    var padded := Padded(n, scale);
    PaddedParts(n, scale);
    var split := |padded| - scale;
    var whole, fraction := padded[..split], padded[split..];
    assert whole + fraction == padded;
    CutAtPoint(whole, fraction);
    if scale == 0 {
      PaddedWhole(n);
      assert whole == Digits(n) && fraction == "";
    } else {
      NothingStripped(padded, split);
    }
  }

  /** The printed form of a normal decimal parses back to it. */
  lemma ParseNormal(d: Decimal)
    requires IsNormal(d)
    ensures IsDecimal(Print(d)) && Parsed(Print(d)) == d
  {
    PrintParses(Abs(d.coefficient), d.scale);
    if d.coefficient < 0 {
      assert Print(d)[1..] == PrintUnsigned(Abs(d.coefficient), d.scale);
    } else {
      assert Print(d) == PrintUnsigned(Abs(d.coefficient), d.scale);
    }
  }

  // ---- The laws of the printer ---------------------------------------------------------

  /** Printing any coefficient and scale yields an accepted string for the same value. */
  lemma RoundTrip(d: Decimal)
    ensures IsDecimal(Print(d)) && Parsed(Print(d)) == Normal(d)
    ensures Value(Parsed(Print(d))) == Value(d)
  {
    NormalKeepsValue(d);
    PrintNormal(d);
    ParseNormal(Normal(d));
  }

  /** Two decimals print alike exactly when they have the same value. */
  lemma PrintDecides(a: Decimal, b: Decimal)
    ensures Print(a) == Print(b) <==> Value(a) == Value(b)
  {
    RoundTrip(a);
    RoundTrip(b);
    if Value(a) == Value(b) {
      NormalKeepsValue(a);
      NormalKeepsValue(b);
      NormalUnique(Normal(a), Normal(b));
      PrintNormal(a);
      PrintNormal(b);
    }
  }

  /** What is printed has no trailing fraction zero and no negative zero. */
  lemma PrintIsCanonical(d: Decimal)
    ensures Print(d) != "-0"
    ensures var fraction := FractionPart(Unsigned(Print(d))); fraction == "" || fraction[|fraction| - 1] != '0'
  {
    NormalKeepsValue(d);
    RoundTrip(d);
    PrintNormal(d);
    NegativeZero();
    LastFractionDigit(Print(d));
  }

  lemma NegativeZero()
    ensures IsDecimal("-0") && Parsed("-0") == Decimal(0, 0) && Print(Decimal(0, 0)) == "0"
  {
    CutAtPoint("0", "");
    assert Number("0") == 0;
    assert "0" + "" == "0";
  }

  lemma LastFractionDigit(s: string)
    requires IsDecimal(s) && IsNormal(Parsed(s))
    ensures var fraction := FractionPart(Unsigned(s)); fraction == "" || fraction[|fraction| - 1] != '0'
  {
    var whole, fraction := WholePart(Unsigned(s)), FractionPart(Unsigned(s));
    if fraction != "" {
      var all := whole + fraction;
      assert all[|all| - 1] == fraction[|fraction| - 1];
      assert Number(all) == Number(all[..|all| - 1]) * 10 + ValueOf(all[|all| - 1]);
    }
  }

  // ---- What is a decimal, spelled out -----------------------------------------------------

  /** An optional sign, a whole part without leading zeros, and an optional fraction. */
  ghost predicate Spells(s: string, negative: bool, whole: string, fraction: string)
  {
    && whole != "" && (forall i :: 0 <= i < |whole| ==> '0' <= whole[i] <= '9') && (whole[0] == '0' ==> |whole| == 1)
    && (forall i :: 0 <= i < |fraction| ==> '0' <= fraction[i] <= '9')
    && s == (if negative then "-" else "") + (whole + (if fraction == "" then "" else "." + fraction))
  }

  /** Exactly the strings so spelled are decimals, and they are read digit by digit. */
  lemma DecimalsAreSpelled(s: string)
    ensures IsDecimal(s) <==> exists negative, whole, fraction :: Spells(s, negative, whole, fraction)
    ensures forall negative, whole, fraction :: Spells(s, negative, whole, fraction) ==>
      && IsDecimal(s) && AllDigits(whole + fraction) && Parsed(s).scale == |fraction|
      && Parsed(s).coefficient == if negative then -(Number(whole + fraction) as int) else Number(whole + fraction)
  {
    forall negative, whole, fraction | Spells(s, negative, whole, fraction)
      ensures IsDecimal(s) && AllDigits(whole + fraction) && Parsed(s).scale == |fraction|
      ensures Parsed(s).coefficient == if negative then -(Number(whole + fraction) as int) else Number(whole + fraction)
    {
      SpelledParts(s, negative, whole, fraction);
    }
    if IsDecimal(s) {
      var unsigned := Unsigned(s);
      assert Spells(s, IsNegative(s), WholePart(unsigned), FractionPart(unsigned));
    }
  }

  lemma SpelledParts(s: string, negative: bool, whole: string, fraction: string)
    requires Spells(s, negative, whole, fraction)
    ensures IsDecimal(s) && IsNegative(s) == negative
    ensures WholePart(Unsigned(s)) == whole && FractionPart(Unsigned(s)) == fraction
  {
    hide IsUnsigned, WholePart, FractionPart;
    var unsigned := whole + (if fraction == "" then "" else "." + fraction);
    CutAtPoint(whole, fraction);
    assert unsigned == whole + (if fraction != "" then "." + fraction else "");
    SignedParts(s, negative, unsigned);
  }

  lemma SignedParts(s: string, negative: bool, unsigned: string)
    requires !IsNegative(unsigned) && s == (if negative then "-" else "") + unsigned
    ensures IsNegative(s) == negative && Unsigned(s) == unsigned
  {
    if negative {
      assert s[1..] == unsigned;
    } else {
      assert s == unsigned;
    }
  }

  lemma {:induction false} NumberReads(s: string, c: char)
    requires forall i :: 0 <= i < |s| ==> '0' <= s[i] <= '9'
    requires '0' <= c <= '9'
    ensures AllDigits(s) && AllDigits(s + [c]) && Number(s + [c]) == 10 * Number(s) + (c as int - '0' as int)
    ensures Number("") == 0
  {
    assert (s + [c])[..|s|] == s;
  }
}
