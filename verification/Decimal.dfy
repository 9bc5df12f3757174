/**
  Exact decimal strings: reading, normalising, aligning, comparing, adding, multiplying and
  testing divisibility without floating point. Every function here works on digits and natural
  numbers, as the source does with BigInt; the lemmas say what it means over the rationals.
 */
module Decimal {
  import opened Wrappers
  import opened Text
  import opened Arithmetic

  // ---------- digit strings and powers of ten ----------

  predicate IsDigit(c: char) {
    '0' <= c <= '9'
  }

  predicate AllDigits(s: string) {
    forall i :: 0 <= i < |s| ==> IsDigit(s[i])
  }

  function Digit(c: char): nat
    requires IsDigit(c)
  {
    (c - '0') as nat
  }

  function Pow10(n: nat): (p: nat)
    ensures p > 0
  {
    if n == 0 then 1 else 10 * Pow10(n - 1)
  }

  /** The number that a digit string spells. */
  function Nat(s: string): nat
    requires AllDigits(s)
  {
    if s == [] then 0 else 10 * Nat(s[..|s| - 1]) + Digit(s[|s| - 1])
  }

  /** The JavaScript `String(n)` of a non-negative BigInt. */
  function NatToString(n: nat): (s: string)
    ensures s != [] && AllDigits(s)
    ensures Nat(s) == n
    ensures |s| == 1 || s[0] != '0'
  {
    if n < 10 then
      ['0' + n as char]
    else
      var front := NatToString(n / 10);
      assert (front + ['0' + (n % 10) as char])[..|front|] == front;
      front + ['0' + (n % 10) as char]
  }

  lemma {:induction false} Pow10Adds(a: nat, b: nat)
    ensures Pow10(a + b) == Pow10(a) * Pow10(b)
  {
    if a > 0 {
      Pow10Adds(a - 1, b);
      DistributeTen(Pow10(b), Pow10(a - 1), 0);
    }
  }

  lemma {:induction false} NatOfConcat(a: string, b: string)
    requires AllDigits(a) && AllDigits(b)
    ensures AllDigits(a + b) && Nat(a + b) == Shift(Nat(a), |b|) + Nat(b)
  {
    if b == [] {
      assert a + b == a;
    } else {
      var front := b[..|b| - 1];
      assert (a + b)[..|a + b| - 1] == a + front;
      NatOfConcat(a, front);
    }
  }

  lemma {:induction false} NatBelowPow10(s: string)
    requires AllDigits(s)
    ensures Nat(s) < Pow10(|s|)
  {
    if s != [] {
      NatBelowPow10(s[..|s| - 1]);
    }
  }

  /** Digit strings of one length that spell the same number are the same string. */
  lemma {:induction false} NatInjective(a: string, b: string)
    requires AllDigits(a) && AllDigits(b) && |a| == |b| && Nat(a) == Nat(b)
    ensures a == b
  {
    if a != [] {
      var n := |a| - 1;
      assert a[n] == b[n];
      NatInjective(a[..n], b[..n]);
      assert a == a[..n] + [a[n]] && b == b[..n] + [b[n]];
    }
  }

  /** No superfluous leading zero. */
  predicate CanonicalInt(s: string) {
    s != [] && AllDigits(s) && (|s| == 1 || s[0] != '0')
  }

  lemma {:induction false} LeadingDigitBound(s: string)
    requires s != [] && AllDigits(s) && s[0] != '0'
    ensures Pow10(|s| - 1) <= Nat(s)
  {
    if |s| > 1 {
      LeadingDigitBound(s[..|s| - 1]);
    }
  }

  lemma {:induction false} Pow10Monotone(a: nat, b: nat)
    requires a <= b
    ensures Pow10(a) <= Pow10(b)
  {
    Pow10Adds(a, b - a);
  }

  /** Of two canonical digit strings, the longer one spells the greater number. */
  lemma LongerIsGreater(a: string, b: string)
    requires CanonicalInt(a) && CanonicalInt(b) && |a| < |b|
    ensures Nat(a) < Nat(b)
  {
    NatBelowPow10(a);
    LeadingDigitBound(b);
    Pow10Monotone(|a|, |b| - 1);
  }

  lemma CanonicalIntInjective(a: string, b: string)
    requires CanonicalInt(a) && CanonicalInt(b) && Nat(a) == Nat(b)
    ensures a == b
  {
    if |a| < |b| {
      LongerIsGreater(a, b);
    } else if |b| < |a| {
      LongerIsGreater(b, a);
    } else {
      NatInjective(a, b);
    }
  }

  // ---------- plain decimal strings and what they denote ----------

  /** Position of the first dot, or the length when there is none. */
  function DotAt(s: string): (n: nat)
    ensures n <= |s|
    ensures forall i :: 0 <= i < n ==> s[i] != '.'
    ensures n < |s| ==> s[n] == '.'
  {
    if s == [] || s[0] == '.' then 0 else 1 + DotAt(s[1..])
  }

  function IntPart(s: string): string {
    s[..DotAt(s)]
  }

  function FracPart(s: string): string {
    if DotAt(s) < |s| then s[DotAt(s) + 1..] else ""
  }

  /** The pattern of digits with an optional dot and more digits. */
  predicate Plain(s: string) {
    IntPart(s) != [] && AllDigits(IntPart(s)) && AllDigits(FracPart(s)) &&
    (DotAt(s) < |s| ==> FracPart(s) != [])
  }

  /** v times ten to the given power. */
  function Shift(v: nat, power: nat): nat {
    if power == 0 then v else 10 * Shift(v, power - 1)
  }

  /** v divided by ten to the given power. */
  function Fraction(v: nat, scale: nat): real {
    if scale == 0 then v as real else Fraction(v, scale - 1) / 10.0
  }

  /** The rational number that a plain decimal string denotes. */
  function Value(s: string): real
    requires Plain(s)
  {
    Nat(IntPart(s)) as real + Fraction(Nat(FracPart(s)), |FracPart(s)|)
  }

  /** The one spelling of its value: no superfluous zero at either end. */
  predicate Canonical(s: string) {
    Plain(s) && CanonicalInt(IntPart(s)) && (DotAt(s) < |s| ==> s[|s| - 1] != '0')
  }

  function Join(intPart: string, fracPart: string): string {
    if fracPart == [] then intPart else intPart + "." + fracPart
  }

  lemma JoinSplits(intPart: string, fracPart: string)
    requires intPart != [] && AllDigits(intPart) && AllDigits(fracPart)
    ensures Plain(Join(intPart, fracPart))
    ensures IntPart(Join(intPart, fracPart)) == intPart
    ensures FracPart(Join(intPart, fracPart)) == fracPart
  {
    var s := Join(intPart, fracPart);
    var n := DotAt(s);
    assert forall i :: 0 <= i < |intPart| ==> s[i] == intPart[i];
    if fracPart != [] {
      assert s[|intPart|] == '.';
    }
  }

  // ---------- arithmetic of fractions ----------

  lemma {:induction false} ShiftIsProduct(v: nat, power: nat)
    ensures Shift(v, power) == v * Pow10(power)
  {
    if power > 0 {
      ShiftIsProduct(v, power - 1);
      DistributeTen(v, Pow10(power - 1), 0);
    }
  }

  lemma {:induction false} ShiftOfZero(power: nat)
    ensures Shift(0, power) == 0
  {
    if power > 0 {
      ShiftOfZero(power - 1);
    }
  }

  lemma {:induction false} FractionIsQuotient(v: nat, scale: nat)
    ensures Fraction(v, scale) == v as real / Pow10(scale) as real
  {
    if scale > 0 {
      FractionIsQuotient(v, scale - 1);
      CancelFactor(v as real / 10.0, Pow10(scale - 1) as real, 10.0);
    }
  }

  lemma {:induction false} TenOverTen(v: nat, scale: nat)
    ensures Fraction(10 * v, scale + 1) == Fraction(v, scale)
  {
    if scale > 0 {
      TenOverTen(v, scale - 1);
    }
  }

  lemma {:induction false} ScaleUp(v: nat, scale: nat, extra: nat)
    ensures Fraction(Shift(v, extra), scale + extra) == Fraction(v, scale)
  {
    if extra > 0 {
      ScaleUp(v, scale, extra - 1);
      TenOverTen(Shift(v, extra - 1), scale + extra - 1);
    }
  }

  lemma {:induction false} SameScaleOrder(a: nat, b: nat, scale: nat)
    ensures Fraction(a, scale) < Fraction(b, scale) <==> a < b
    ensures Fraction(a, scale) == Fraction(b, scale) <==> a == b
  {
    if scale > 0 {
      SameScaleOrder(a, b, scale - 1);
    }
  }

  lemma {:induction false} SameScaleSum(a: nat, b: nat, scale: nat)
    ensures Fraction(a + b, scale) == Fraction(a, scale) + Fraction(b, scale)
  {
    if scale > 0 {
      SameScaleSum(a, b, scale - 1);
    }
  }

  lemma FractionSplits(i: nat, f: nat, scale: nat)
    ensures Fraction(Shift(i, scale) + f, scale) == i as real + Fraction(f, scale)
  {
    SameScaleSum(Shift(i, scale), f, scale);
    ScaleUp(i, 0, scale);
  }

  lemma ValueIsFraction(s: string)
    requires Plain(s)
    ensures AllDigits(IntPart(s) + FracPart(s))
    ensures Value(s) == Fraction(Nat(IntPart(s) + FracPart(s)), |FracPart(s)|)
  {
    NatOfConcat(IntPart(s), FracPart(s));
    FractionSplits(Nat(IntPart(s)), Nat(FracPart(s)), |FracPart(s)|);
  }

  // ---------- normalising ----------

  /** Drops leading zeros that another digit follows. */
  function StripLeadingZeros(s: string): (r: string)
    requires AllDigits(s)
    ensures AllDigits(r) && Nat(r) == Nat(s)
    ensures s != [] ==> CanonicalInt(r)
  {
    if |s| >= 2 && s[0] == '0' then
      NatOfConcat(s[..1], s[1..]);
      ShiftOfZero(|s| - 1);
      assert s == s[..1] + s[1..];
      StripLeadingZeros(s[1..])
    else s
  }

  function StripTrailingZeros(s: string): (r: string)
    requires AllDigits(s)
    ensures AllDigits(r) && r <= s
    ensures r == [] || r[|r| - 1] != '0'
  {
    if s != [] && s[|s| - 1] == '0' then StripTrailingZeros(s[..|s| - 1]) else s
  }

  lemma {:induction false} StripTrailingKeepsFraction(s: string)
    requires AllDigits(s)
    ensures Fraction(Nat(StripTrailingZeros(s)), |StripTrailingZeros(s)|) == Fraction(Nat(s), |s|)
  {
    if s != [] && s[|s| - 1] == '0' {
      var front := s[..|s| - 1];
      StripTrailingKeepsFraction(front);
      assert Pow10(1) == 10;
      ScaleUp(Nat(front), |front|, 1);
    }
  }

  function NormalizeDecimalString(s: string): string
    requires Plain(s)
  {
    Join(StripLeadingZeros(IntPart(s)), StripTrailingZeros(FracPart(s)))
  }

  lemma NormalizeMeans(s: string)
    requires Plain(s)
    ensures Canonical(NormalizeDecimalString(s))
    ensures Value(NormalizeDecimalString(s)) == Value(s)
  {
    var i, f := StripLeadingZeros(IntPart(s)), StripTrailingZeros(FracPart(s));
    JoinSplits(i, f);
    StripTrailingKeepsFraction(FracPart(s));
  }

  /** Two canonical strings of the same value are the same string. */
  lemma CanonicalUnique(a: string, b: string)
    requires Canonical(a) && Canonical(b) && Value(a) == Value(b)
    ensures a == b
  {
    if |FracPart(a)| <= |FracPart(b)| {
      CanonicalUniqueOrdered(a, b);
    } else {
      CanonicalUniqueOrdered(b, a);
    }
  }

  lemma CanonicalUniqueOrdered(a: string, b: string)
    requires Canonical(a) && Canonical(b) && Value(a) == Value(b)
    requires |FracPart(a)| <= |FracPart(b)|
    ensures a == b
  {
    SameScaleWhenCanonical(a, b);
    var (ia, fa) := (IntPart(a), FracPart(a));
    var (ib, fb) := (IntPart(b), FracPart(b));
    NatOfConcat(ia, fa);
    NatOfConcat(ib, fb);
    NatBelowPow10(fa);
    NatBelowPow10(fb);
    ShiftIsProduct(Nat(ia), |fa|);
    ShiftIsProduct(Nat(ib), |fa|);
    QuotientsAgree(Nat(ia), Nat(fa), Nat(ib), Nat(fb), Pow10(|fa|));
    CanonicalIntInjective(ia, ib);
    NatInjective(fa, fb);
    SplitRejoins(a);
    SplitRejoins(b);
  }

  lemma SameScaleWhenCanonical(a: string, b: string)
    requires Canonical(a) && Canonical(b) && Value(a) == Value(b)
    requires |FracPart(a)| <= |FracPart(b)|
    ensures |FracPart(a)| == |FracPart(b)|
    ensures AllDigits(IntPart(a) + FracPart(a)) && AllDigits(IntPart(b) + FracPart(b))
    ensures Nat(IntPart(a) + FracPart(a)) == Nat(IntPart(b) + FracPart(b))
  {
    var (da, fa) := (IntPart(a) + FracPart(a), FracPart(a));
    var (db, fb) := (IntPart(b) + FracPart(b), FracPart(b));
    ValueIsFraction(a);
    ValueIsFraction(b);
    var extra := |fb| - |fa|;
    ScaleUp(Nat(da), |fa|, extra);
    SameScaleOrder(Shift(Nat(da), extra), Nat(db), |fb|);
  }

  lemma SplitRejoins(s: string)
    requires Plain(s)
    ensures Join(IntPart(s), FracPart(s)) == s
  {
  }

  // ---------- reading an input ----------

  /**
    A possibly absent input, trimmed; absent when it is not a plain decimal, otherwise its
    normal form (`optionalPositiveOrZeroDecimalString`).
   */
  function NonNegativeDecimal(value: Option<string>): Option<string> {
    if value.None? then None
    else
      var trimmed := Trim(value.value);
      if Plain(trimmed) then Some(NormalizeDecimalString(trimmed)) else None
  }

  /** What an input denotes: absent for everything that is not a plain decimal. */
  function Meaning(value: Option<string>): Option<real> {
    if value.Some? && Plain(Trim(value.value)) then Some(Value(Trim(value.value))) else None
  }

  lemma CanonicalIsTrimmed(s: string)
    requires Plain(s)
    ensures Trim(s) == s
  {
    assert IsDigit(s[0]) by { assert s[0] == IntPart(s)[0]; }
    assert IsDigit(s[|s| - 1]) by {
      if DotAt(s) < |s| {
        assert s[|s| - 1] == FracPart(s)[|FracPart(s)| - 1];
      } else {
        assert s == IntPart(s);
      }
    }
    TrimIsProjection(s);
  }

  /** Reading keeps the value, yields a canonical string, and reads its own result back unchanged. */
  lemma ReadingMeans(value: Option<string>)
    ensures NonNegativeDecimal(value).Some? <==> Meaning(value).Some?
    ensures NonNegativeDecimal(value).Some? ==>
              var d := NonNegativeDecimal(value).value;
              Canonical(d) && Value(d) == Meaning(value).value && NonNegativeDecimal(Some(d)) == Some(d)
  {
    if NonNegativeDecimal(value).Some? {
      var t := Trim(value.value);
      NormalizeMeans(t);
      var d := NormalizeDecimalString(t);
      CanonicalIsTrimmed(d);
      NormalizeMeans(d);
      CanonicalUnique(NormalizeDecimalString(d), d);
    }
  }

  /** Two spellings of one number are read as the same string. */
  lemma RespellingReadsAlike(a: Option<string>, b: Option<string>)
    requires Meaning(a) == Meaning(b)
    ensures NonNegativeDecimal(a) == NonNegativeDecimal(b)
  {
    ReadingMeans(a);
    ReadingMeans(b);
    if Meaning(a).Some? {
      CanonicalUnique(NonNegativeDecimal(a).value, NonNegativeDecimal(b).value);
    }
  }

  // ---------- scaled integers ----------

  datatype Scaled = Scaled(value: nat, scale: nat)

  function ParseDecimal(value: string): Result<Scaled> {
    match NonNegativeDecimal(Some(value))
    case None => Err("Invalid decimal: " + value)
    case Some(normalized) =>
      ReadingMeans(Some(value));
      NatOfConcat(IntPart(normalized), FracPart(normalized));
      Ok(Scaled(Nat(IntPart(normalized) + FracPart(normalized)), |FracPart(normalized)|))
  }

  /** Parsing succeeds exactly on plain decimals and yields the denoted number. */
  lemma ParseMeans(value: string)
    ensures ParseDecimal(value).Ok? <==> Meaning(Some(value)).Some?
    ensures ParseDecimal(value).Ok? ==>
              var d := ParseDecimal(value).value;
              Fraction(d.value, d.scale) == Meaning(Some(value)).value
  {
    ReadingMeans(Some(value));
    if ParseDecimal(value).Ok? {
      ValueIsFraction(NonNegativeDecimal(Some(value)).value);
    }
  }

  function PadStart(s: string, width: nat): (r: string)
    ensures |r| == if |s| < width then width else |s|
    decreases width - |s|
  {
    if |s| < width then PadStart("0" + s, width) else s
  }

  lemma {:induction false} PadStartMeans(s: string, width: nat)
    requires AllDigits(s)
    ensures AllDigits(PadStart(s, width)) && Nat(PadStart(s, width)) == Nat(s)
    decreases width - |s|
  {
    if |s| < width {
      NatOfConcat("0", s);
      ShiftOfZero(|s|);
      PadStartMeans("0" + s, width);
    }
  }

  /** The string of value / 10^scale (`formatScaledDecimal`). */
  function FormatScaledDecimal(value: int, scale: nat): string {
    var sign := if value < 0 then "-" else "";
    var digits := PadStart(NatToString(if value < 0 then -value else value), scale + 1);
    PadStartMeans(NatToString(if value < 0 then -value else value), scale + 1);
    if scale == 0 then sign + digits
    else sign + Join(digits[..|digits| - scale], StripTrailingZeros(digits[|digits| - scale..]))
  }

  /** Padding to more than the scale leaves a canonical integer part before the decimals. */
  lemma PaddedDigits(value: nat, scale: nat)
    ensures var digits := PadStart(NatToString(value), scale + 1);
            AllDigits(digits) && Nat(digits) == value && CanonicalInt(digits[..|digits| - scale])
  {
    hide Nat;
    var raw := NatToString(value);
    PadStartMeans(raw, scale + 1);
    if |raw| >= scale + 1 {
      assert PadStart(raw, scale + 1) == raw;
    }
  }

  lemma {:induction false} ValueOfJoin(i: string, f: string)
    requires CanonicalInt(i) && AllDigits(f) && (f == [] || f[|f| - 1] != '0')
    ensures Canonical(Join(i, f)) && Plain(Join(i, f))
    ensures Value(Join(i, f)) == Nat(i) as real + Fraction(Nat(f), |f|)
  {
    hide Nat, Fraction;
    JoinSplits(i, f);
  }

  lemma {:induction false} DigitsMean(i: string, f: string)
    requires CanonicalInt(i) && AllDigits(f)
    ensures var s := Join(i, StripTrailingZeros(f));
            AllDigits(i + f) && Plain(s) && Canonical(s) && Value(s) == Fraction(Nat(i + f), |f|)
  {
    hide Canonical, Plain, Join, StripTrailingZeros, Nat, Fraction, Value, Shift;
    ValueOfJoin(i, StripTrailingZeros(f));
    NatOfConcat(i, f);
    StripTrailingKeepsFraction(f);
    FractionSplits(Nat(i), Nat(f), |f|);
  }

  /** Formatting a non-negative number yields the canonical string of value / 10^scale. */
  lemma FormatMeans(value: nat, scale: nat)
    ensures var s := FormatScaledDecimal(value, scale);
            Plain(s) && Canonical(s) && Value(s) == Fraction(value, scale)
  {
    hide Canonical, Plain, Value, Fraction, NatToString, PadStart, Nat, StripTrailingZeros, CanonicalInt;
    PaddedDigits(value, scale);
    var digits := PadStart(NatToString(value), scale + 1);
    var i, f := digits[..|digits| - scale], digits[|digits| - scale..];
    assert digits == i + f;
    DigitsMean(i, f);
    assert FormatScaledDecimal(value, scale) == Join(i, StripTrailingZeros(f)) by {
      if scale == 0 {
        assert digits == i;
      }
    }
  }

  /** Formatting and parsing back: the same number, with no more decimals than were asked for. */
  lemma {:induction false} FormatParseRoundTrip(value: nat, scale: nat)
    ensures ParseDecimal(FormatScaledDecimal(value, scale)).Ok?
    ensures var d := ParseDecimal(FormatScaledDecimal(value, scale)).value;
            Fraction(d.value, d.scale) == Fraction(value, scale)
  {
    FormatMeans(value, scale);
    var s := FormatScaledDecimal(value, scale);
    CanonicalIsTrimmed(s);
    ParseMeans(s);
  }

  /** Parsing and formatting back returns the canonical spelling of what was parsed. */
  lemma {:induction false} ParseFormatRoundTrip(value: string)
    requires ParseDecimal(value).Ok?
    ensures var d := ParseDecimal(value).value;
            Some(FormatScaledDecimal(d.value, d.scale)) == NonNegativeDecimal(Some(value))
  {
    var d := ParseDecimal(value).value;
    ParseMeans(value);
    ReadingMeans(Some(value));
    FormatMeans(d.value, d.scale);
    CanonicalUnique(FormatScaledDecimal(d.value, d.scale), NonNegativeDecimal(Some(value)).value);
  }

  // ---------- the operations ----------

  datatype Aligned = Aligned(left: nat, right: nat, scale: nat)

  function Max(a: nat, b: nat): (m: nat)
    ensures m >= a && m >= b
  {
    if a < b then b else a
  }

  function AlignDecimals(left: string, right: string): Result<Aligned> {
    var l :- ParseDecimal(left);
    var r :- ParseDecimal(right);
    var scale := Max(l.scale, r.scale);
    Ok(Aligned(Shift(l.value, scale - l.scale), Shift(r.value, scale - r.scale), scale))
  }

  function CompareDecimals(left: string, right: string): Result<int> {
    var a :- AlignDecimals(left, right);
    Ok(if a.left < a.right then -1 else if a.left > a.right then 1 else 0)
  }

  function AddDecimals(left: string, right: string): Result<string> {
    var a :- AlignDecimals(left, right);
    Ok(FormatScaledDecimal(a.left + a.right, a.scale))
  }

  function MultiplyDecimals(left: string, right: string): Result<string> {
    var l :- ParseDecimal(left);
    var r :- ParseDecimal(right);
    ProductIsNat(l.value, r.value);
    Ok(FormatScaledDecimal(l.value * r.value, l.scale + r.scale))
  }

  function IsDecimalMultiple(value: string, step: string): Result<bool> {
    var a :- AlignDecimals(value, step);
    Ok(a.right != 0 && a.left % a.right == 0)
  }

  function IsZeroDecimal(value: string): Result<bool> {
    var d :- ParseDecimal(value);
    Ok(d.value == 0)
  }

  lemma {:induction false} AlignMeans(left: string, right: string)
    ensures AlignDecimals(left, right).Ok? <==> Meaning(Some(left)).Some? && Meaning(Some(right)).Some?
    ensures AlignDecimals(left, right).Ok? ==>
              var a := AlignDecimals(left, right).value;
              Fraction(a.left, a.scale) == Meaning(Some(left)).value &&
              Fraction(a.right, a.scale) == Meaning(Some(right)).value
  {
    hide Meaning, ParseDecimal;
    ParseMeans(left);
    ParseMeans(right);
    if AlignDecimals(left, right).Ok? {
      var l, r := ParseDecimal(left).value, ParseDecimal(right).value;
      var scale := Max(l.scale, r.scale);
      ScaleUp(l.value, l.scale, scale - l.scale);
      ScaleUp(r.value, r.scale, scale - r.scale);
    }
  }

  /** Comparing is the order of the rationals; it throws exactly when an operand is no decimal. */
  lemma {:induction false} CompareMeans(left: string, right: string)
    ensures CompareDecimals(left, right).Ok? <==> Meaning(Some(left)).Some? && Meaning(Some(right)).Some?
    ensures CompareDecimals(left, right).Ok? ==>
              var c := CompareDecimals(left, right).value;
              var (x, y) := (Meaning(Some(left)).value, Meaning(Some(right)).value);
              (c == -1 <==> x < y) && (c == 0 <==> x == y) && (c == 1 <==> x > y)
  {
    AlignMeans(left, right);
    if CompareDecimals(left, right).Ok? {
      var a := AlignDecimals(left, right).value;
      SameScaleOrder(a.left, a.right, a.scale);
      SameScaleOrder(a.right, a.left, a.scale);
    }
  }

  /** Two operands compare as equal exactly when they have the same normal form. */
  lemma {:induction false} CompareEqualMeansSameSpelling(left: string, right: string)
    requires Meaning(Some(left)).Some? && Meaning(Some(right)).Some?
    ensures CompareDecimals(left, right) == Ok(0) <==>
            NonNegativeDecimal(Some(left)) == NonNegativeDecimal(Some(right))
  {
    CompareMeans(left, right);
    ReadingMeans(Some(left));
    ReadingMeans(Some(right));
    if CompareDecimals(left, right) == Ok(0) {
      RespellingReadsAlike(Some(left), Some(right));
    }
  }

  lemma {:induction false} AddMeans(left: string, right: string)
    ensures AddDecimals(left, right).Ok? <==> Meaning(Some(left)).Some? && Meaning(Some(right)).Some?
    ensures AddDecimals(left, right).Ok? ==>
              var s := AddDecimals(left, right).value;
              Canonical(s) && Value(s) == Meaning(Some(left)).value + Meaning(Some(right)).value
  {
    hide Meaning, AlignDecimals, FormatScaledDecimal, Canonical, Value, Fraction;
    AlignMeans(left, right);
    if AddDecimals(left, right).Ok? {
      var a := AlignDecimals(left, right).value;
      FormatMeans(a.left + a.right, a.scale);
      SameScaleSum(a.left, a.right, a.scale);
    }
  }

  lemma FractionStep(v: nat, scale: nat)
    ensures Fraction(v, 0) == v as real
    ensures Fraction(v, scale + 1) == Fraction(v, scale) / 10.0
  {
  }

  lemma {:induction false} ProductOfFractions(a: nat, i: nat, b: nat, j: nat)
    ensures a * b >= 0 && Fraction(a * b, i + j) == Fraction(a, i) * Fraction(b, j)
  {
    hide Fraction;
    ProductIsNat(a, b);
    if i > 0 {
      ProductOfFractions(a, i - 1, b, j);
      FractionStep(a, i - 1);
      FractionStep(a * b, i - 1 + j);
      TenthOfProduct(Fraction(a, i - 1), Fraction(b, j));
    } else if j > 0 {
      ProductOfFractions(a, 0, b, j - 1);
      FractionStep(b, j - 1);
      FractionStep(a * b, j - 1);
      TenthOfProduct(Fraction(b, j - 1), Fraction(a, 0));
    } else {
      FractionStep(a, 0);
      FractionStep(b, 0);
      FractionStep(a * b, 0);
      RealOfProduct(a, b);
    }
  }

  lemma {:induction false} MultiplyMeans(left: string, right: string)
    ensures MultiplyDecimals(left, right).Ok? <==> Meaning(Some(left)).Some? && Meaning(Some(right)).Some?
    ensures MultiplyDecimals(left, right).Ok? ==>
              var s := MultiplyDecimals(left, right).value;
              Canonical(s) && Value(s) == Meaning(Some(left)).value * Meaning(Some(right)).value
  {
    hide Meaning, ParseDecimal, FormatScaledDecimal, Canonical, Value, Fraction;
    ParseMeans(left);
    ParseMeans(right);
    if MultiplyDecimals(left, right).Ok? {
      var l, r := ParseDecimal(left).value, ParseDecimal(right).value;
      ProductOfFractions(l.value, l.scale, r.value, r.scale);
      FormatMeans(l.value * r.value, l.scale + r.scale);
    }
  }

  function Times(n: nat, x: real): real {
    n as real * x
  }

  /** x is a natural multiple of a step that is not zero. */
  ghost predicate MultipleOf(x: real, step: real) {
    step != 0.0 && exists n: nat :: x == Times(n, step)
  }

  lemma TimesFraction(n: nat, b: nat, scale: nat)
    ensures n * b >= 0 && Times(n, Fraction(b, scale)) == Fraction(n * b, scale)
  {
    ProductIsNat(n, b);
    assert Fraction(n, 0) == n as real;
    ProductOfFractions(n, 0, b, scale);
  }

  lemma MultipleAtScale(a: nat, b: nat, scale: nat)
    ensures MultipleOf(Fraction(a, scale), Fraction(b, scale)) <==> b != 0 && a % b == 0
  {
    hide Fraction, Times;
    FractionOfZero(scale);
    SameScaleOrder(b, 0, scale);
    if b != 0 && a % b == 0 {
      TimesFraction(a / b, b, scale);
    }
    if MultipleOf(Fraction(a, scale), Fraction(b, scale)) {
      var n: nat :| Fraction(a, scale) == Times(n, Fraction(b, scale));
      TimesFraction(n, b, scale);
      SameScaleOrder(a, n * b, scale);
      MultipleHasNoRemainder(n, b);
    }
  }

  lemma {:induction false} FractionOfZero(scale: nat)
    ensures Fraction(0, scale) == 0.0
  {
    if scale > 0 {
      FractionOfZero(scale - 1);
    }
  }

  lemma IsMultipleMeans(value: string, step: string)
    ensures IsDecimalMultiple(value, step).Ok? <==> Meaning(Some(value)).Some? && Meaning(Some(step)).Some?
    ensures IsDecimalMultiple(value, step).Ok? ==>
              (IsDecimalMultiple(value, step).value <==>
               MultipleOf(Meaning(Some(value)).value, Meaning(Some(step)).value))
  {
    AlignMeans(value, step);
    if IsDecimalMultiple(value, step).Ok? {
      var a := AlignDecimals(value, step).value;
      MultipleAtScale(a.left, a.right, a.scale);
    }
  }

  lemma {:induction false} IsZeroMeans(value: string)
    ensures IsZeroDecimal(value).Ok? <==> Meaning(Some(value)).Some?
    ensures IsZeroDecimal(value).Ok? ==> (IsZeroDecimal(value).value <==> Meaning(Some(value)).value == 0.0)
    ensures Meaning(Some(value)).Some? ==> Meaning(Some(value)).value >= 0.0
  {
    hide Meaning, ParseDecimal, Fraction;
    ParseMeans(value);
    if ParseDecimal(value).Ok? {
      var d := ParseDecimal(value).value;
      FractionOfZero(d.scale);
      SameScaleOrder(d.value, 0, d.scale);
      SameScaleOrder(0, d.value, d.scale);
    } else {
      assert Meaning(Some(value)).None?;
    }
  }
}
