/** Exact decimal text to integer ledger units (normalize.py). */
module Decimal {
  import opened Outcomes
  import opened Journal

  const MAX_UNIT_DIGITS := 38
  const MAX_SCALE := 30

  // ---------------------------------------------------------------- text

  predicate IsDigit(c: char) { '0' <= c <= '9' }

  lemma TenDigits(c: char)
    ensures IsDigit(c) <==> c in "0123456789"
  {
    var digits := "0123456789";
    if IsDigit(c) { assert digits[c as int - '0' as int] == c; }
  }

  predicate IsDigits(s: string) { forall i :: 0 <= i < |s| ==> IsDigit(s[i]) }

  /** The named groups of the pattern; an absent fraction or exponent group is "". */
  datatype Parts = Parts(negative: bool, whole: string, fraction: string, exponent: string)

  predicate WholeShape(s: string) {
    s != "" && IsDigits(s) && (s[0] == '0' ==> s == "0")
  }

  predicate ExponentShape(s: string) {
    if s != "" && s[0] in "+-" then s[1..] != "" && IsDigits(s[1..]) else s != "" && IsDigits(s)
  }

  predicate PartsShape(p: Parts) {
    WholeShape(p.whole) && IsDigits(p.fraction) && (p.exponent != "" ==> ExponentShape(p.exponent))
  }

  /** What the pattern accepts: sign, whole, point and fraction, marker and exponent. */
  predicate Matches(s: string, p: Parts) {
    PartsShape(p) && (s == Rendered(p, 'e') || s == Rendered(p, 'E'))
  }

  function ExponentText(exponent: string, marker: char): string {
    if exponent == "" then "" else [marker] + exponent
  }

  function FractionText(fraction: string): string {
    if fraction == "" then "" else "." + fraction
  }

  function Rendered(p: Parts, marker: char): string {
    (if p.negative then "-" else "") + (p.whole + (FractionText(p.fraction) + ExponentText(p.exponent, marker)))
  }

  /** Length of the leading run of digits. */
  function DigitRun(s: string): (n: nat)
    ensures n <= |s| && IsDigits(s[..n]) && (n < |s| ==> !IsDigit(s[n]))
  {
    if s == "" || !IsDigit(s[0]) then 0
    else
      var n := DigitRun(s[1..]);
      assert s[..n + 1] == [s[0]] + s[1..][..n];
      n + 1
  }

  function ParseExponent(s: string): Option<string> {
    if s == "" then Some("")
    else if s[0] in "eE" && ExponentShape(s[1..]) then Some(s[1..])
    else None
  }

  function ParseTail(s: string): Option<(string, string)> {
    if s != "" && s[0] == '.' then
      var rest := s[1..];
      var n := DigitRun(rest);
      if n == 0 then None
      else match ParseExponent(rest[n..])
        case None => None
        case Some(e) => Some((rest[..n], e))
    else match ParseExponent(s)
      case None => None
      case Some(e) => Some(("", e))
  }

  function ParseUnsigned(body: string): Option<(string, string, string)> {
    var n := DigitRun(body);
    if !WholeShape(body[..n]) then None
    else match ParseTail(body[n..])
      case None => None
      case Some((f, e)) => Some((body[..n], f, e))
  }

  /** The pattern match of an amount, group by group. */
  function Parse(s: string): Option<Parts> {
    var negative := s != "" && s[0] == '-';
    match ParseUnsigned(if negative then s[1..] else s)
    case None => None
    case Some((w, f, e)) => Some(Parts(negative, w, f, e))
  }

  lemma {:induction false} DigitRunStops(digits: string, rest: string)
    requires IsDigits(digits) && (rest != "" ==> !IsDigit(rest[0]))
    ensures DigitRun(digits + rest) == |digits|
  {
    if digits == "" {
      assert digits + rest == rest;
    } else {
      assert (digits + rest)[1..] == digits[1..] + rest;
      DigitRunStops(digits[1..], rest);
    }
  }

  lemma ParseExponentSound(s: string, e: string) returns (marker: char)
    requires ParseExponent(s) == Some(e)
    ensures marker in "eE" && (e != "" ==> ExponentShape(e)) && s == ExponentText(e, marker)
  {
    marker := if e == "" then 'e' else s[0];
  }

  lemma DigitsSplit(rest: string, n: nat)
    requires n == DigitRun(rest)
    ensures n <= |rest| && IsDigits(rest[..n]) && rest == rest[..n] + rest[n..]
  {
    hide IsDigits, DigitRun;
  }

  lemma ParseTailSound(s: string, f: string, e: string) returns (marker: char)
    requires ParseTail(s) == Some((f, e))
    ensures marker in "eE" && IsDigits(f) && (e != "" ==> ExponentShape(e))
    ensures s == FractionText(f) + ExponentText(e, marker)
  {
    hide ParseExponent, DigitRun, IsDigits, ExponentShape, ExponentText;
    if s != "" && s[0] == '.' {
      var rest := s[1..];
      var n := DigitRun(rest);
      DigitsSplit(rest, n);
      marker := ParseExponentSound(rest[n..], e);
      assert s == "." + rest;
      assert f != "" ==> "." + (f + ExponentText(e, marker)) == "." + f + ExponentText(e, marker);
    } else {
      marker := ParseExponentSound(s, e);
      assert IsDigits("") by { NoDigits(); }
      assert "" + ExponentText(e, marker) == ExponentText(e, marker);
    }
  }

  lemma NoDigits()
    ensures IsDigits("")
  {
  }

  lemma ExponentTextParses(e: string, marker: char)
    requires marker in "eE" && (e != "" ==> ExponentShape(e))
    ensures ParseExponent(ExponentText(e, marker)) == Some(e)
    ensures ExponentText(e, marker) != "" ==> ExponentText(e, marker)[0] != '.' && !IsDigit(ExponentText(e, marker)[0])
  {
    hide ExponentShape;
    if e != "" { assert ExponentText(e, marker)[1..] == e; }
  }

  lemma ParseTailComplete(f: string, e: string, marker: char)
    requires marker in "eE" && IsDigits(f) && (e != "" ==> ExponentShape(e))
    ensures ParseTail(FractionText(f) + ExponentText(e, marker)) == Some((f, e))
  {
    var rest := ExponentText(e, marker);
    var s := FractionText(f) + rest;
    ExponentTextParses(e, marker);
    hide ParseExponent, DigitRun, IsDigits, ExponentShape, ExponentText;
    if f == "" {
      assert s == rest;
    } else {
      assert s[1..] == f + rest;
      DigitRunStops(f, rest);
      assert (f + rest)[..|f|] == f && (f + rest)[|f|..] == rest;
    }
  }

  lemma ParseUnsignedSound(body: string, w: string, f: string, e: string) returns (marker: char)
    requires ParseUnsigned(body) == Some((w, f, e))
    ensures marker in "eE" && WholeShape(w) && IsDigits(f) && (e != "" ==> ExponentShape(e))
    ensures body == w + (FractionText(f) + ExponentText(e, marker))
  {
    var n := DigitRun(body);
    marker := ParseTailSound(body[n..], f, e);
    assert body == body[..n] + body[n..];
  }

  lemma ParseSound(s: string, p: Parts)
    requires Parse(s) == Some(p)
    ensures Matches(s, p)
  {
    hide ParseUnsigned, ParseTail, ParseExponent, DigitRun;
    var body := if p.negative then s[1..] else s;
    var marker := ParseUnsignedSound(body, p.whole, p.fraction, p.exponent);
    if p.negative { assert s == "-" + body; } else { assert s == "" + body; }
  }

  lemma ParseComplete(p: Parts, marker: char)
    requires PartsShape(p) && marker in "eE"
    ensures Parse(Rendered(p, marker)) == Some(p)
  {
    var tail := FractionText(p.fraction) + ExponentText(p.exponent, marker);
    var body := p.whole + tail;
    var s := Rendered(p, marker);
    assert body[0] == p.whole[0];
    assert p.negative ==> s[0] == '-' && s[1..] == body;
    assert !p.negative ==> s == body;
    DigitRunStops(p.whole, tail);
    assert body[..|p.whole|] == p.whole && body[|p.whole|..] == tail;
    ParseTailComplete(p.fraction, p.exponent, marker);
  }

  /** The parser accepts exactly the pattern, and its groups are the only reading of the text. */
  lemma ParseIsThePattern(s: string, p: Parts)
    ensures Parse(s) == Some(p) <==> Matches(s, p)
  {
    if Parse(s) == Some(p) { ParseSound(s, p); }
    if Matches(s, p) { ParseComplete(p, if s == Rendered(p, 'e') then 'e' else 'E'); }
  }

  // ---------------------------------------------------------------- digits

  function Nat(s: string): nat
    requires IsDigits(s)
  {
    if s == "" then 0 else 10 * Nat(s[..|s| - 1]) + (s[|s| - 1] - '0') as nat
  }

  function StripZeros(s: string): (r: string)
    ensures r != "" ==> r[0] != '0'
    ensures IsDigits(s) ==> IsDigits(r)
  {
    if s != "" && s[0] == '0' then StripZeros(s[1..]) else s
  }

  function Zeros(n: nat): (r: string)
    ensures |r| == n && IsDigits(r) && forall i :: 0 <= i < n ==> r[i] == '0'
  {
    seq(n, _ => '0')
  }

  function Pow10(n: nat): (r: int)
    ensures r > 0
  {
    if n == 0 then 1 else 10 * Pow10(n - 1)
  }

  /** Number of characters of `str(n)` for a nonnegative integer. */
  function DecimalLength(n: nat): (r: nat) {
    if n < 10 then 1 else 1 + DecimalLength(n / 10)
  }

  // ---------------------------------------------------------------- units

  datatype Rejection =
    | BadScale | BadText | NotPositive | ExponentRange | UnitBound | NotExact | EmptyRetained | BadSide

  function ExponentDigits(p: Parts): (r: string)
    requires PartsShape(p)
    ensures IsDigits(r)
  {
    StripZeros(if p.exponent != "" && p.exponent[0] in "+-" then p.exponent[1..] else p.exponent)
  }

  function Exponent(p: Parts): int
    requires PartsShape(p)
  {
    var magnitude: int := Nat(ExponentDigits(p));
    if p.exponent != "" && p.exponent[0] == '-' then -magnitude else magnitude
  }

  function Coefficient(p: Parts): (r: string)
    requires PartsShape(p)
    ensures IsDigits(r) && (r != "" ==> r[0] != '0')
  {
    StripZeros(p.whole + p.fraction)
  }

  function UnitExponent(p: Parts, scale: nat): int
    requires PartsShape(p)
  {
    Exponent(p) - |p.fraction| + scale
  }

  function Magnitude(coefficient: string, unitExponent: int): Result<nat, Rejection>
    requires IsDigits(coefficient)
  {
    if unitExponent >= 0 then
      if |coefficient| + unitExponent > MAX_UNIT_DIGITS then Err(UnitBound)
      else Ok(Nat(coefficient) * Pow10(unitExponent))
    else
      var discarded := -unitExponent;
      if discarded > |coefficient| || coefficient[|coefficient| - discarded..] != Zeros(discarded) then Err(NotExact)
      else
        var retained := coefficient[..|coefficient| - discarded];
        if retained == "" then Err(EmptyRetained) else Ok(Nat(retained))
  }

  function Units(p: Parts, scale: nat): Result<int, Rejection>
    requires PartsShape(p)
  {
    var coefficient := Coefficient(p);
    if coefficient == "" then Err(NotPositive)
    else if |ExponentDigits(p)| > 6 then Err(ExponentRange)
    else match Magnitude(coefficient, UnitExponent(p, scale))
      case Err(e) => Err(e)
      case Ok(magnitude) =>
        if magnitude <= 0 || DecimalLength(magnitude) > MAX_UNIT_DIGITS then Err(UnitBound)
        else Ok(if p.negative then -(magnitude as int) else magnitude as int)
  }

  function SignedExactUnits(amount: string, scale: int): Result<int, Rejection> {
    if !(0 <= scale <= MAX_SCALE) then Err(BadScale)
    else match Parse(amount)
      case None => Err(BadText)
      case Some(p) => ParseSound(amount, p); Units(p, scale)
  }

  datatype Amount = Amount(side: Side, units: int)

  function ExactUnits(amount: string, scale: int): Result<int, Rejection> {
    match SignedExactUnits(amount, scale)
    case Err(e) => Err(e)
    case Ok(n) => if n <= 0 then Err(NotPositive) else Ok(n)
  }

  function NormalizeLegacySigned(amount: string, scale: int): Result<Amount, Rejection> {
    match SignedExactUnits(amount, scale)
    case Err(e) => Err(e)
    case Ok(n) => Ok(Amount(if n > 0 then Debit else Credit, if n < 0 then -n else n))
  }

  /** The unsigned pattern is the signed one without its sign group. */
  predicate UnsignedText(amount: string) {
    match Parse(amount)
    case None => false
    case Some(p) => !p.negative
  }

  function NormalizeExplicit(amount: string, side: string, scale: int): Result<Amount, Rejection> {
    if !UnsignedText(amount) then Err(BadText)
    else if side != "debit" && side != "credit" then Err(BadSide)
    else match ExactUnits(amount, scale)
      case Err(e) => Err(e)
      case Ok(n) => Ok(Amount(if side == "debit" then Debit else Credit, n))
  }

  datatype AssetScale = AssetScale(ledger: int, input: int, display: int)

  function ForSource(assetCode: string, sourceScale: int, displayScale: int): Result<AssetScale, Rejection> {
    var ledger := if assetCode == "USDT" && sourceScale < 8 then 8 else sourceScale;
    if assetCode == "" then Err(BadText)
    else if !(0 <= ledger <= MAX_SCALE && 0 <= sourceScale <= MAX_SCALE && 0 <= displayScale <= MAX_SCALE)
    then Err(BadScale)
    else if sourceScale > ledger || displayScale > ledger then Err(BadScale)
    else Ok(AssetScale(ledger, sourceScale, displayScale))
  }

  // ---------------------------------------------------------------- arithmetic

  lemma {:induction false} NatConcat(a: string, b: string)
    requires IsDigits(a) && IsDigits(b)
    ensures IsDigits(a + b) && Nat(a + b) == Nat(a) * Pow10(|b|) + Nat(b)
  {
    if b == "" {
      assert a + b == a;
    } else {
      var c, d := b[..|b| - 1], (b[|b| - 1] - '0') as nat;
      assert (a + b)[..|a + b| - 1] == a + c;
      NatConcat(a, c);
      calc {
        Nat(a + b);
        10 * Nat(a + c) + d;
        10 * (Nat(a) * Pow10(|c|) + Nat(c)) + d;
        { MulShuffle(Nat(a), Pow10(|c|)); }
        Nat(a) * Pow10(|b|) + Nat(b);
      }
    }
  }

  lemma MulShuffle(x: int, y: int)
    ensures 10 * (x * y) == x * (10 * y)
  {
  }

  lemma {:induction false} NatZeroIffZeros(s: string)
    requires IsDigits(s)
    ensures Nat(s) == 0 <==> forall i :: 0 <= i < |s| ==> s[i] == '0'
  {
    if s != "" { NatZeroIffZeros(s[..|s| - 1]); }
  }

  lemma {:induction false} NatBound(s: string)
    requires IsDigits(s)
    ensures Nat(s) < Pow10(|s|)
  {
    if s != "" { NatBound(s[..|s| - 1]); }
  }

  lemma {:induction false} NatLeading(s: string)
    requires IsDigits(s) && s != "" && s[0] != '0'
    ensures Nat(s) >= Pow10(|s| - 1)
  {
    if |s| > 1 { NatLeading(s[..|s| - 1]); } else { assert s[..0] == ""; }
  }

  lemma {:induction false} NatStrip(s: string)
    requires IsDigits(s)
    ensures Nat(StripZeros(s)) == Nat(s)
  {
    if s != "" && s[0] == '0' {
      var zero, rest := s[..1], s[1..];
      NatStrip(rest);
      assert s == zero + rest;
      NatConcat(zero, rest);
      NatZeroIffZeros(zero);
    }
  }

  lemma {:induction false} Pow10Add(a: nat, b: nat)
    ensures Pow10(a + b) == Pow10(a) * Pow10(b)
  {
    if b > 0 { Pow10Add(a, b - 1); }
  }

  lemma {:induction false} Pow10Monotone(a: nat, b: nat)
    requires a <= b
    ensures Pow10(a) <= Pow10(b)
  {
    if a < b { Pow10Monotone(a, b - 1); }
  }

  lemma {:induction false} DecimalLengthBound(n: nat, k: nat)
    requires n > 0
    ensures DecimalLength(n) <= k <==> n < Pow10(k)
  {
    if k == 0 {
    } else if n < 10 {
      Pow10Monotone(1, k);
    } else {
      DecimalLengthBound(n / 10, k - 1);
      assert n / 10 < Pow10(k - 1) <==> n < 10 * Pow10(k - 1);
    }
  }

  // ---------------------------------------------------------------- exactness

  /** `n` is the coefficient moved by `e` decimal places, said without fractions. */
  predicate IsShifted(coefficient: nat, e: int, n: int) {
    if e >= 0 then n == coefficient * Pow10(e) else n * Pow10(-e) == coefficient
  }

  predicate WithinBound(n: int) { n != 0 && -Pow10(MAX_UNIT_DIGITS) < n < Pow10(MAX_UNIT_DIGITS) }

  function Negated(negative: bool, n: int): int { if negative then -n else n }

  function NegatedReal(negative: bool, x: real): real { if negative then -x else x }

  predicate EndsInZeros(c: string, d: nat) { d <= |c| && c[|c| - d..] == Zeros(d) }

  lemma SplitDigits(c: string, d: nat)
    requires IsDigits(c) && d <= |c|
    ensures Nat(c) == Nat(c[..|c| - d]) * Pow10(d) + Nat(c[|c| - d..]) && Nat(c[|c| - d..]) < Pow10(d)
    ensures Nat(c[|c| - d..]) == 0 <==> EndsInZeros(c, d)
  {
    var head, tail := c[..|c| - d], c[|c| - d..];
    assert c == head + tail;
    NatConcat(head, tail);
    NatBound(tail);
    NatZeroIffZeros(tail);
  }

  lemma ZerosLeaveDigits(c: string, d: nat)
    requires IsDigits(c) && c != "" && c[0] != '0' && EndsInZeros(c, d)
    ensures d < |c| && Nat(c[..|c| - d]) * Pow10(d) == Nat(c) && Nat(c[..|c| - d]) > 0
  {
    SplitDigits(c, d);
    assert c[|c| - d..] == Zeros(d);
    if d == |c| { assert false; }
    NatLeading(c[..|c| - d]);
  }

  lemma DivisibleEndsInZeros(c: string, d: nat, n: nat)
    requires IsDigits(c) && c != "" && c[0] != '0' && n * Pow10(d) == Nat(c)
    ensures EndsInZeros(c, d)
  {
    NatLeading(c);
    if d <= |c| {
      SplitDigits(c, d);
      SmallRemainder(n, Nat(c[..|c| - d]), Pow10(d), Nat(c[|c| - d..]));
    } else {
      NatBound(c);
      Pow10Monotone(|c|, d);
      if n >= 1 { MulMonotone(1, n, Pow10(d)); }
    }
  }

  lemma SmallRemainder(n: int, q: int, m: int, r: int)
    requires 0 <= r < m && n * m == q * m + r
    ensures r == 0
  {
    if n > q { MulMonotone(q + 1, n, m); }
    if n < q { MulMonotone(n + 1, q, m); }
  }

  lemma MulMonotone(a: int, b: int, m: int)
    requires a <= b && 0 <= m
    ensures a * m <= b * m
  {
  }

  /** The three branches on text agree with arithmetic, and nothing is ever left with no digits. */
  lemma MagnitudeIsExact(c: string, e: int)
    requires IsDigits(c) && c != "" && c[0] != '0'
    ensures Magnitude(c, e) != Err(EmptyRetained)
    ensures Magnitude(c, e).Ok? ==> Magnitude(c, e).value > 0 && IsShifted(Nat(c), e, Magnitude(c, e).value)
  {
    if e >= 0 {
      NatLeading(c);
      MulMonotone(1, Nat(c), Pow10(e));
    } else if EndsInZeros(c, -e) {
      ZerosLeaveDigits(c, -e);
    }
  }

  /** What the branches refuse has no whole number of units below the bound. */
  lemma MagnitudeRefusal(c: string, e: int, n: nat)
    requires IsDigits(c) && c != "" && c[0] != '0'
    requires Magnitude(c, e).Err? && IsShifted(Nat(c), e, n)
    ensures n >= Pow10(MAX_UNIT_DIGITS)
  {
    if e >= 0 {
      NatLeading(c);
      Pow10Add(|c| - 1, e);
      MulMonotone(Pow10(|c| - 1), Nat(c), Pow10(e));
      Pow10Monotone(MAX_UNIT_DIGITS, |c| - 1 + e);
    } else {
      DivisibleEndsInZeros(c, -e, n);
      MagnitudeIsExact(c, e);
    }
  }

  lemma UnitsAreShifted(p: Parts, scale: nat)
    requires PartsShape(p) && Units(p, scale).Ok?
    ensures WithinBound(Units(p, scale).value)
    ensures IsShifted(Nat(p.whole + p.fraction), UnitExponent(p, scale), Negated(p.negative, Units(p, scale).value))
  {
    NatStrip(p.whole + p.fraction);
    var m := Magnitude(Coefficient(p), UnitExponent(p, scale)).value;
    MagnitudeIsExact(Coefficient(p), UnitExponent(p, scale));
    DecimalLengthBound(m, MAX_UNIT_DIGITS);
  }

  lemma UnitsRefusal(p: Parts, scale: nat, n: nat)
    requires PartsShape(p) && |ExponentDigits(p)| <= 6 && Units(p, scale).Err?
    requires IsShifted(Nat(p.whole + p.fraction), UnitExponent(p, scale), n)
    ensures !WithinBound(n)
  {
    NatStrip(p.whole + p.fraction);
    var c, e := Coefficient(p), UnitExponent(p, scale);
    if c == "" {
      ZeroHasNoUnits(e, n);
    } else if Magnitude(c, e).Err? {
      MagnitudeRefusal(c, e, n);
    } else {
      MagnitudeIsExact(c, e);
      ShiftedOnce(Nat(c), e, n, Magnitude(c, e).value);
      DecimalLengthBound(n, MAX_UNIT_DIGITS);
    }
  }

  lemma ZeroHasNoUnits(e: int, n: nat)
    requires IsShifted(0, e, n)
    ensures n == 0
  {
    if n >= 1 && e < 0 { MulMonotone(1, n, Pow10(-e)); }
  }

  lemma ShiftedOnce(c: nat, e: int, n: int, m: int)
    requires IsShifted(c, e, n) && IsShifted(c, e, m)
    ensures n == m
  {
    if e < 0 { SameProduct(n, m, Pow10(-e)); }
  }

  lemma SameProduct(a: int, b: int, m: int)
    requires m > 0 && a * m == b * m
    ensures a == b
  {
    if a < b { MulMonotone(a + 1, b, m); }
    if b < a { MulMonotone(b + 1, a, m); }
  }

  // ---------------------------------------------------------------- the rational value

  function Pow10R(e: int): (r: real)
    ensures r > 0.0
    decreases if e < 0 then -e else e
  {
    if e == 0 then 1.0 else if e > 0 then 10.0 * Pow10R(e - 1) else Pow10R(e + 1) / 10.0
  }

  /** A coefficient moved by `e` decimal places. */
  function Shift(c: int, e: int): real { c as real * Pow10R(e) }

  /** The number the text denotes, before any rounding or scale. */
  function Value(p: Parts): real
    requires PartsShape(p)
  {
    NegatedReal(p.negative, Shift(Nat(p.whole + p.fraction), Exponent(p) - |p.fraction|))
  }

  /** A value times ten to the ledger scale. */
  function AtScale(x: real, scale: nat): real { x * Pow10R(scale) }

  lemma {:induction false} Pow10RNat(n: nat)
    ensures Pow10R(n) == Pow10(n) as real
    ensures Pow10R(0 - n) * Pow10(n) as real == 1.0
  {
    if n > 0 {
      Pow10RNat(n - 1);
      RealShuffle(Pow10R(1 - n), Pow10(n - 1) as real);
      assert Pow10(n) as real == 10.0 * Pow10(n - 1) as real;
    }
  }

  lemma RealShuffle(x: real, y: real)
    ensures (x / 10.0) * (10.0 * y) == x * y
  {
  }

  lemma {:induction false} Pow10RAdd(a: int, b: nat)
    ensures Pow10R(a + b) == Pow10R(a) * Pow10R(b)
  {
    Pow10RZero();
    hide Pow10R;
    if b > 0 {
      Pow10RAdd(a, b - 1);
      Pow10RStep(a + b);
      Pow10RStep(b);
      RealScale(Pow10R(a + b), Pow10R(a + b - 1), Pow10R(a), Pow10R(b), Pow10R(b - 1));
    }
  }

  lemma Pow10RZero()
    ensures Pow10R(0) == 1.0
  {
  }

  lemma Pow10RStep(e: int)
    ensures Pow10R(e) == 10.0 * Pow10R(e - 1)
  {
  }

  lemma RealScale(sum: real, less: real, x: real, y: real, before: real)
    requires sum == 10.0 * less && less == x * before && y == 10.0 * before
    ensures sum == x * y
  {
  }

  lemma ShiftedIsProduct(c: nat, e: int, n: int)
    ensures IsShifted(c, e, n) <==> n as real == Shift(c, e)
  {
    var d: nat := if e >= 0 then e else -e;
    Pow10RNat(d);
    if e >= 0 {
      RealProduct(c, Pow10(d));
    } else {
      RealProduct(n, Pow10(d));
      RealCancel(n as real, c as real, Pow10(d) as real, Pow10R(e));
    }
  }

  lemma RealProduct(x: int, y: int)
    ensures (x * y) as real == x as real * y as real
  {
  }

  lemma RealCancel(x: real, y: real, t: real, u: real)
    requires u * t == 1.0
    ensures x * t == y <==> x == y * u
  {
    assert x * t * u == x * (u * t);
    assert y * u * t == y * (u * t);
  }

  /** Some whole number of ledger units below the bound equals `x`. */
  predicate Representable(x: real) { x == x.Floor as real && WithinBound(x.Floor) }

  /** The value at ledger scale is the coefficient moved by the unit exponent. */
  lemma ScaledValue(p: Parts, scale: nat)
    requires PartsShape(p)
    ensures AtScale(Value(p), scale) ==
              NegatedReal(p.negative, Shift(Nat(p.whole + p.fraction), UnitExponent(p, scale)))
  {
    hide Nat, Exponent, Pow10R;
    ShiftTwice(p.negative, Nat(p.whole + p.fraction), Exponent(p) - |p.fraction|, scale);
  }

  lemma ShiftTwice(negative: bool, c: int, e: int, scale: nat)
    ensures AtScale(NegatedReal(negative, Shift(c, e)), scale) == NegatedReal(negative, Shift(c, e + scale))
  {
    Pow10RAdd(e, scale);
    hide Pow10R;
    NegatedProduct(negative, c as real, Pow10R(e), Pow10R(scale));
  }

  lemma NegatedProduct(negative: bool, c: real, s: real, t: real)
    ensures NegatedReal(negative, c * s) * t == NegatedReal(negative, c * (s * t))
  {
  }

  lemma AcceptedIsExact(p: Parts, scale: nat)
    requires PartsShape(p) && Units(p, scale).Ok?
    ensures |ExponentDigits(p)| <= 6 && Units(p, scale).value as real == AtScale(Value(p), scale)
    ensures Representable(AtScale(Value(p), scale))
  {
    assert |ExponentDigits(p)| <= 6;
    hide Value, UnitExponent, Units, Nat, Pow10, ExponentDigits, Shift, AtScale;
    ScaledValue(p, scale);
    UnitsAreShifted(p, scale);
    ShiftedIsProduct(Nat(p.whole + p.fraction), UnitExponent(p, scale), Negated(p.negative, Units(p, scale).value));
  }

  lemma ExactIsAccepted(p: Parts, scale: nat)
    requires PartsShape(p) && |ExponentDigits(p)| <= 6 && Representable(AtScale(Value(p), scale))
    ensures Units(p, scale).Ok?
  {
    hide Value, UnitExponent, Units, Nat, Pow10, ExponentDigits, Shift, AtScale;
    ScaledValue(p, scale);
    var n := Negated(p.negative, AtScale(Value(p), scale).Floor);
    var c, e := Nat(p.whole + p.fraction), UnitExponent(p, scale);
    assert n >= 0 by { ShiftNonnegative(c, e); }
    ShiftedIsProduct(c, e, n);
    if Units(p, scale).Err? { UnitsRefusal(p, scale, n); }
  }

  lemma ShiftNonnegative(c: nat, e: int)
    ensures Shift(c, e) >= 0.0
  {
  }

  lemma NeverEmptyRetained(p: Parts, scale: nat)
    requires PartsShape(p)
    ensures Units(p, scale) != Err(EmptyRetained)
  {
    if Coefficient(p) != "" { MagnitudeIsExact(Coefficient(p), UnitExponent(p, scale)); }
  }

  /**
   * Accepted exactly when the value at ledger scale is a nonzero whole number in bounds, and then it is that
   * number.
   */
  lemma AcceptedIffExact(p: Parts, scale: nat)
    requires PartsShape(p)
    ensures Units(p, scale).Ok? <==> |ExponentDigits(p)| <= 6 && Representable(AtScale(Value(p), scale))
    ensures Units(p, scale).Ok? ==> Units(p, scale).value as real == AtScale(Value(p), scale)
  {
    hide *;
    if Units(p, scale).Ok? { AcceptedIsExact(p, scale); }
    if |ExponentDigits(p)| <= 6 && Representable(AtScale(Value(p), scale)) { ExactIsAccepted(p, scale); }
  }

  /** Two spellings of one value in the supported exponent range give the same outcome. */
  lemma EqualValuesEqualUnits(p: Parts, q: Parts, scale: nat)
    requires PartsShape(p) && PartsShape(q) && |ExponentDigits(p)| <= 6 && |ExponentDigits(q)| <= 6
    requires Value(p) == Value(q)
    ensures Units(p, scale).Ok? == Units(q, scale).Ok?
    ensures Units(p, scale).Ok? ==> Units(p, scale) == Units(q, scale)
  {
    hide *;
    AcceptedIffExact(p, scale);
    AcceptedIffExact(q, scale);
  }

  /** Raising the ledger scale by `k` multiplies the units by ten to the `k`, up to the bound. */
  lemma RaisingTheScale(p: Parts, scale: nat, k: nat)
    requires PartsShape(p) && Units(p, scale).Ok?
    ensures Units(p, scale + k).Ok? <==> WithinBound(Units(p, scale).value * Pow10(k))
    ensures Units(p, scale + k).Ok? ==> Units(p, scale + k).value == Units(p, scale).value * Pow10(k)
  {
    hide Value, UnitExponent, Units, Nat, Pow10, ExponentDigits, AtScale;
    AcceptedIffExact(p, scale);
    AcceptedIffExact(p, scale + k);
    ScaleTwice(Value(p), scale, k, Units(p, scale).value);
  }

  lemma ScaleTwice(x: real, scale: nat, k: nat, n: int)
    requires AtScale(x, scale) == n as real
    ensures AtScale(x, scale + k) == (n * Pow10(k)) as real
  {
    Pow10RAdd(scale, k);
    Pow10RNat(k);
    RealProduct(n, Pow10(k));
    RealAssociate(x, Pow10R(scale), Pow10R(k));
  }

  lemma RealAssociate(x: real, y: real, z: real)
    ensures x * (y * z) == x * y * z
  {
  }

  /** The ledger scale is never below the source's, and reading an amount there keeps its value. */
  lemma LedgerScaleKeepsValue(assetCode: string, sourceScale: int, displayScale: int, amount: string)
    requires ForSource(assetCode, sourceScale, displayScale).Ok? && SignedExactUnits(amount, sourceScale).Ok?
    ensures var ledger := ForSource(assetCode, sourceScale, displayScale).value.ledger;
            var n := SignedExactUnits(amount, sourceScale).value;
            && 0 <= sourceScale <= ledger <= MAX_SCALE
            && (SignedExactUnits(amount, ledger).Ok? <==> WithinBound(n * Pow10(ledger - sourceScale)))
            && (SignedExactUnits(amount, ledger).Ok? ==>
                  SignedExactUnits(amount, ledger).value == n * Pow10(ledger - sourceScale))
  {
    hide Units, Parse, Pow10, Matches;
    var ledger := ForSource(assetCode, sourceScale, displayScale).value.ledger;
    var p := Parse(amount).value;
    ParseSound(amount, p);
    assert PartsShape(p) by { MatchedShape(amount, p); }
    RaisingTheScale(p, sourceScale, ledger - sourceScale);
  }

  lemma MatchedShape(amount: string, p: Parts)
    requires Matches(amount, p)
    ensures PartsShape(p)
  {
  }

  // ---------------------------------------------------------------- posting amounts

  /** An accepted amount is positive, below the unit bound, and its side is the sign of the text. */
  lemma LegacyAmountIsSigned(amount: string, scale: int)
    requires NormalizeLegacySigned(amount, scale).Ok?
    ensures Parse(amount).Some?
    ensures var a := NormalizeLegacySigned(amount, scale).value;
            0 < a.units < Pow10(MAX_UNIT_DIGITS) && (a.side == Credit <==> Parse(amount).value.negative)
  {
    var p := Parse(amount).value;
    ParseSound(amount, p);
    hide Units, Pow10;
    UnitsAreShifted(p, scale);
    assert Negated(p.negative, Units(p, scale).value) > 0 by {
      UnitsSign(p, scale);
    }
  }

  lemma UnitsSign(p: Parts, scale: nat)
    requires PartsShape(p) && Units(p, scale).Ok?
    ensures Negated(p.negative, Units(p, scale).value) > 0
  {
  }

  /** Where an explicit side is given, the review and the planner read the same units. */
  lemma ExplicitUnitsAreLegacyUnits(amount: string, side: string, scale: int)
    requires NormalizeExplicit(amount, side, scale).Ok?
    ensures NormalizeLegacySigned(amount, scale).Ok?
    ensures NormalizeExplicit(amount, side, scale).value.units == NormalizeLegacySigned(amount, scale).value.units
  {
  }

  /** The exponent is its digits read as a number under its sign, and six significant digits are below a million. */
  lemma ExponentReads(p: Parts, sign: string, digits: string)
    requires PartsShape(p) && p.exponent == sign + digits && IsDigits(digits)
    requires sign == "" || sign == "+" || sign == "-"
    ensures Exponent(p) == if sign == "-" then 0 - Nat(digits) else Nat(digits)
    ensures |ExponentDigits(p)| <= 6 <==> Nat(digits) < 1_000_000
  {
    ExponentSplits(p, sign, digits);
    NatStrip(digits);
    hide ExponentDigits, StripZeros, Nat, PartsShape;
    SixDigits(StripZeros(digits));
  }

  lemma ExponentSplits(p: Parts, sign: string, digits: string)
    requires PartsShape(p) && p.exponent == sign + digits && IsDigits(digits)
    requires sign == "" || sign == "+" || sign == "-"
    ensures ExponentDigits(p) == StripZeros(digits)
    ensures p.exponent != "" && p.exponent[0] == '-' <==> sign == "-"
  {
    hide StripZeros;
    if sign == "" {
      assert p.exponent == digits;
      assert digits != "" ==> IsDigit(digits[0]);
    } else {
      assert p.exponent[0] == sign[0] && p.exponent[1..] == digits;
    }
  }

  lemma SixDigits(kept: string)
    requires IsDigits(kept) && (kept != "" ==> kept[0] != '0')
    ensures |kept| <= 6 <==> Nat(kept) < 1_000_000
  {
    PowersOfTen();
    hide Pow10, Nat;
    NatBound(kept);
    if |kept| <= 6 {
      Pow10Monotone(|kept|, 6);
    } else {
      NatLeading(kept);
      Pow10Monotone(6, |kept| - 1);
    }
  }

  lemma PowersOfTen()
    ensures Pow10(6) == 1_000_000
  {
    assert Pow10(1) == 10 && Pow10(2) == 100 && Pow10(3) == 1000 && Pow10(4) == 10000 && Pow10(5) == 100000;
  }

  /** What an amount text must be to have units at a scale at all. */
  predicate Readable(amount: string, scale: int) {
    && 0 <= scale <= MAX_SCALE && Parse(amount).Some?
    && (ParseSound(amount, Parse(amount).value);
        |ExponentDigits(Parse(amount).value)| <= 6 && Representable(AtScale(Value(Parse(amount).value), scale)))
  }

  predicate Minus(amount: string) { Parse(amount).Some? && Parse(amount).value.negative }

  /** The size of the written number at a scale, its sign left out. */
  function SizeAt(amount: string, scale: nat): real
    requires Parse(amount).Some?
  {
    ParseSound(amount, Parse(amount).value);
    var x := AtScale(Value(Parse(amount).value), scale);
    if x < 0.0 then -x else x
  }

  lemma SignedIsAsWritten(amount: string, scale: int)
    ensures SignedExactUnits(amount, scale).Ok? <==> Readable(amount, scale)
    ensures SignedExactUnits(amount, scale).Ok? ==>
              var n := SignedExactUnits(amount, scale).value;
              && n != 0 && (n < 0 <==> Minus(amount)) && n as real == AtScale(Value(Parse(amount).value), scale)
  {
    if 0 <= scale <= MAX_SCALE && Parse(amount).Some? {
      var p := Parse(amount).value;
      ParseSound(amount, p);
      AcceptedIffExact(p, scale);
      if Units(p, scale).Ok? { UnitsSign(p, scale); }
      hide Units, AtScale, Value, Representable, ExponentDigits, Parse, Matches;
    }
  }

  /** A signed amount is accepted exactly when readable; its side is its sign and its units its size. */
  lemma LegacyIsAsWritten(amount: string, scale: int)
    ensures NormalizeLegacySigned(amount, scale).Ok? <==> Readable(amount, scale)
    ensures NormalizeLegacySigned(amount, scale).Ok? ==>
              var a := NormalizeLegacySigned(amount, scale).value;
              && (a.side == Credit <==> Minus(amount)) && a.units > 0 && a.units as real == SizeAt(amount, scale)
  {
    SignedIsAsWritten(amount, scale);
    hide Readable, SignedExactUnits, AtScale, Value, Parse;
  }

  /** An explicit amount must besides be unsigned and name a side, which is then its side. */
  lemma ExplicitIsAsWritten(amount: string, side: string, scale: int)
    ensures NormalizeExplicit(amount, side, scale).Ok? <==>
              Readable(amount, scale) && !Minus(amount) && (side == "debit" || side == "credit")
    ensures NormalizeExplicit(amount, side, scale).Ok? ==>
              var a := NormalizeExplicit(amount, side, scale).value;
              && (a.side == Debit <==> side == "debit") && a.units > 0 && a.units as real == SizeAt(amount, scale)
  {
    SignedIsAsWritten(amount, scale);
    assert Readable(amount, scale) ==> Parse(amount).Some?;
    hide Readable, SignedExactUnits, AtScale, Value, Parse;
  }

  /** The scale rule: at least eight for USDT, otherwise the source's; a display scale may not exceed it. */
  lemma LedgerScaleRule(assetCode: string, sourceScale: int, displayScale: int)
    ensures var r := ForSource(assetCode, sourceScale, displayScale);
            var floor := if assetCode == "USDT" then 8 else 0;
            && (r.Ok? <==> assetCode != "" && 0 <= sourceScale <= 30 && 0 <= displayScale
                           && (displayScale <= sourceScale || displayScale <= floor))
            && (r.Ok? ==> r.value.ledger >= sourceScale && r.value.ledger >= floor
                          && (r.value.ledger == sourceScale || r.value.ledger == floor)
                          && r.value.input == sourceScale && r.value.display == displayScale)
  {
  }
}
