/**
 Kubernetes resource quantities as exact byte counts. The parser works in checked
 128-bit arithmetic; the grammar it accepts is given apart from it, as the parts a
 quantity is written from and the number those parts denote.
 */
module Quantity {
  import opened Arithmetic
  import opened Options

  const U128_LIMIT: nat := 0x1_0000_0000_0000_0000_0000_0000_0000_0000
  const U64_LIMIT: nat := 0x1_0000_0000_0000_0000
  const I64_MAX: nat := 0x7fff_ffff_ffff_ffff
  const GIB: nat := 0x4000_0000

  // -------------------------------------------------------------------------- numerals

  predicate IsDigit(c: char) { '0' <= c <= '9' }
  predicate IsLetter(c: char) { 'a' <= c <= 'z' || 'A' <= c <= 'Z' }
  predicate Digits(s: string) { forall i :: 0 <= i < |s| ==> IsDigit(s[i]) }

  function Val(s: string): nat
    requires Digits(s)
  {
    if s == [] then 0
    else
      assert IsDigit(s[|s| - 1]);
      Val(s[..|s| - 1]) * 10 + (s[|s| - 1] - '0') as int
  }

  function Pow10(n: nat): (p: nat)
    ensures p > 0
  {
    if n == 0 then 1 else 10 * Pow10(n - 1)
  }

  function Checked(n: nat): Option<nat> { if n < U128_LIMIT then Some(n) else None }

  function Times(a: nat, b: nat): nat {
    ProductIsNat(a, b);
    a * b
  }

  lemma Tenfold(a: nat, n: nat)
    ensures a * Pow10(n + 1) == a * Pow10(n) * 10
  {
    var p := Pow10(n);
    assert Pow10(n + 1) == 10 * p;
    hide *;
    assert a * (10 * p) == a * p * 10;
  }

  lemma {:induction false} ValAppend(s: string, t: string)
    requires Digits(s) && Digits(t)
    ensures Digits(s + t) && Val(s + t) == Val(s) * Pow10(|t|) + Val(t)
  {
    if t == [] {
      assert s + t == s;
    } else {
      var t' := t[..|t| - 1];
      ValAppend(s, t');
      assert (s + t)[..|s + t| - 1] == s + t';
      Tenfold(Val(s), |t'|);
    }
  }

  // ---------------------------------------------------------------------------- grammar

  /** A scale factor: 2^bits, or 10^power. */
  datatype Scale = Binary(bits: nat) | Decimal(power: int)

  predicate Signed(s: string) {
    |s| > 0 && (if s[0] in {'+', '-'} then |s| > 1 && Digits(s[1..]) else Digits(s))
  }

  function SignedVal(s: string): int
    requires Signed(s)
  {
    if s[0] == '-' then -(Val(s[1..]) as int) else if s[0] == '+' then Val(s[1..]) else Val(s)
  }

  /** What a suffix means; the exponent is read as a 32-bit integer. */
  function ScaleOf(suffix: string): Option<Scale> {
    if suffix == "Ki" then Some(Binary(10))
    else if suffix == "Mi" then Some(Binary(20))
    else if suffix == "Gi" then Some(Binary(30))
    else if suffix == "Ti" then Some(Binary(40))
    else if suffix == "Pi" then Some(Binary(50))
    else if suffix == "Ei" then Some(Binary(60))
    else if suffix == "" then Some(Decimal(0))
    else if suffix == "n" then Some(Decimal(-9))
    else if suffix == "u" then Some(Decimal(-6))
    else if suffix == "m" then Some(Decimal(-3))
    else if suffix == "k" then Some(Decimal(3))
    else if suffix == "M" then Some(Decimal(6))
    else if suffix == "G" then Some(Decimal(9))
    else if suffix == "T" then Some(Decimal(12))
    else if suffix == "P" then Some(Decimal(15))
    else if suffix == "E" then Some(Decimal(18))
    else if suffix[0] in {'e', 'E'} && Signed(suffix[1..])
            && -0x8000_0000 <= SignedVal(suffix[1..]) <= 0x7fff_ffff then
      Some(Decimal(SignedVal(suffix[1..])))
    else None
  }

  datatype Parts = Parts(plus: bool, whole: string, dot: bool, fraction: string, suffix: string)

  predicate WellFormed(p: Parts) {
    && Digits(p.whole) && Digits(p.fraction) && (p.whole != "" || p.fraction != "")
    && (!p.dot ==> p.fraction == "")
    && ScaleOf(p.suffix).Some? && (p.suffix != "" ==> IsLetter(p.suffix[0]))
  }

  function Number(p: Parts): string { p.whole + (if p.dot then "." + p.fraction else "") }

  function Text(p: Parts): string { (if p.plus then "+" else "") + Number(p) + p.suffix }

  function Factor(s: Scale): real {
    match s
    case Binary(bits) => Pow2(bits) as real
    case Decimal(power) => if power >= 0 then Pow10(power) as real else 1.0 / Pow10(-power) as real
  }

  /** The number a quantity denotes. */
  function Denotes(p: Parts): real
    requires WellFormed(p)
  {
    (Val(p.whole) as real + Val(p.fraction) as real / Pow10(|p.fraction|) as real) * Factor(ScaleOf(p.suffix).value)
  }

  // ----------------------------------------------------------------------------- parsing

  function StripPlus(s: string): string { if s != "" && s[0] == '+' then s[1..] else s }

  function FirstLetter(s: string): (i: nat)
    ensures i <= |s| && (forall j :: 0 <= j < i ==> !IsLetter(s[j])) && (i < |s| ==> IsLetter(s[i]))
  {
    if s == "" || IsLetter(s[0]) then 0 else 1 + FirstLetter(s[1..])
  }

  function FirstDot(s: string): (i: nat)
    ensures i <= |s| && (forall j :: 0 <= j < i ==> s[j] != '.') && (i < |s| ==> s[i] == '.')
  {
    if s == "" || s[0] == '.' then 0 else 1 + FirstDot(s[1..])
  }

  /** How the parser takes a text apart, whether or not it is a quantity. */
  function Split(q: string): Parts {
    var body := StripPlus(q);
    var at := FirstLetter(body);
    var number := body[..at];
    var dot := FirstDot(number);
    Parts(body != q, number[..dot], dot < |number|, if dot < |number| then number[dot + 1..] else "", body[at..])
  }

  lemma StripText(q: string)
    ensures q == (if StripPlus(q) != q then "+" else "") + StripPlus(q)
  {
    if q != "" && q[0] == '+' {
      assert q == "+" + q[1..];
    }
  }

  lemma NumberText(number: string, dot: nat)
    requires dot <= |number| && (dot < |number| ==> number[dot] == '.')
    ensures number == number[..dot] + (if dot < |number| then "." + number[dot + 1..] else "")
  {
    var rest := if dot < |number| then "." + number[dot + 1..] else "";
    assert |number| == |number[..dot] + rest|;
    forall i | 0 <= i < |number| ensures number[i] == (number[..dot] + rest)[i] {
    }
  }

  lemma SplitText(q: string)
    ensures Text(Split(q)) == q
  {
    var body := StripPlus(q);
    var at := FirstLetter(body);
    hide StripPlus;
    StripText(q);
    NumberText(body[..at], FirstDot(body[..at]));
    assert body == body[..at] + body[at..];
    Joined(if Split(q).plus then "+" else "", Number(Split(q)), Split(q).suffix);
  }

  lemma Joined(a: string, b: string, c: string)
    ensures a + b + c == a + (b + c)
  {
  }

  lemma FirstLetterIs(s: string, i: nat)
    requires i <= |s| && (forall j :: 0 <= j < i ==> !IsLetter(s[j])) && (i < |s| ==> IsLetter(s[i]))
    ensures FirstLetter(s) == i
  {
  }

  lemma FirstDotIs(s: string, i: nat)
    requires i <= |s| && (forall j :: 0 <= j < i ==> s[j] != '.') && (i < |s| ==> s[i] == '.')
    ensures FirstDot(s) == i
  {
  }

  /** A quantity is written from its parts in one way only. */
  lemma TextSplits(p: Parts)
    requires WellFormed(p)
    ensures Split(Text(p)) == p
  {
    hide ScaleOf, StripPlus, Text, Number;
    var body, number := Number(p) + p.suffix, Number(p);
    NumberChars(p);
    Stripped(p);
    LettersAfter(number, p.suffix);
    FirstDotIs(number, |p.whole|);
    NumberParts(p);
  }

  lemma NumberParts(p: Parts)
    ensures |p.whole| <= |Number(p)| && Number(p)[..|p.whole|] == p.whole
    ensures p.dot ==> |p.whole| < |Number(p)| && Number(p)[|p.whole| + 1..] == p.fraction
  {
  }

  lemma LettersAfter(number: string, suffix: string)
    requires (forall j :: 0 <= j < |number| ==> !IsLetter(number[j])) && (suffix != "" ==> IsLetter(suffix[0]))
    ensures FirstLetter(number + suffix) == |number|
    ensures (number + suffix)[..|number|] == number && (number + suffix)[|number|..] == suffix
  {
    FirstLetterIs(number + suffix, |number|);
  }

  lemma Stripped(p: Parts)
    requires Number(p) != "" && Number(p)[0] != '+'
    ensures StripPlus(Text(p)) == Number(p) + p.suffix
    ensures StripPlus(Text(p)) != Text(p) <==> p.plus
  {
    hide Number;
    var body := Number(p) + p.suffix;
    assert body[0] == Number(p)[0];
    Joined(if p.plus then "+" else "", Number(p), p.suffix);
    if p.plus {
      assert Text(p) == "+" + body && Text(p)[1..] == body;
    } else {
      assert Text(p) == body;
    }
  }

  lemma NumberChars(p: Parts)
    requires WellFormed(p)
    ensures var n := Number(p);
            && n != "" && n[0] != '+' && |p.whole| <= |n|
            && (forall j :: 0 <= j < |n| ==> !IsLetter(n[j]))
            && (forall j :: 0 <= j < |p.whole| ==> n[j] != '.')
            && (|p.whole| < |n| <==> p.dot) && (p.dot ==> n[|p.whole|] == '.')
  {
    hide ScaleOf;
    var number := Number(p);
    forall j | 0 <= j < |number| ensures IsDigit(number[j]) || (number[j] == '.' && j == |p.whole|) {
      if j < |p.whole| {
        assert number[j] == p.whole[j] && IsDigit(p.whole[j]);
      } else if j > |p.whole| {
        assert number[j] == p.fraction[j - |p.whole| - 1] && IsDigit(p.fraction[j - |p.whole| - 1]);
      }
    }
  }

  function Digitized(p: Parts): nat
    requires Digits(p.whole) && Digits(p.fraction)
  {
    ValAppend(p.whole, p.fraction);
    Val(p.whole + p.fraction)
  }

  /** The ratio computed from the parts, in checked 128-bit arithmetic. */
  function RatioOf(p: Parts): Option<(nat, nat)>
    requires WellFormed(p)
  {
    var digits := Digitized(p);
    var n, d := Checked(digits), Checked(Pow10(|p.fraction|));
    if n.None? || d.None? then None
    else
      match ScaleOf(p.suffix).value
      case Binary(bits) => Pair(Checked(Times(n.value, Pow2(bits))), d)
      case Decimal(power) =>
        var m := Checked(Pow10(if power >= 0 then power else -power));
        if m.None? then None
        else if power >= 0 then Pair(Checked(Times(n.value, m.value)), d)
        else Pair(n, Checked(Times(d.value, m.value)))
  }

  function Pair(n: Option<nat>, d: Option<nat>): Option<(nat, nat)> {
    if n.Some? && d.Some? then Some((n.value, d.value)) else None
  }

  function Ratio(q: string): Option<(nat, nat)> {
    if WellFormed(Split(q)) then RatioOf(Split(q)) else None
  }

  /** `quantity_ratio`. */
  method QuantityRatio(quantity: string) returns (r: Option<(nat, nat)>)
    ensures r == Ratio(quantity)
  {
    hide ScaleOf, Val, Pow10, Pow2, FirstDot, FirstLetter, Times;
    var body := StripPlus(quantity);
    var split := FirstLetter(body);
    var number, suffix := body[..split], body[split..];
    var dot := FirstDot(number);
    var whole := number[..dot];
    var fraction := if dot < |number| then number[dot + 1..] else "";
    ghost var p := Parts(body != quantity, whole, dot < |number|, fraction, suffix);
    assert Split(quantity) == p;
    assert suffix != "" ==> IsLetter(suffix[0]);
    hide Split;
    if (whole == "" && fraction == "") || !Digits(whole) || !Digits(fraction) {
      return None;
    }
    ValAppend(whole, fraction);
    var numerator := Val(whole + fraction);
    if numerator >= U128_LIMIT {
      return None;
    }
    var denominator := Pow10(|fraction|);
    if denominator >= U128_LIMIT {
      return None;
    }
    var scale := ScaleOf(suffix);
    var exponent := 0;
    match scale {
      case None => return None;
      case Some(Binary(bits)) =>
        numerator := Times(numerator, Pow2(bits));
        if numerator >= U128_LIMIT {
          return None;
        }
      case Some(Decimal(power)) => exponent := power;
    }
    Unit(numerator);
    var multiplier := Pow10(if exponent >= 0 then exponent else -exponent);
    if multiplier >= U128_LIMIT {
      return None;
    }
    if exponent >= 0 {
      numerator := Times(numerator, multiplier);
    } else {
      denominator := Times(denominator, multiplier);
    }
    if numerator >= U128_LIMIT || denominator >= U128_LIMIT {
      return None;
    }
    return Some((numerator, denominator));
  }

  lemma Unit(n: nat)
    ensures Pow10(0) == 1 && Times(n, 1) == n
  {
  }

  /** A ratio is accepted exactly for the texts of quantities that fit the arithmetic. */
  lemma RatioAccepts(q: string, r: (nat, nat))
    ensures Ratio(q) == Some(r) <==> exists p :: WellFormed(p) && Text(p) == q && RatioOf(p) == Some(r)
  {
    SplitText(q);
    if p :| WellFormed(p) && Text(p) == q && RatioOf(p) == Some(r) {
      TextSplits(p);
    }
  }

  lemma RatioIsExact(p: Parts, n: nat, d: nat)
    requires WellFormed(p) && RatioOf(p) == Some((n, d))
    ensures d > 0 && n as real / d as real == Denotes(p)
  {
    hide ScaleOf, Val, Pow10, Pow2, Times, Digitized;
    var v, t := Digitized(p), Pow10(|p.fraction|);
    assert v as real / t as real == Val(p.whole) as real + Val(p.fraction) as real / t as real by {
      DigitsExact(p);
    }
    match ScaleOf(p.suffix).value
    case Binary(bits) => Scaled(v, t, Pow2(bits));
    case Decimal(power) =>
      if power >= 0 {
        Scaled(v, t, Pow10(power));
      } else {
        Unscaled(v, t, Pow10(-power));
      }
  }

  lemma DigitsExact(p: Parts)
    requires Digits(p.whole) && Digits(p.fraction)
    ensures var t := Pow10(|p.fraction|) as real;
            Digitized(p) as real / t == Val(p.whole) as real + Val(p.fraction) as real / t
  {
    hide Val, Pow10;
    ValAppend(p.whole, p.fraction);
    RealTimes(Val(p.whole), Pow10(|p.fraction|));
    Sum(Val(p.whole) as real, Val(p.fraction) as real, Pow10(|p.fraction|) as real);
  }

  lemma RealTimes(a: nat, b: nat)
    ensures Times(a, b) as real == a as real * b as real
    ensures Times(a, b) == a * b
    ensures a > 0 && b > 0 ==> Times(a, b) > 0
  {
  }

  lemma Scaled(v: nat, t: nat, m: nat)
    requires t > 0
    ensures Times(v, m) as real / t as real == v as real / t as real * m as real
  {
    hide Times;
    RealTimes(v, m);
    TimesOver(v as real, t as real, m as real);
  }

  lemma Unscaled(v: nat, t: nat, m: nat)
    requires t > 0 && m > 0
    ensures Times(t, m) > 0 && v as real / Times(t, m) as real == v as real / t as real * (1.0 / m as real)
  {
    hide Times;
    RealTimes(t, m);
    Over(v as real, t as real, m as real);
  }

  lemma Sum(w: real, f: real, t: real)
    requires t > 0.0
    ensures (w * t + f) / t == w + f / t
  {
  }

  lemma TimesOver(v: real, t: real, m: real)
    requires t > 0.0
    ensures v * m / t == v / t * m
  {
  }

  lemma Over(v: real, t: real, m: real)
    requires t > 0.0 && m > 0.0
    ensures t * m > 0.0 && v / (t * m) == v / t * (1.0 / m)
  {
  }

  // ---------------------------------------------------------------------------- capacity

  /** `home_volume_capacity_bytes`. */
  function CapacityBytes(q: string): Option<nat> {
    var r := Ratio(q);
    if r.None? || r.value.1 == 0 || r.value.0 % r.value.1 != 0 then None
    else if r.value.0 / r.value.1 <= I64_MAX then Some(r.value.0 / r.value.1)
    else None
  }

  /**
   A byte count is returned exactly when the text is a quantity that fits, denotes
   a whole number and is within range; and it is that number.
   */
  lemma CapacityIsExact(q: string, b: nat)
    ensures CapacityBytes(q) == Some(b) <==>
              exists p :: WellFormed(p) && Text(p) == q && RatioOf(p).Some?
                          && Denotes(p) == b as real && b <= I64_MAX
  {
    SplitText(q);
    if CapacityBytes(q) == Some(b) {
      var p := Split(q);
      RatioIsExact(p, RatioOf(p).value.0, RatioOf(p).value.1);
      WholeRatio(RatioOf(p).value.0, RatioOf(p).value.1, b);
      assert WellFormed(p) && Text(p) == q;
    }
    if p :| WellFormed(p) && Text(p) == q && RatioOf(p).Some? && Denotes(p) == b as real && b <= I64_MAX {
      TextSplits(p);
      RatioIsExact(p, RatioOf(p).value.0, RatioOf(p).value.1);
      WholeRatio(RatioOf(p).value.0, RatioOf(p).value.1, b);
    }
  }

  lemma WholeRatio(n: nat, d: nat, b: nat)
    requires d > 0
    ensures (n % d == 0 && n / d == b) <==> n as real / d as real == b as real
  {
    if n % d == 0 && n / d == b {
      assert n == b * d;
      assert n as real == b as real * d as real;
    }
    if n as real / d as real == b as real {
      assert n as real == b as real * d as real;
      assert n == b * d;
      QuotientIs(n, d, b, 0);
    }
  }

  /** `capacity_is_sufficient`. */
  predicate Sufficient(q: string, gib: nat)
    requires gib < U64_LIMIT
  {
    gib * GIB < U64_LIMIT && CapacityBytes(q).Some? && CapacityBytes(q).value >= gib * GIB
  }

  /** The overflow check never changes the answer: it is the true comparison. */
  lemma SufficientIsTrue(q: string, gib: nat)
    requires gib < U64_LIMIT
    ensures Sufficient(q, gib) <==>
              exists p :: WellFormed(p) && Text(p) == q && CapacityBytes(q).Some?
                          && Denotes(p) >= gib as real * GIB as real
  {
    hide CapacityBytes, Denotes, WellFormed, Text;
    if CapacityBytes(q).Some? {
      var b := CapacityBytes(q).value;
      CapacityIsExact(q, b);
      assert gib as real * GIB as real == (gib * GIB) as real;
      var x :| WellFormed(x) && Text(x) == q && RatioOf(x).Some? && Denotes(x) == b as real && b <= I64_MAX;
      TextSplits(x);
      forall p | WellFormed(p) && Text(p) == q ensures p == x {
        TextSplits(p);
      }
      assert b >= gib * GIB <==> b as real >= (gib * GIB) as real;
    }
  }

  // ---------------------------------------------------------------------------- printing

  function DigitText(n: nat): (c: char)
    requires n < 10
    ensures IsDigit(c) && (c - '0') as int == n
  {
    '0' + n as char
  }

  function Decimals(n: nat): (s: string)
    ensures Digits(s) && s != "" && Val(s) == n
  {
    if n < 10 then [DigitText(n)]
    else
      var s := Decimals(n / 10) + [DigitText(n % 10)];
      assert s[..|s| - 1] == Decimals(n / 10);
      s
  }

  /** A size printed as the coordinator requests it is read back as that size. */
  lemma RequestedSizeRoundTrips(gib: nat)
    ensures gib * GIB <= I64_MAX ==> CapacityBytes(Decimals(gib) + "Gi") == Some(gib * GIB)
    ensures gib * GIB > I64_MAX ==> CapacityBytes(Decimals(gib) + "Gi") == None
  {
    hide Pow2, Decimals, Split, Text, Val, Times;
    var p := Parts(false, Decimals(gib), false, "", "Gi");
    TextSplits(p);
    GibText(p, gib);
    GibIs();
    GibRatio(p, gib);
  }

  lemma GibText(p: Parts, gib: nat)
    requires p == Parts(false, Decimals(gib), false, "", "Gi")
    ensures Text(p) == Decimals(gib) + "Gi"
  {
    hide Decimals;
  }

  lemma GibRatio(p: Parts, gib: nat)
    requires p == Parts(false, Decimals(gib), false, "", "Gi")
    ensures WellFormed(p) && RatioOf(p) == if gib * GIB < U128_LIMIT then Some((gib * GIB, 1)) else None
  {
    hide Decimals, Val, Pow2;
    assert p.whole + p.fraction == p.whole;
    GibIs();
  }

  lemma GibIs()
    ensures Pow2(30) == GIB
  {
    assert Pow2(10) == 1024;
    assert Pow2(20) == 1024 * Pow2(10) by { Pow2Sum(10, 10); }
    assert Pow2(30) == 1024 * Pow2(20) by { Pow2Sum(20, 10); }
  }

  // ---------------------------------------------------------------------------- suffixes

  /** The named suffixes, each a thousand times the one before. */
  const DECIMAL_SUFFIXES: seq<string> := ["n", "u", "m", "", "k", "M", "G", "T", "P", "E"]

  /** The binary ones, each 1024 times the one before. */
  const BINARY_SUFFIXES: seq<string> := ["", "Ki", "Mi", "Gi", "Ti", "Pi", "Ei"]

  /** The number without its suffix. */
  function Plain(p: Parts): real
    requires Digits(p.whole) && Digits(p.fraction)
  {
    Val(p.whole) as real + Val(p.fraction) as real / Pow10(|p.fraction|) as real
  }

  lemma WithoutSuffix(p: Parts)
    requires WellFormed(p)
    ensures WellFormed(p.(suffix := "")) && Denotes(p.(suffix := "")) == Plain(p)
  {
    hide Val;
  }

  lemma NextScale(x: real, f: real, g: real, m: real)
    requires g == m * f
    ensures x * g == m * (x * f)
  {
  }

  lemma BinaryFactor(bits: nat)
    ensures Factor(Binary(bits + 10)) == 1024.0 * Factor(Binary(bits))
  {
    assert Pow2(10) == 1024;
    Pow2Sum(bits, 10);
  }

  lemma DecimalFactor(power: int)
    ensures Factor(Decimal(power + 3)) == 1000.0 * Factor(Decimal(power))
  {
    DecimalStep(power);
    DecimalStep(power + 1);
    DecimalStep(power + 2);
  }

  lemma DecimalStep(power: int)
    ensures Factor(Decimal(power + 1)) == 10.0 * Factor(Decimal(power))
  {
    if power < 0 {
      assert Pow10(-power) == 10 * Pow10(-power - 1);
      Tenth(Pow10(-power - 1));
    }
  }

  lemma Tenth(n: nat)
    requires n > 0
    ensures 1.0 / n as real == 10.0 * (1.0 / (10 * n) as real)
  {
    var x := n as real;
    assert (10 * n) as real == 10.0 * x;
    Cancel(x);
  }

  lemma Cancel(x: real)
    requires x > 0.0
    ensures 1.0 / x == 10.0 * (1.0 / (10.0 * x))
  {
  }

  /** Each binary suffix denotes 1024 times as much as the one before it, on every number. */
  lemma BinarySuffixesScale(p: Parts, k: nat)
    requires WellFormed(p) && k + 1 < |BINARY_SUFFIXES|
    ensures var q, r := p.(suffix := BINARY_SUFFIXES[k]), p.(suffix := BINARY_SUFFIXES[k + 1]);
            WellFormed(q) && WellFormed(r) && Denotes(r) == 1024.0 * Denotes(q)
  {
    hide Val, Pow2, Pow10, Digits, Factor;
    BinaryFactor(10 * k);
    SameUnit();
    assert ScaleOf(BINARY_SUFFIXES[k + 1]) == Some(Binary(10 * k + 10));
    NextScale(Plain(p), Factor(ScaleOf(BINARY_SUFFIXES[k]).value), Factor(Binary(10 * k + 10)), 1024.0);
  }

  lemma SameUnit()
    ensures Factor(Binary(0)) == Factor(Decimal(0)) == 1.0
  {
  }

  /** Each decimal suffix denotes 1000 times as much as the one before it, on every number. */
  lemma DecimalSuffixesScale(p: Parts, k: nat)
    requires WellFormed(p) && k + 1 < |DECIMAL_SUFFIXES|
    ensures var q, r := p.(suffix := DECIMAL_SUFFIXES[k]), p.(suffix := DECIMAL_SUFFIXES[k + 1]);
            WellFormed(q) && WellFormed(r) && Denotes(r) == 1000.0 * Denotes(q)
  {
    hide Val, Pow2, Pow10, Digits, Factor;
    DecimalFactor(3 * k - 9);
    assert ScaleOf(DECIMAL_SUFFIXES[k]) == Some(Decimal(3 * k - 9));
    assert ScaleOf(DECIMAL_SUFFIXES[k + 1]) == Some(Decimal(3 * k - 6));
    NextScale(Plain(p), Factor(Decimal(3 * k - 9)), Factor(Decimal(3 * k - 6)), 1000.0);
  }

  predicate ExponentMark(e: char) { e == 'e' || e == 'E' }

  /** An exponent of n digits, plain or signed, shifts the number by that many places, up or down. */
  lemma ExponentsShift(p: Parts, e: char, n: string)
    requires WellFormed(p) && ExponentMark(e) && Digits(n) && n != "" && Val(n) <= 0x7fff_ffff
    ensures var up, plus, down := p.(suffix := [e] + n), p.(suffix := [e] + "+" + n), p.(suffix := [e] + "-" + n);
            && WellFormed(up) && WellFormed(plus) && WellFormed(down)
            && Denotes(up) == Denotes(plus) == Plain(p) * Pow10(Val(n)) as real
            && Denotes(down) * Pow10(Val(n)) as real == Plain(p)
  {
    hide *;
    Numeric(p);
    ExponentScale(e, n);
    Shifted(Plain(p), Val(n));
    MarkedSuffix(e, n);
    PlainTimes(p, [e] + n);
    PlainTimes(p, [e] + "+" + n);
    PlainTimes(p, [e] + "-" + n);
  }

  lemma Numeric(p: Parts)
    requires WellFormed(p)
    ensures Digits(p.whole) && Digits(p.fraction)
  {
  }

  lemma MarkedSuffix(e: char, n: string)
    requires ExponentMark(e)
    ensures forall s: string :: s in {[e] + n, [e] + "+" + n, [e] + "-" + n} ==> s != "" && IsLetter(s[0])
  {
  }

  lemma PlainTimes(p: Parts, suffix: string)
    requires WellFormed(p) && ScaleOf(suffix).Some? && suffix != "" && IsLetter(suffix[0])
    ensures WellFormed(p.(suffix := suffix))
    ensures Denotes(p.(suffix := suffix)) == Plain(p) * Factor(ScaleOf(suffix).value)
  {
    hide ScaleOf, Factor, Val, Pow10;
  }

  lemma Shifted(x: real, n: nat)
    ensures Factor(Decimal(n)) == Pow10(n) as real
    ensures x * Factor(Decimal(0 - n)) * Pow10(n) as real == x
  {
    hide *;
    PlaceFactors(n);
    Undone(x, Factor(Decimal(0 - n)), Pow10(n) as real);
  }

  lemma PlaceFactors(n: nat)
    ensures Factor(Decimal(n)) == Pow10(n) as real
    ensures Factor(Decimal(0 - n)) * Pow10(n) as real == 1.0
  {
    if n == 0 {
      assert Pow10(0) == 1;
    } else {
      hide Pow10;
      Inverse(Pow10(n) as real);
    }
  }

  lemma Inverse(y: real)
    requires y > 0.0
    ensures 1.0 / y * y == 1.0
  {
  }

  lemma Undone(x: real, f: real, y: real)
    requires f * y == 1.0
    ensures x * f * y == x
  {
    assert x * f * y == x * (f * y);
  }

  lemma ExponentScale(e: char, n: string)
    requires ExponentMark(e) && Digits(n) && n != "" && Val(n) <= 0x7fff_ffff
    ensures ScaleOf([e] + n) == ScaleOf([e] + "+" + n) == Some(Decimal(Val(n)))
    ensures ScaleOf([e] + "-" + n) == Some(Decimal(0 - Val(n)))
  {
    hide Val, ScaleOf, Signed, SignedVal;
    assert IsDigit(n[0]);
    SignedDigits(n);
    SuffixIs(e, n);
    SuffixIs(e, "+" + n);
    SuffixIs(e, "-" + n);
    assert [e] + "+" + n == [e] + ("+" + n) && [e] + "-" + n == [e] + ("-" + n);
  }

  lemma SignedDigits(n: string)
    requires Digits(n) && n != ""
    ensures Signed(n) && SignedVal(n) == Val(n)
    ensures Signed("+" + n) && SignedVal("+" + n) == Val(n)
    ensures Signed("-" + n) && SignedVal("-" + n) == 0 - Val(n)
  {
    hide Val;
    assert IsDigit(n[0]);
    assert ("+" + n)[1..] == n && ("-" + n)[1..] == n;
  }

  lemma SuffixIs(e: char, rest: string)
    requires ExponentMark(e) && rest != "" && (IsDigit(rest[0]) || rest[0] in {'+', '-'})
    ensures ScaleOf([e] + rest) ==
            if Signed(rest) && -0x8000_0000 <= SignedVal(rest) <= 0x7fff_ffff then Some(Decimal(SignedVal(rest)))
            else None
  {
    hide Signed, SignedVal;
    var s := [e] + rest;
    assert s[0] == e && s[1] == rest[0] && s[1..] == rest && |s| >= 2;
  }

  /** There are no other suffixes. */
  lemma SuffixesAccepted(s: string)
    ensures ScaleOf(s).Some? <==>
              || s in DECIMAL_SUFFIXES || s in BINARY_SUFFIXES
              || (|s| > 1 && ExponentMark(s[0]) && Signed(s[1..])
                  && -0x8000_0000 <= SignedVal(s[1..]) <= 0x7fff_ffff)
  {
    hide Signed, SignedVal;
    if |s| == 1 && ExponentMark(s[0]) {
      NotSigned(s[1..]);
    }
    assert DECIMAL_SUFFIXES[0] == "n" && DECIMAL_SUFFIXES[9] == "E";
    forall k | 0 <= k < |DECIMAL_SUFFIXES| ensures ScaleOf(DECIMAL_SUFFIXES[k]).Some? {
    }
    forall k | 0 <= k < |BINARY_SUFFIXES| ensures ScaleOf(BINARY_SUFFIXES[k]).Some? {
    }
  }

  lemma NotSigned(s: string)
    requires s == ""
    ensures !Signed(s)
  {
  }

  // ------------------------------------------------------------------------ what always fits

  lemma {:induction false} ValBelow(s: string)
    requires Digits(s)
    ensures Val(s) < Pow10(|s|)
  {
    if s != "" {
      assert IsDigit(s[|s| - 1]);
      ValBelow(s[..|s| - 1]);
    }
  }

  lemma {:induction false} Pow10Grows(a: nat, b: nat)
    requires a <= b
    ensures Pow10(a) <= Pow10(b)
  {
    if a < b {
      Pow10Grows(a, b - 1);
    }
  }

  lemma {:induction false} Pow2Grows(a: nat, b: nat)
    requires a <= b
    ensures Pow2(a) <= Pow2(b)
  {
    if a < b {
      Pow2Grows(a, b - 1);
    }
  }

  lemma TimesGrows(a: nat, b: nat, c: nat, d: nat)
    requires a <= c && b <= d
    ensures Times(a, b) <= Times(c, d)
  {
    assert a * b <= c * b <= c * d;
  }

  lemma Bounds()
    ensures Pow10(20) == 100_000_000_000_000_000_000 && Pow10(18) == 1_000_000_000_000_000_000
    ensures Pow2(60) == 0x1000_0000_0000_0000
  {
    assert Pow10(10) == 10_000_000_000;
    assert Pow10(18) == 1_000_000_000_000_000_000;
    GibIs();
    Pow2Sum(30, 30);
  }

  /** A quantity of up to twenty digits with a named suffix never overflows the arithmetic. */
  lemma OrdinaryQuantitiesFit(p: Parts)
    requires WellFormed(p) && |p.whole| + |p.fraction| <= 20
    requires p.suffix in DECIMAL_SUFFIXES || p.suffix in BINARY_SUFFIXES
    ensures RatioOf(p).Some?
  {
    hide Val, Pow10, Pow2, Times, Digits;
    Bounds();
    ValAppend(p.whole, p.fraction);
    ValBelow(p.whole + p.fraction);
    Pow10Grows(|p.whole| + |p.fraction|, 20);
    Pow10Grows(|p.fraction|, 20);
    var v, t := Digitized(p), Pow10(|p.fraction|);
    NamedScales(p.suffix);
    match ScaleOf(p.suffix).value
    case Binary(bits) =>
      Pow2Grows(bits, 60);
      TimesGrows(v, Pow2(bits), Pow10(20), Pow2(60));
      RealTimes(Pow10(20), Pow2(60));
    case Decimal(power) =>
      var m := if power >= 0 then power else -power;
      Pow10Grows(m, 18);
      TimesGrows(v, Pow10(m), Pow10(20), Pow10(18));
      TimesGrows(t, Pow10(m), Pow10(20), Pow10(18));
      RealTimes(Pow10(20), Pow10(18));
  }

  lemma NamedScales(suffix: string)
    requires suffix in DECIMAL_SUFFIXES || suffix in BINARY_SUFFIXES
    ensures ScaleOf(suffix).Some?
    ensures match ScaleOf(suffix).value case Binary(bits) => bits <= 60 case Decimal(power) => -18 <= power <= 18
  {
  }
}
