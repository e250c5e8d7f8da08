/** What the texts of quantities denote, and what a limit between two of them means
    (resource.ParseQuantity as used in internal/definition/limits.go). */
module Quantities {
  import opened Wrappers
  import opened Json
  import opened Definition
  import opened Quantity
  import opened Limits

  /** The units of the Kubernetes documentation, in numbers. */
  const UNITS: map<string, real> := map[
    "" := 1.0,
    "n" := 0.000000001, "u" := 0.000001, "m" := 0.001,
    "k" := 1000.0, "M" := 1000000.0, "G" := 1000000000.0, "T" := 1000000000000.0,
    "P" := 1000000000000000.0, "E" := 1000000000000000000.0,
    "Ki" := 1024.0, "Mi" := 1048576.0, "Gi" := 1073741824.0, "Ti" := 1099511627776.0,
    "Pi" := 1125899906842624.0, "Ei" := 1152921504606846976.0]

  lemma {:induction false} PowSplits(base: nat, m: nat, n: nat)
    ensures Pow(base, m + n) == Pow(base, m) * Pow(base, n)
  {
    if m > 0 {
      PowSplits(base, m - 1, n);
      var p, q := Pow(base, m - 1), Pow(base, n);
      assert Pow(base, m + n) == base * (p * q) && Pow(base, m) == base * p;
      Associates(base, p, q);
    }
  }

  lemma Associates(a: nat, b: nat, c: nat)
    ensures a * (b * c) == (a * b) * c
  {
  }

  lemma BinaryPowers()
    ensures Pow(2, 10) == 1024 && Pow(2, 20) == 1048576 && Pow(2, 30) == 1073741824
    ensures Pow(2, 40) == 1099511627776 && Pow(2, 50) == 1125899906842624 && Pow(2, 60) == 1152921504606846976
  {
    assert Pow(2, 5) == 32;
    PowSplits(2, 5, 5);
    PowSplits(2, 10, 10);
    PowSplits(2, 20, 10);
    PowSplits(2, 20, 20);
    PowSplits(2, 30, 20);
    PowSplits(2, 30, 30);
  }

  lemma DecimalPowers()
    ensures Pow(10, 3) == 1000 && Pow(10, 6) == 1000000 && Pow(10, 9) == 1000000000
    ensures Pow(10, 12) == 1000000000000 && Pow(10, 15) == 1000000000000000 && Pow(10, 18) == 1000000000000000000
  {
    assert Pow(10, 3) == 1000;
    PowSplits(10, 3, 3);
    PowSplits(10, 6, 3);
    PowSplits(10, 6, 6);
    PowSplits(10, 9, 6);
    PowSplits(10, 9, 9);
  }

  lemma UnitFactor(u: string)
    requires u in UNITS
    ensures SuffixFactor(u) == Some(UNITS[u])
  {
    BinaryPowers();
    DecimalPowers();
    hide Pow;
  }

  // --- digits behind the point ---

  /** The number 0.f, digit by digit from the left. */
  function Fraction(f: string): real
    requires AllDigits(f, 0, |f|)
  {
    if f == "" then 0.0 else (DigitValue(f[0]) as real + Fraction(f[1..])) / 10.0
  }

  lemma {:induction false} DigitRunFromTheLeft(s: string, lo: nat, hi: nat)
    requires lo < hi <= |s| && AllDigits(s, lo, hi)
    ensures DigitRun(s, lo, hi) == DigitValue(s[lo]) * Pow(10, hi - lo - 1) + DigitRun(s, lo + 1, hi)
    decreases hi
  {
    if lo + 1 < hi {
      DigitRunFromTheLeft(s, lo, hi - 1);
      assert Pow(10, hi - lo - 1) == 10 * Pow(10, hi - lo - 2);
    } else {
      assert DigitRun(s, lo, lo) == 0 && DigitRun(s, hi, hi) == 0;
    }
  }

  lemma {:induction false} FractionOfDigits(s: string, lo: nat, hi: nat)
    requires lo <= hi <= |s| && AllDigits(s, lo, hi)
    ensures DigitRun(s, lo, hi) as real == Times(Fraction(s[lo..hi]), Pow(10, hi - lo) as real)
    decreases hi - lo
  {
    hide Times, DigitRun, Pow, Fraction;
    if lo == hi {
      assert s[lo..hi] == "";
      NoDigits(s, lo);
    } else {
      FractionOfDigits(s, lo + 1, hi);
      DigitRunFromTheLeft(s, lo, hi);
      FractionFromTheLeft(s, lo, hi);
      PowSplits(10, 1, hi - lo - 1);
      TenToTheOne();
      FractionStep(DigitRun(s, lo, hi), DigitValue(s[lo]), Pow(10, hi - lo - 1), DigitRun(s, lo + 1, hi),
                   Fraction(s[lo..hi]), Fraction(s[lo + 1..hi]), Pow(10, hi - lo));
    }
  }

  lemma NoDigits(s: string, lo: nat)
    requires lo <= |s|
    ensures DigitRun(s, lo, lo) == 0 && Fraction("") == 0.0 && forall x :: Times(0.0, x) == 0.0
  {
  }

  lemma FractionFromTheLeft(s: string, lo: nat, hi: nat)
    requires lo < hi <= |s| && AllDigits(s, lo, hi)
    ensures Fraction(s[lo..hi]) == (DigitValue(s[lo]) as real + Fraction(s[lo + 1..hi])) / 10.0
  {
    assert s[lo..hi][1..] == s[lo + 1..hi];
  }

  lemma TenToTheOne()
    ensures Pow(10, 1) == 10
  {
  }

  lemma FractionStep(run: nat, d: nat, p: nat, rest: nat, f: real, q: real, big: nat)
    requires run == d * p + rest && rest as real == Times(q, p as real)
    requires f == (d as real + q) / 10.0 && big == 10 * p
    ensures run as real == Times(f, big as real)
  {
    var r := p as real;
    assert big as real == 10.0 * r && (d * p) as real == d as real * r;
    assert 10.0 * f == d as real + q;
    assert (10.0 * f) * r == (d as real + q) * r;
  }

  // --- reading a text ---

  /** A sign or none. */
  predicate IsSign(sign: string) {
    sign == "" || sign == "-" || sign == "+"
  }

  /** What may follow the digits and is none of them. */
  predicate Follows(u: string) {
    u != "" ==> !IsDigit(u[0]) && u[0] != '.'
  }

  /** The number in front of the suffix. */
  function Signed(sign: string, m: nat, f: string): real
    requires AllDigits(f, 0, |f|)
  {
    if sign == "-" then -(m as real + Fraction(f)) else m as real + Fraction(f)
  }

  lemma DigitsStandThere(s: string, sign: string, m: nat, rest: string)
    requires IsSign(sign) && s == sign + Digits(m) + rest && (rest != "" ==> !IsDigit(rest[0]))
    ensures var lo, hi := |sign|, |sign| + |Digits(m)|;
      && AllDigits(s, lo, hi) && DigitsEnd(s, lo) == hi && DigitRun(s, lo, hi) == m && s[hi..] == rest
      && lo == (if s != "" && (s[0] == '-' || s[0] == '+') then 1 else 0)
      && (s[0] == '-' <==> sign == "-")
  {
    var lo, hi := |sign|, |sign| + |Digits(m)|;
    var t := sign + Digits(m);
    DigitsReadBack(m, sign);
    DigitsStart(m);
    DigitRunPrefix(t, s, lo, hi);
    assert forall i | 0 <= i < hi :: s[i] == t[i];
    assert s[lo] == Digits(m)[0];
    DigitsEndAt(s, lo, hi);
  }

  lemma WholePart(sign: string, m: nat, u: string)
    requires IsSign(sign) && Follows(u)
    ensures Dissect(sign + Digits(m) + u) == Parts(sign == "-", |Digits(m)|, m as real, u)
  {
    DigitsStandThere(sign + Digits(m) + u, sign, m, u);
  }

  lemma FractionalPart(sign: string, m: nat, f: string, u: string)
    requires IsSign(sign) && Follows(u) && AllDigits(f, 0, |f|)
    ensures Dissect(sign + Digits(m) + ("." + f + u)) == Parts(sign == "-", |Digits(m)| + |f|, m as real + Fraction(f), u)
  {
    var s, hi := sign + Digits(m) + ("." + f + u), |sign| + |Digits(m)|;
    DigitsStandThere(s, sign, m, "." + f + u);
    DigitsBehindThePoint(s, hi, f, u);
    DissectedWithPoint(s, sign, m, hi, f, u);
  }

  lemma DissectedWithPoint(s: string, sign: string, m: nat, hi: nat, f: string, u: string)
    requires AllDigits(f, 0, |f|) && |sign| <= hi <= |s| && s[hi..] == "." + f + u && s != ""
    requires s[0] == '-' <==> sign == "-"
    requires |sign| == (if s != "" && (s[0] == '-' || s[0] == '+') then 1 else 0)
    requires DigitsEnd(s, |sign|) == hi && DigitRun(s, |sign|, hi) == m
    requires var end := hi + 1 + |f|;
      && end <= |s| && DigitsEnd(s, hi + 1) == end && s[end..] == u
      && Pow(10, |f|) > 0 && DigitRun(s, hi + 1, end) as real / Pow(10, |f|) as real == Fraction(f)
    ensures Dissect(s) == Parts(sign == "-", hi - |sign| + |f|, m as real + Fraction(f), u)
  {
    hide DigitsEnd, DigitRun, Fraction, Pow, AllDigits;
    assert s[hi] == s[hi..][0] == '.';
  }

  lemma DigitsBehindThePoint(s: string, hi: nat, f: string, u: string)
    requires hi <= |s| && s[hi..] == "." + f + u && Follows(u) && AllDigits(f, 0, |f|)
    ensures var end := hi + 1 + |f|;
      && hi + 1 <= |s| && end <= |s| && DigitsEnd(s, hi + 1) == end && s[end..] == u
      && Pow(10, |f|) > 0 && DigitRun(s, hi + 1, end) as real / Pow(10, |f|) as real == Fraction(f)
  {
    hide Fraction, Pow, DigitRun, Times;
    var rest, end := "." + f + u, hi + 1 + |f|;
    assert |s| == hi + |rest|;
    assert forall i | hi <= i < |s| :: s[i] == rest[i - hi];
    assert s[hi + 1..end] == f && s[end..] == u;
    forall i | hi + 1 <= i < end ensures IsDigit(s[i]) {
      assert s[i] == f[i - hi - 1];
    }
    DigitsEndAt(s, hi + 1, end);
    FractionOfDigits(s, hi + 1, end);
    PowPositive(10, |f|);
    QuotientIs(DigitRun(s, hi + 1, end) as real, Fraction(f), Pow(10, |f|) as real);
  }

  lemma QuotientIs(a: real, q: real, p: real)
    requires p > 0.0 && a == Times(q, p)
    ensures a / p == q
  {
  }

  lemma ParseFromParts(s: string, p: Parts, number: real, factor: real)
    requires s != "" && Dissect(s) == p && SuffixFactor(p.suffix) == Some(factor) && p.Number() == number
    ensures ParseQuantity(s) == Some(Times(number, factor))
  {
    hide Dissect, SuffixFactor, Parts.Number, Times;
  }

  /** Sign, digits, unit: the number times the unit. */
  lemma QuantityReads(sign: string, m: nat, u: string)
    requires IsSign(sign) && u in UNITS
    ensures ParseQuantity(sign + Digits(m) + u) == Some(Times(Signed(sign, m, ""), UNITS[u]))
  {
    hide Dissect, SuffixFactor, ParseQuantity, Times;
    WholePart(sign, m, u);
    UnitFactor(u);
    ParseFromParts(sign + Digits(m) + u, Parts(sign == "-", |Digits(m)|, m as real, u), Signed(sign, m, ""), UNITS[u]);
  }

  /** The same with digits behind a point. */
  lemma FractionReads(sign: string, m: nat, f: string, u: string)
    requires IsSign(sign) && AllDigits(f, 0, |f|) && u in UNITS
    ensures ParseQuantity(sign + Digits(m) + ("." + f + u)) == Some(Times(Signed(sign, m, f), UNITS[u]))
  {
    hide Dissect, SuffixFactor, Fraction, ParseQuantity, Times;
    FractionalPart(sign, m, f, u);
    UnitFactor(u);
    ParseFromParts(sign + Digits(m) + ("." + f + u), Parts(sign == "-", |Digits(m)| + |f|, m as real + Fraction(f), u),
                   Signed(sign, m, f), UNITS[u]);
  }

  /** A printed integer and a unit. */
  lemma SizeReads(n: int, u: string)
    requires u in UNITS
    ensures ParseQuantity(Itoa(n) + u) == Some(Times(n as real, UNITS[u]))
    ensures Times(n as real, UNITS[u]) == n as real * UNITS[u]
  {
    hide ParseQuantity;
    if n < 0 {
      QuantityReads("-", -n, u);
    } else {
      QuantityReads("", n, u);
      assert "" + Digits(n) + u == Itoa(n) + u;
    }
  }

  // --- exponents ---

  /** The powers of ten: one at zero, and each ten times the one before. */
  lemma PowersOfTen(e: int)
    ensures Pow10(0) == 1.0 && Pow10(e + 1) == 10.0 * Pow10(e)
  {
    PowPositive(10, if e < 0 then -e else e);
    if e < -1 {
      PowPositive(10, -e - 1);
      var p := Pow(10, -e - 1);
      assert Pow(10, -e) == 10 * p;
      TenthOf(p as real);
    }
  }

  lemma TenthOf(p: real)
    requires p > 0.0
    ensures 1.0 / p == 10.0 * (1.0 / (10.0 * p))
  {
  }

  lemma IntegerReads(e: int)
    ensures ParseInt(Itoa(e)) == Some(e)
  {
    var m, sign := if e < 0 then -e else e, if e < 0 then "-" else "";
    assert Itoa(e) == sign + Digits(m) + "";
    DigitsStandThere(Itoa(e), sign, m, "");
  }

  /** Digits and an exponent, "3e2" or "3E2": the number times that power of ten. */
  lemma ExponentReads(n: int, e: int, letter: char)
    requires letter == 'e' || letter == 'E'
    ensures ParseQuantity(Itoa(n) + ([letter] + Itoa(e))) == Some(Times(n as real, Pow10(e)))
  {
    var u := [letter] + Itoa(e);
    assert u[1..] == Itoa(e) && |u| > 1;
    hide ParseInt, SuffixFactor, ParseQuantity, Itoa, Pow10, Times, Follows;
    assert Follows(u) by { LetterFollows(u); }
    IntegerReads(e);
    ExponentFactor(u, e);
    SuffixedReads(n, u, Pow10(e));
  }

  lemma LetterFollows(u: string)
    requires |u| > 1 && (u[0] == 'e' || u[0] == 'E')
    ensures Follows(u)
  {
  }

  lemma SuffixedReads(n: int, u: string, factor: real)
    requires Follows(u) && SuffixFactor(u) == Some(factor)
    ensures ParseQuantity(Itoa(n) + u) == Some(Times(n as real, factor))
  {
    hide Dissect, SuffixFactor, ParseQuantity, Times;
    var sign, m := if n < 0 then "-" else "", if n < 0 then -n else n;
    WholePart(sign, m, u);
    assert sign + Digits(m) + u == Itoa(n) + u;
    ParseFromParts(Itoa(n) + u, Parts(n < 0, |Digits(m)|, m as real, u), n as real, factor);
  }

  lemma ExponentFactor(u: string, e: int)
    requires |u| > 1 && (u[0] == 'e' || u[0] == 'E') && ParseInt(u[1..]) == Some(e)
    ensures SuffixFactor(u) == Some(Pow10(e))
  {
    assert "Ei"[1..] == "i" && ParseInt("i") == None;
    hide ParseInt, Pow10;
  }

  // --- limits ---

  /** A size against an upper limit, each in its own unit: accepted exactly when it is no
      larger as a number. */
  lemma UpperLimitMeans(plan: Plan, key: string, n: int, s: string, m: int, t: string, fmt: FloatFormat)
    requires s in UNITS && t in UNITS && key in plan.parameterLimits
    requires plan.parameterLimits[key] == ParameterLimit(Itoa(m) + t, "", [])
    ensures CheckLimit(plan.parameterLimits[key], Str(Itoa(n) + s), fmt) == if n as real * UNITS[s] <= m as real * UNITS[t] then Accept else Reject
    ensures WithinLimits(plan, map[key := Str(Itoa(n) + s)], fmt) <==> n as real * UNITS[s] <= m as real * UNITS[t]
  {
    hide ParseQuantity;
    SizeReads(n, s);
    SizeReads(m, t);
    var limit := plan.parameterLimits[key];
    assert ReadableLimit(limit) && limit.HasBounds();
    CheckLimitDecides(limit, Str(Itoa(n) + s), fmt);
  }

  /** And against a lower one. */
  lemma LowerLimitMeans(plan: Plan, key: string, n: int, s: string, m: int, t: string, fmt: FloatFormat)
    requires s in UNITS && t in UNITS && key in plan.parameterLimits
    requires plan.parameterLimits[key] == ParameterLimit("", Itoa(m) + t, [])
    ensures CheckLimit(plan.parameterLimits[key], Str(Itoa(n) + s), fmt) == if n as real * UNITS[s] >= m as real * UNITS[t] then Accept else Reject
    ensures WithinLimits(plan, map[key := Str(Itoa(n) + s)], fmt) <==> n as real * UNITS[s] >= m as real * UNITS[t]
  {
    hide ParseQuantity;
    SizeReads(n, s);
    SizeReads(m, t);
    var limit := plan.parameterLimits[key];
    assert ReadableLimit(limit) && limit.HasBounds();
    CheckLimitDecides(limit, Str(Itoa(n) + s), fmt);
  }

  /** Numbers sent as JSON numbers are compared with the same limits. */
  lemma NumberAgainstLimit(n: int, m: int, t: string, fmt: FloatFormat)
    requires t in UNITS
    ensures CheckLimit(ParameterLimit(Itoa(m) + t, "", []), Int(n), fmt) == if n as real <= m as real * UNITS[t] then Accept else Reject
  {
    hide ParseQuantity;
    SizeReads(n, "");
    assert Itoa(n) + "" == Itoa(n);
    SizeReads(m, t);
  }

  /** An enumeration admits the texts it lists, and the numbers and truth values whose texts
      it lists. */
  lemma EnumerationMeans(choices: seq<string>, fmt: FloatFormat, text: string, n: int, b: bool)
    requires choices != []
    ensures CheckLimit(ParameterLimit("", "", choices), Str(text), fmt) == Accept <==> text in choices
    ensures CheckLimit(ParameterLimit("", "", choices), Int(n), fmt) == Accept <==> Itoa(n) in choices
    ensures CheckLimit(ParameterLimit("", "", choices), Bool(b), fmt) == Accept <==> (if b then "true" else "false") in choices
    ensures CheckLimit(ParameterLimit("", "", choices), Null, fmt) == Reject
  {
  }

  // --- what can be published as a number ---

  /** As a plain number a text with a unit cannot be read, nor one without any digit; one with
      an exponent can. */
  lemma NumbersRead(n: int, u: string, e: int, letter: char)
    requires u in UNITS && (letter == 'e' || letter == 'E')
    ensures ParseFloat(Itoa(n) + u) == if u == "" then Some(n as real) else None
    ensures ParseFloat(Itoa(n) + ([letter] + Itoa(e))) == Some(Times(n as real, Pow10(e)))
    ensures ParseFloat("") == None && ParseFloat("-") == None && ParseFloat(".") == None
  {
    hide Itoa, Pow10, ParseQuantity, Dissect, Exponent, Times;
    assert Itoa(n) + "" == Itoa(n) && ParseFloat(Itoa(n)) == Some(n as real) by { IntegerTextsReadBack(n); }
    DissectedSize(n, u);
    NoExponent(u);
    ExponentReads(n, e, letter);
    LetterFollows([letter] + Itoa(e));
    DissectedSize(n, [letter] + Itoa(e));
    IsExponent(letter, e);
    NoNumbers();
  }

  lemma DissectedSize(n: int, u: string)
    requires Follows(u)
    ensures var p := Dissect(Itoa(n) + u); p.digits > 0 && p.suffix == u
  {
    hide Dissect;
    var sign, m := if n < 0 then "-" else "", if n < 0 then -n else n;
    WholePart(sign, m, u);
    assert sign + Digits(m) + u == Itoa(n) + u;
  }

  lemma NoExponent(u: string)
    requires u in UNITS
    ensures Exponent(u) == None
  {
    assert "Ei"[1..] == "i" && ParseInt("i") == None;
  }

  lemma IsExponent(letter: char, e: int)
    requires letter == 'e' || letter == 'E'
    ensures Exponent([letter] + Itoa(e)) == Some(e)
  {
    IntegerReads(e);
    assert ([letter] + Itoa(e))[1..] == Itoa(e);
  }

  lemma NoNumbers()
    ensures ParseFloat("") == None && ParseFloat("-") == None && ParseFloat(".") == None
  {
    assert Dissect("-").digits == 0;
    assert Dissect(".").digits == 0;
  }

  /** What the schema says of a range: bounds that are numbers as such, the others in words,
      the upper one first. */
  lemma PublishedRange(plan: Plan, key: string, m: int, t: string, n: int, u: string)
    requires t in UNITS && u in UNITS && key in plan.parameterLimits
    requires plan.parameterLimits[key] == ParameterLimit(Itoa(m) + t, Itoa(n) + u, [])
    ensures var p := PropertySchemaOf(plan, key);
      && p.choices == None
      && p.maximum == (if t == "" then Some(m as real) else None)
      && p.minimum == (if u == "" then Some(n as real) else None)
      && p.notes == (if t == "" then [] else ["at most " + (Itoa(m) + t)]) + (if u == "" then [] else ["at least " + (Itoa(n) + u)])
  {
    hide ParseFloat, Itoa;
    NumbersRead(m, t, 0, 'e');
    NumbersRead(n, u, 0, 'e');
    assert "at most" + " " == "at most " && "at least" + " " == "at least ";
    Words("at most", " ", Itoa(m) + t);
    Words("at least", " ", Itoa(n) + u);
  }

  lemma Words(a: string, b: string, c: string)
    ensures a + b + c == a + (b + c)
  {
  }
}
