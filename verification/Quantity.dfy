/** Kubernetes quantities ("3", "1.5", "10Gi", "1e3") read as exact rationals, and the
    decimal texts Go prints for integers. */
module Quantity {
  import opened Wrappers

  predicate IsDigit(c: char) {
    '0' <= c <= '9'
  }

  function DigitValue(c: char): nat
    requires IsDigit(c)
  {
    c as int - '0' as int
  }

  function DigitChar(d: nat): (c: char)
    requires d < 10
    ensures IsDigit(c) && DigitValue(c) == d
  {
    ('0' as int + d) as char
  }

  /** The end of the run of digits that starts at `i`. */
  function DigitsEnd(s: string, i: nat): (r: nat)
    requires i <= |s|
    ensures i <= r <= |s|
    decreases |s| - i
  {
    if i < |s| && IsDigit(s[i]) then DigitsEnd(s, i + 1) else i
  }

  predicate AllDigits(s: string, lo: nat, hi: nat)
    requires lo <= hi <= |s|
  {
    forall i | lo <= i < hi :: IsDigit(s[i])
  }

  lemma DigitsEndAt(s: string, i: nat, end: nat)
    requires i <= end <= |s| && AllDigits(s, i, end)
    requires end < |s| ==> !IsDigit(s[end])
    ensures DigitsEnd(s, i) == end
    decreases end - i
  {
  }

  /** The number written by the digits s[lo..hi]. */
  function DigitRun(s: string, lo: nat, hi: nat): nat
    requires lo <= hi <= |s|
    decreases hi
  {
    if lo == hi || !IsDigit(s[hi - 1]) then 0
    else 10 * DigitRun(s, lo, hi - 1) + DigitValue(s[hi - 1])
  }

  function Pow(base: nat, e: nat): nat {
    if e == 0 then 1 else base * Pow(base, e - 1)
  }

  lemma PowPositive(base: nat, e: nat)
    requires base > 0
    ensures Pow(base, e) > 0
  {
  }

  function Pow10(e: int): real {
    PowPositive(10, if e < 0 then -e else e);
    if e < 0 then 1.0 / Pow(10, -e) as real else Pow(10, e) as real
  }

  /** strconv.ParseInt: an optional sign and at least one digit, nothing else. */
  function ParseInt(s: string): Option<int> {
    if s == "" then None
    else
      var lo := if s[0] == '-' || s[0] == '+' then 1 else 0;
      if lo == |s| || DigitsEnd(s, lo) < |s| then None
      else
        var n: int := DigitRun(s, lo, |s|);
        Some(if s[0] == '-' then -n else n)
  }

  function Exponent(suffix: string): Option<int> {
    if |suffix| > 1 && (suffix[0] == 'e' || suffix[0] == 'E') then ParseInt(suffix[1..]) else None
  }

  /** The factor a suffix stands for. "E" alone and "Ei" are exa and exbi, not exponents. */
  function SuffixFactor(suffix: string): Option<real> {
    if suffix == "" then Some(1.0)
    else if suffix == "n" then Some(Pow10(-9))
    else if suffix == "u" then Some(Pow10(-6))
    else if suffix == "m" then Some(Pow10(-3))
    else if suffix == "k" then Some(Pow10(3))
    else if suffix == "M" then Some(Pow10(6))
    else if suffix == "G" then Some(Pow10(9))
    else if suffix == "T" then Some(Pow10(12))
    else if suffix == "P" then Some(Pow10(15))
    else if suffix == "E" then Some(Pow10(18))
    else if suffix == "Ki" then Some(Pow(2, 10) as real)
    else if suffix == "Mi" then Some(Pow(2, 20) as real)
    else if suffix == "Gi" then Some(Pow(2, 30) as real)
    else if suffix == "Ti" then Some(Pow(2, 40) as real)
    else if suffix == "Pi" then Some(Pow(2, 50) as real)
    else if suffix == "Ei" then Some(Pow(2, 60) as real)
    else match Exponent(suffix)
      case Some(e) => Some(Pow10(e))
      case None => None
  }

  /** The pieces of a quantity text. */
  datatype Parts = Parts(negative: bool, digits: nat, mantissa: real, suffix: string) {
    function Number(): real {
      if negative then -mantissa else mantissa
    }
  }

  function Dissect(s: string): Parts {
    var lo := if s != "" && (s[0] == '-' || s[0] == '+') then 1 else 0;
    var hi := DigitsEnd(s, lo);
    var whole := DigitRun(s, lo, hi) as real;
    if hi < |s| && s[hi] == '.' then
      var end := DigitsEnd(s, hi + 1);
      var places := end - hi - 1;
      PowPositive(10, places);
      Parts(s[0] == '-', hi - lo + places,
            whole + DigitRun(s, hi + 1, end) as real / Pow(10, places) as real, s[end..])
    else
      Parts(s != "" && s[0] == '-', hi - lo, whole, s[hi..])
  }

  function Times(a: real, b: real): real {
    a * b
  }

  /** resource.ParseQuantity. A text without any digit reads as zero, as it does there. */
  function ParseQuantity(s: string): Option<real> {
    if s == "" then None
    else
      var p := Dissect(s);
      match SuffixFactor(p.suffix)
      case None => None
      case Some(f) => Some(Times(p.Number(), f))
  }

  /** strconv.ParseFloat on a text that is a readable quantity: a unit suffix is not a
      number, an exponent is, and at least one digit is needed. */
  function ParseFloat(s: string): Option<real> {
    var p := Dissect(s);
    if s != "" && p.digits > 0 && (p.suffix == "" || Exponent(p.suffix).Some?) then ParseQuantity(s) else None
  }

  /** strconv.Itoa on a natural number. */
  function Digits(n: nat): (s: string)
    ensures s != ""
  {
    if n < 10 then [DigitChar(n)] else Digits(n / 10) + [DigitChar(n % 10)]
  }

  function Itoa(n: int): (s: string)
    ensures s != ""
  {
    if n < 0 then "-" + Digits(-n) else Digits(n)
  }

  lemma {:induction false} DigitsReadBack(n: nat, pre: string)
    ensures AllDigits(pre + Digits(n), |pre|, |pre + Digits(n)|)
    ensures DigitRun(pre + Digits(n), |pre|, |pre + Digits(n)|) == n
  {
    if n < 10 {
      var s := pre + Digits(n);
      assert s[|pre|] == DigitChar(n);
      assert DigitRun(s, |pre|, |pre|) == 0;
    } else {
      DigitsReadBack(n / 10, pre);
      var t, c := pre + Digits(n / 10), DigitChar(n % 10);
      var s := pre + Digits(n);
      assert s == t + [c];
      DigitRunPrefix(t, s, |pre|, |t|);
      assert forall i | |pre| <= i < |t| :: s[i] == t[i];
    }
  }

  lemma {:induction false} DigitRunPrefix(t: string, s: string, lo: nat, hi: nat)
    requires lo <= hi <= |t| <= |s| && forall i | 0 <= i < |t| :: s[i] == t[i]
    ensures DigitRun(s, lo, hi) == DigitRun(t, lo, hi)
    decreases hi
  {
    if lo < hi {
      DigitRunPrefix(t, s, lo, hi - 1);
    }
  }

  lemma {:induction false} DigitsStart(n: nat)
    ensures IsDigit(Digits(n)[0])
  {
    if n >= 10 { DigitsStart(n / 10); }
  }

  /** Reading a printed integer gives the integer back, as a quantity and as a number. */
  lemma IntegerTextsReadBack(n: int)
    ensures ParseQuantity(Itoa(n)) == Some(n as real)
    ensures ParseFloat(Itoa(n)) == Some(n as real)
  {
    var s := Itoa(n);
    var m := if n < 0 then -n else n;
    var pre := if n < 0 then "-" else "";
    DigitsReadBack(m, pre);
    DigitsStart(m);
    assert s == pre + Digits(m);
    DigitsEndAt(s, |pre|, |s|);
    assert s[|pre|] == Digits(m)[0];
    assert s[|s|..] == "";
    assert n >= 0 ==> IsDigit(s[0]);
    assert n < 0 ==> s[0] == '-';
    assert DigitsEnd(s, |pre|) == |s| && DigitRun(s, |pre|, |s|) == m;
    assert (if s != "" && (s[0] == '-' || s[0] == '+') then 1 else 0) == |pre|;
    var p := Dissect(s);
    assert p.suffix == "" && p.mantissa == m as real && p.negative == (n < 0) && p.digits == |s| - |pre|;
  }
}
