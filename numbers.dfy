/**
 * Number recognition as Rust's `str::parse::<i64>` and `str::parse::<f64>`
 * decide it: which strings are accepted, and the mathematical value of the
 * accepted ones. `f64` rounding is not modelled: a finite literal denotes the
 * exact decimal value it spells.
 */
module Numbers {
  import opened Options
  import opened Text

  /** Rust's `i64`. */
  newtype I64 = x: int | -0x8000_0000_0000_0000 <= x <= 0x7FFF_FFFF_FFFF_FFFF

  /** Rust's `f64` as far as parsing can produce it. */
  datatype F64 = Finite(r: real) | Infinity(negative: bool) | NaN

  predicate IsDigit(c: char) {
    '0' <= c <= '9'
  }

  predicate AllDigits(s: string) {
    s == [] || (IsDigit(s[0]) && AllDigits(s[1..]))
  }

  lemma {:induction false} AllDigitsAt(s: string, k: int)
    requires AllDigits(s) && 0 <= k < |s|
    ensures IsDigit(s[k])
  {
    if k > 0 {
      AllDigitsAt(s[1..], k - 1);
    }
  }

  /** The natural number a string of decimal digits spells. */
  function DigitsValue(s: string): (n: nat)
    requires AllDigits(s)
  {
    if s == [] then 0
    else (s[0] as int - '0' as int) * Pow10(|s| - 1) + DigitsValue(s[1..])
  }

  function Pow10(n: nat): (p: nat)
    ensures p >= 1
  {
    if n == 0 then 1 else 10 * Pow10(n - 1)
  }

  /** `x` times ten to the power `e`, for an exponent of either sign. */
  function Scale(x: real, e: int): (y: real)
    decreases if e >= 0 then e else -e
  {
    if e == 0 then x
    else if e > 0 then Scale(x, e - 1) * 10.0
    else Scale(x, e + 1) / 10.0
  }

  /** Splits off one leading `+` or `-`: whether it was `-`, and the rest. */
  function SplitSign(s: string): (r: (bool, string))
    ensures |r.1| <= |s|
    ensures r.1 == s || (s != [] && s[0] in {'+', '-'} && r.1 == s[1..])
    ensures r.0 <==> s != [] && s[0] == '-'
  {
    if |s| > 0 && (s[0] == '+' || s[0] == '-') then (s[0] == '-', s[1..]) else (false, s)
  }

  /**
   * `str::parse::<i64>`: an optional sign and one or more decimal digits,
   * nothing else, and a value in range; otherwise an error.
   */
  function ParseI64(s: string): (r: Option<I64>)
    ensures r.Some? ==> s != [] && IsTrimmed(s) && IsDigit(s[|s| - 1])
  {
    var (negative, digits) := SplitSign(s);
    if digits == [] || !AllDigits(digits) then None
    else
      var n: int := DigitsValue(digits);
      var v := if negative then -n else n;
      if -0x8000_0000_0000_0000 <= v <= 0x7FFF_FFFF_FFFF_FFFF then
        assert s[0] == '+' || s[0] == '-' || IsDigit(s[0]);
        assert IsDigit(s[|s| - 1]) by { AllDigitsAt(digits, |digits| - 1); }
        Some(v as I64)
      else None
  }

  /**
   * What a scan of a decimal number collects: the value of all its mantissa
   * digits with the dot ignored, how many there are, how many of them follow
   * the dot, and the exponent.
   */
  datatype Digits = Digits(value: nat, count: nat, frac: nat, exp: int)

  /**
   * Scans `s` as the rest of an unsigned mantissa, `dot` telling whether the
   * dot has been passed, optionally followed by an exponent
   * `('e' | 'E') Sign? Digit+`.
   */
  function ScanNumber(s: string, dot: bool): (r: Option<Digits>)
    ensures r.Some? && s != [] ==> IsDigit(s[0]) || s[0] in {'.', 'e', 'E'}
    ensures r.Some? && s != [] ==> IsDigit(s[|s| - 1]) || s[|s| - 1] == '.'
    ensures r.Some? && s != [] && !IsDigit(s[0]) && s[0] != '.' ==> r.value.count == 0
  {
    if s == [] then Some(Digits(0, 0, 0, 0))
    else if IsDigit(s[0]) then
      match ScanNumber(s[1..], dot)
      case None => None
      case Some(d) =>
        var digit := s[0] as int - '0' as int;
        Some(Digits(digit * Pow10(d.count) + d.value, d.count + 1, if dot then d.frac + 1 else d.frac, d.exp))
    else if s[0] == '.' && !dot then
      ScanNumber(s[1..], true)
    else if s[0] == 'e' || s[0] == 'E' then
      match ParseExponent(s[1..])
      case None => None
      case Some(x) => Some(Digits(0, 0, 0, x))
    else None
  }

  /** The exponent `Sign? Digit+` after the mark. */
  function ParseExponent(x: string): (r: Option<int>)
    ensures r.Some? ==> x != [] && IsDigit(x[|x| - 1])
  {
    var (negative, digits) := SplitSign(x);
    if digits == [] || !AllDigits(digits) then None
    else
      var n: int := DigitsValue(digits);
      AllDigitsAt(digits, |digits| - 1);
      Some(if negative then -n else n)
  }

  /** An unsigned decimal number: a mantissa and an optional exponent. */
  function ParseDecimal(s: string): (r: Option<real>)
    ensures r.Some? ==> s != [] && IsTrimmed(s)
    ensures r.Some? ==> IsDigit(s[|s| - 1]) || s[|s| - 1] == '.'
  {
    match ScanNumber(s, false)
    case None => None
    case Some(d) =>
      if d.count == 0 then None
      else Some(Scale(d.value as real, d.exp - d.frac))
  }

  /**
   * `str::parse::<f64>`: an optional sign followed by `inf`, `infinity` or
   * `nan` in any case, or by a decimal number; otherwise an error.
   */
  function ParseF64(s: string): (r: Option<F64>)
    ensures r.Some? ==> s != [] && IsTrimmed(s)
  {
    var (negative, body) := SplitSign(s);
    FoldsToEnds(body, "inf");
    FoldsToEnds(body, "infinity");
    FoldsToEnds(body, "nan");
    if FoldsTo(body, "inf") || FoldsTo(body, "infinity") then Some(Infinity(negative))
    else if FoldsTo(body, "nan") then Some(NaN)
    else
      match ParseDecimal(body)
      case None => None
      case Some(m) => Some(Finite(if negative then -m else m))
  }

  /** A run of digits scans as exactly that many mantissa digits. */
  lemma {:induction false} ScanDigits(s: string, dot: bool)
    requires AllDigits(s)
    ensures ScanNumber(s, dot) == Some(Digits(DigitsValue(s), |s|, if dot then |s| else 0, 0))
  {
    if s != [] {
      ScanDigits(s[1..], dot);
    }
  }

  /**
   * Every string `parse::<i64>` accepts, `parse::<f64>` accepts too, with the
   * same value: which of the two a token becomes is decided only by the
   * order in which they are tried.
   */
  lemma IntIsFloat(s: string)
    requires ParseI64(s).Some?
    ensures ParseF64(s) == Some(Finite(ParseI64(s).value as real))
  {
    var (negative, digits) := SplitSign(s);
    var n: int := DigitsValue(digits);
    assert ParseI64(s).value as int == if negative then -n else n;
    AllDigitsAt(digits, 0);
    ScanDigits(digits, false);
    assert ParseDecimal(digits) == Some(n as real);
  }

  /**
   * The characters an accepted `f64` literal can end with: a digit, the
   * dot of `5.`, or the last letter of `inf`, `infinity` or `nan`.
   */
  predicate FloatEnding(c: char) {
    IsDigit(c) || c == '.' || c in {'f', 'F', 'y', 'Y', 'n', 'N'}
  }

  /** `parse::<f64>` rejects every string that does not end like a number. */
  lemma F64Ending(s: string)
    ensures ParseF64(s).Some? ==> s != [] && FloatEnding(s[|s| - 1])
  {
    var (negative, body) := SplitSign(s);
    if ParseF64(s).Some? {
      assert body != [] && body[|body| - 1] == s[|s| - 1];
      FoldsToEnds(body, "inf");
      FoldsToEnds(body, "infinity");
      FoldsToEnds(body, "nan");
    }
  }

  /** A run of digits spelling a number within range reads as that `i64`. */
  lemma DigitsAreI64(p: string)
    requires p != [] && AllDigits(p) && DigitsValue(p) <= 0x7FFF_FFFF_FFFF_FFFF
    ensures ParseI64(p) == Some(DigitsValue(p) as I64)
  {
    assert SplitSign(p) == (false, p);
  }

  /** A run of digits reads as the `f64` of the number it spells. */
  lemma DigitsAreF64(p: string)
    requires p != [] && AllDigits(p)
    ensures ParseF64(p) == Some(Finite(DigitsValue(p) as real))
  {
    assert SplitSign(p) == (false, p);
    ScanDigits(p, false);
  }

  /** What `parse::<f64>` does with a string that starts with a digit. */
  lemma DigitFirstIsDecimal(s: string)
    requires s != [] && IsDigit(s[0])
    ensures ParseF64(s) == match ParseDecimal(s) case None => None case Some(m) => Some(Finite(m))
  {
    assert SplitSign(s) == (false, s);
  }

}
