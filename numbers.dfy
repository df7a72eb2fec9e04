/**
 * JavaScript's string-to-number conversions on decimal text: `parseFloat(s)` (the longest
 * numeric prefix) and `Number(s)` (the whole trimmed string, "" meaning 0). None stands
 * for NaN.
 */
module Numbers {
  import opened Wrappers
  import opened Text

  /** A decimal literal read from the front of a string: its value and how many characters it spans. */
  datatype Scan = Scan(value: real, len: nat)

  /** The digits after a decimal point, read as a fraction. */
  function Fraction(d: string): (r: real)
    requires AllDigits(d)
    ensures r >= 0.0
  {
    DigitsValue(d) as real / Pow10(|d|) as real
  }

  /** Unsigned part: digits, optional '.' and digits, with at least one digit somewhere. */
  function Magnitude(u: string): (r: Option<Scan>)
    ensures r.Some? ==> 0 < r.value.len <= |u| && r.value.value >= 0.0
  {
    var k := DigitRun(u);
    if k < |u| && u[k] == '.' then
      var f := DigitRun(u[k + 1..]);
      if k == 0 && f == 0 then None
      else Some(Scan(DigitsValue(u[..k]) as real + Fraction(u[k + 1..][..f]), k + 1 + f))
    else if k == 0 then None
    else Some(Scan(DigitsValue(u[..k]) as real, k))
  }

  /** A sign character in front of the magnitude. */
  function Signed(m: Option<Scan>, negative: bool): (r: Option<Scan>)
    ensures r.Some? <==> m.Some?
    ensures r.Some? ==> r.value.len == m.value.len + 1
  {
    match m
    case None => None
    case Some(sc) => Some(Scan(if negative then -sc.value else sc.value, sc.len + 1))
  }

  /** Optional sign, then the magnitude. */
  function ScanDecimal(t: string): (r: Option<Scan>)
    ensures r.Some? ==> 0 < r.value.len <= |t|
  {
    if |t| > 0 && (t[0] == '-' || t[0] == '+') then Signed(Magnitude(t[1..]), t[0] == '-')
    else Magnitude(t)
  }

  /** `parseFloat(s)`. */
  function ParseFloat(s: string): Option<real> {
    match ScanDecimal(TrimStart(s))
    case None => None
    case Some(sc) => Some(sc.value)
  }

  /** `Number(s)` for a string: blank is 0, otherwise the trimmed text must be one decimal literal. */
  function ToNumber(s: string): Option<real> {
    var t := Trim(s);
    if t == "" then Some(0.0)
    else
      match ScanDecimal(t)
      case Some(sc) => if sc.len == |t| then Some(sc.value) else None
      case None => None
  }

  /** `isNaN(s)` on a string (it converts with Number first). */
  predicate IsNaN(s: string) {
    ToNumber(s).None?
  }

  /** `Number(s) || 0`: NaN becomes 0. */
  function NumberOrZero(s: string): real {
    ToNumber(s).GetOr(0.0)
  }

  /** Appending after a digit run: the run continues into `w` only if it covered all of `u`. */
  lemma {:induction false} DigitRunAppend(u: string, w: string)
    ensures DigitRun(u + w) == if DigitRun(u) < |u| then DigitRun(u) else |u| + DigitRun(w)
    decreases |u|
  {
    if |u| > 0 {
      assert (u + w)[0] == u[0];
      if IsDigit(u[0]) {
        assert (u + w)[1..] == u[1..] + w;
        DigitRunAppend(u[1..], w);
      }
    } else {
      assert u + w == w;
    }
  }

  /** A magnitude spanning all of `u` still spans exactly `u` when white space follows it. */
  lemma MagnitudeBeforeSpace(u: string, w: string)
    requires Magnitude(u).Some? && Magnitude(u).value.len == |u|
    requires w == [] || IsSpace(w[0])
    ensures Magnitude(u + w) == Magnitude(u)
  {
    var k := DigitRun(u);
    DigitRunAppend(u, w);
    assert DigitRun(w) == 0 && (w == [] || w[0] != '.') by {
      if w != [] {
        assert !IsDigit(w[0]);
      }
    }
    if k < |u| {
      FractionBeforeSpace(u, w, k);
    } else {
      WholeBeforeSpace(u, w);
    }
  }

  /** The case of `MagnitudeBeforeSpace` where `u` is digits only. */
  lemma WholeBeforeSpace(u: string, w: string)
    requires DigitRun(u) == |u| > 0
    requires DigitRun(u + w) == |u| && (w == [] || w[0] != '.')
    ensures Magnitude(u + w) == Magnitude(u)
  {
    var uw := u + w;
    var k := |u|;
    assert uw[..k] == u[..k];
    assert Magnitude(u) == Some(Scan(DigitsValue(u[..k]) as real, k));
    if k < |uw| {
      assert uw[k] == w[0];
    }
    assert Magnitude(uw) == Some(Scan(DigitsValue(uw[..k]) as real, k));
  }

  /** The case of `MagnitudeBeforeSpace` where `u` has a decimal point after `k` digits. */
  lemma FractionBeforeSpace(u: string, w: string, k: nat)
    requires k == DigitRun(u) < |u|
    requires Magnitude(u).Some? && Magnitude(u).value.len == |u|
    requires DigitRun(u + w) == k && DigitRun(w) == 0
    ensures Magnitude(u + w) == Magnitude(u)
  {
    var uw := u + w;
    assert u[k] == '.';
    var tail := u[k + 1..];
    var f := DigitRun(tail);
    PointMagnitude(u, k, f);
    assert f == |tail|;
    assert uw[k] == '.';
    assert uw[..k] == u[..k];
    assert uw[k + 1..] == tail + w;
    DigitRunAppend(tail, w);
    assert DigitRun(uw[k + 1..]) == f;
    assert uw[k + 1..][..f] == tail[..f];
    PointMagnitude(uw, k, f);
    var a, b := Magnitude(uw).value, Magnitude(u).value;
    assert a.value == b.value && a.len == b.len;
    assert a == b;
  }

  /** The magnitude of `k` digits, a decimal point and the `f` digits after it. */
  lemma PointMagnitude(u: string, k: nat, f: nat)
    requires k == DigitRun(u) < |u| && u[k] == '.' && f == DigitRun(u[k + 1..])
    requires k > 0 || f > 0
    ensures Magnitude(u).Some? && Magnitude(u).value.len == k + 1 + f
    ensures Magnitude(u).value.value == DigitsValue(u[..k]) as real + Fraction(u[k + 1..][..f])
  {
  }

  /** A literal spanning all of `t` still spans exactly `t` when white space follows it. */
  lemma ScanBeforeSpace(t: string, w: string)
    requires ScanDecimal(t).Some? && ScanDecimal(t).value.len == |t|
    requires w == [] || IsSpace(w[0])
    ensures ScanDecimal(t + w) == ScanDecimal(t)
  {
    var tw := t + w;
    assert tw[0] == t[0];
    if t[0] == '-' || t[0] == '+' {
      assert tw[1..] == t[1..] + w;
      MagnitudeBeforeSpace(t[1..], w);
    } else {
      MagnitudeBeforeSpace(t, w);
    }
  }

  /** Every non-blank string that Number accepts is read by parseFloat to the same value. */
  lemma ToNumberThenParseFloat(s: string)
    requires ToNumber(s).Some? && !IsBlank(s)
    ensures ParseFloat(s) == ToNumber(s)
  {
    var a := TrimStart(s);
    var t := TrimEnd(a);
    var w := a[|t|..];
    TrimEndSplit(a);
    ScanBeforeSpace(t, w);
  }

  /** Trimming the end splits off white space only. */
  lemma TrimEndSplit(a: string)
    ensures a == TrimEnd(a) + a[|TrimEnd(a)|..]
    ensures |TrimEnd(a)| == |a| || IsSpace(a[|TrimEnd(a)|])
  {
  }

  /** A run of digits is read whole. */
  lemma MagnitudeOfDigits(d: string)
    requires |d| > 0 && AllDigits(d)
    ensures Magnitude(d) == Some(Scan(DigitsValue(d) as real, |d|))
  {
    DigitRunOfDigits(d);
    assert d[..|d|] == d;
  }

  /** `String(n)` is read as one literal with value `n`. */
  lemma ScanIntToString(n: int)
    ensures ScanDecimal(IntToString(n)) == Some(Scan(n as real, |IntToString(n)|))
  {
    var s := IntToString(n);
    var m: nat := if n < 0 then -n else n;
    var d := NatToString(m);
    NatToStringValue(m);
    MagnitudeOfDigits(d);
    if n < 0 {
      assert s[1..] == d;
    }
  }

  /** Text that neither starts nor ends with white space is left alone by trimming. */
  lemma TrimNothing(s: string)
    requires |s| > 0 && !IsSpace(s[0]) && !IsSpace(s[|s| - 1])
    ensures TrimStart(s) == s && Trim(s) == s
  {
  }

  /** Reading back `String(n)` with parseFloat or Number gives `n`. */
  lemma IntToStringParses(n: int)
    ensures ParseFloat(IntToString(n)) == Some(n as real)
    ensures ToNumber(IntToString(n)) == Some(n as real)
  {
    var s := IntToString(n);
    ScanIntToString(n);
    TrimNothing(s);
  }

  /** The decimal scan of "1e3" stops at the `e`. */
  lemma ScanStopsAtExponent()
    ensures ScanDecimal("1e3") == Some(Scan(1.0, 1))
  {
    var t := "1e3";
    assert DigitRun(t) == 1 by { assert !IsDigit(t[1]); assert DigitRun(t[1..]) == 0; }
    assert DigitsValue("1") == 1 by { assert "1"[..0] == []; }
    assert t[..1] == "1";
  }

  /** "1e3" has no white space to trim. */
  lemma ExponentTextTrimmed()
    ensures TrimStart("1e3") == "1e3" && Trim("1e3") == "1e3"
  {
    var t := "1e3";
    assert !IsSpace(t[0]) && !IsSpace(t[2]);
  }

  /** An exponent is not part of a decimal literal: `parseFloat` stops before it and `Number` rejects the text. */
  lemma ExponentNotRead()
    ensures ParseFloat("1e3") == Some(1.0)
    ensures ToNumber("1e3") == None
  {
    ExponentTextTrimmed();
    ScanStopsAtExponent();
  }

  /** "Infinity" is not a decimal literal, so `parseFloat` reads it as NaN. */
  lemma InfinityNotRead()
    ensures ParseFloat("Infinity") == None
  {
    InfinityTextTrimmed();
    InfinityNotScanned();
  }

  /** "Infinity" has no leading white space. */
  lemma InfinityTextTrimmed()
    ensures TrimStart("Infinity") == "Infinity"
  {
    var w := "Infinity";
    assert !IsSpace(w[0]);
  }

  /** "Infinity" starts with neither a sign, a digit nor a point. */
  lemma InfinityNotScanned()
    ensures ScanDecimal("Infinity") == None
  {
    var w := "Infinity";
    assert w[0] == 'I';
    assert DigitRun(w) == 0 by { assert !IsDigit(w[0]); }
  }
}
