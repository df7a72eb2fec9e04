/**
 * Strings as `seq<char>`: the few String.prototype operations the dashboard uses
 * (toLowerCase / toUpperCase restricted to ASCII, includes, trim, split, padStart,
 * String(n) and parseInt(s, 10)).
 */
module Text {
  import opened Wrappers

  // ---------------------------------------------------------------- case

  /** ASCII lowercasing of one character. */
  function LowerChar(c: char): char {
    if 'A' <= c <= 'Z' then (c as int + 32) as char else c
  }

  /** ASCII uppercasing of one character. */
  function UpperChar(c: char): char {
    if 'a' <= c <= 'z' then (c as int - 32) as char else c
  }

  /** `s.toLowerCase()` on ASCII letters. */
  function Lower(s: string): (r: string)
    ensures |r| == |s|
    ensures forall i :: 0 <= i < |s| ==> r[i] == LowerChar(s[i])
  {
    seq(|s|, i requires 0 <= i < |s| => LowerChar(s[i]))
  }

  /** `s.toUpperCase()` on ASCII letters. */
  function Upper(s: string): (r: string)
    ensures |r| == |s|
    ensures forall i :: 0 <= i < |s| ==> r[i] == UpperChar(s[i])
  {
    seq(|s|, i requires 0 <= i < |s| => UpperChar(s[i]))
  }

  /** Only ASCII letters change case: a non-ASCII letter such as "É" is left as it is. */
  lemma OnlyAsciiFolded()
    ensures Lower("É") == "É" && Upper("é") == "é"
    ensures Lower("AB") == "ab" && Upper("ab") == "AB"
  {
  }

  /** Lowercasing twice is lowercasing once. */
  lemma LowerIdempotent(s: string)
    ensures Lower(Lower(s)) == Lower(s)
  {
    assert forall i :: 0 <= i < |s| ==> Lower(Lower(s))[i] == Lower(s)[i];
  }

  /** Uppercasing twice is uppercasing once. */
  lemma UpperIdempotent(s: string)
    ensures Upper(Upper(s)) == Upper(s)
  {
    assert forall i :: 0 <= i < |s| ==> Upper(Upper(s))[i] == Upper(s)[i];
  }

  /** Uppercased text has no lower-case ASCII letter left. */
  lemma UpperHasNoLowerLetter(s: string, i: int)
    requires 0 <= i < |s|
    ensures !('a' <= Upper(s)[i] <= 'z')
  {
  }

  /** Lowercasing commutes with taking a slice. */
  lemma LowerSlice(s: string, i: int, j: int)
    requires 0 <= i <= j <= |s|
    ensures Lower(s)[i..j] == Lower(s[i..j])
  {
    var a, b := Lower(s)[i..j], Lower(s[i..j]);
    forall k | 0 <= k < j - i
      ensures a[k] == b[k]
    {
      assert a[k] == Lower(s)[i + k] == LowerChar(s[i + k]);
      assert b[k] == LowerChar(s[i..j][k]);
    }
    assert a == b;
  }

  // ---------------------------------------------------------------- includes

  predicate IsPrefix(p: string, s: string) {
    |p| <= |s| && s[..|p|] == p
  }

  /** `sub` occurs in `s` starting at index `i`. */
  predicate OccursAt(s: string, sub: string, i: int) {
    0 <= i && i + |sub| <= |s| && s[i..i + |sub|] == sub
  }

  /** `s.includes(sub)`: scan for `sub` from the left. */
  predicate Contains(s: string, sub: string)
    decreases |s|
  {
    IsPrefix(sub, s) || (|s| > 0 && Contains(s[1..], sub))
  }

  /** The scan finds `sub` exactly when it occurs at some index. */
  lemma {:induction false} ContainsIffOccurs(s: string, sub: string)
    ensures Contains(s, sub) <==> exists i :: OccursAt(s, sub, i)
    decreases |s|
  {
    if Contains(s, sub) {
      if IsPrefix(sub, s) {
        assert OccursAt(s, sub, 0);
      } else {
        ContainsIffOccurs(s[1..], sub);
        var j :| OccursAt(s[1..], sub, j);
        assert s[1..][j..j + |sub|] == s[j + 1..j + 1 + |sub|];
        assert OccursAt(s, sub, j + 1);
      }
    }
    if exists i :: OccursAt(s, sub, i) {
      var i :| OccursAt(s, sub, i);
      if i == 0 {
        assert IsPrefix(sub, s);
      } else {
        assert s[1..][i - 1..i - 1 + |sub|] == s[i..i + |sub|];
        assert OccursAt(s[1..], sub, i - 1);
        ContainsIffOccurs(s[1..], sub);
      }
    }
  }

  /** The empty string is included in every string (`s.includes('')` is true). */
  lemma ContainsEmpty(s: string)
    ensures Contains(s, "")
  {
    assert IsPrefix("", s);
  }

  /** Case-insensitive `includes`: `s.toLowerCase().includes(sub.toLowerCase())`. */
  predicate ContainsCI(s: string, sub: string) {
    Contains(Lower(s), Lower(sub))
  }

  /** A literal occurrence is also a case-insensitive one. */
  lemma ContainsThenContainsCI(s: string, sub: string)
    requires Contains(s, sub)
    ensures ContainsCI(s, sub)
  {
    ContainsIffOccurs(s, sub);
    var i :| OccursAt(s, sub, i);
    LowerSlice(s, i, i + |sub|);
    assert OccursAt(Lower(s), Lower(sub), i);
    ContainsIffOccurs(Lower(s), Lower(sub));
  }

  /** Case-insensitive matching does not depend on the case of the filter text. */
  lemma ContainsCINeedleCase(s: string, sub: string)
    ensures ContainsCI(s, Lower(sub)) == ContainsCI(s, sub)
  {
    LowerIdempotent(sub);
  }

  // ---------------------------------------------------------------- trim

  /**
   * The white space and line terminators `trim` removes: tab to carriage return, space,
   * no-break space, the byte order mark, the other space separators and the line and
   * paragraph separators.
   */
  predicate IsSpace(c: char) {
    c == ' ' || 9 <= c as int <= 13 || c as int == 0xA0 || c as int == 0xFEFF || IsWideSpace(c)
  }

  /** The space separators above U+00FF and the line and paragraph separators. */
  predicate IsWideSpace(c: char) {
    var n := c as int;
    n == 0x1680 || 0x2000 <= n <= 0x200A || n == 0x2028 || n == 0x2029 || n == 0x202F
    || n == 0x205F || n == 0x3000
  }

  function TrimStart(s: string): (r: string)
    ensures |r| <= |s| && r == s[|s| - |r|..]
    ensures forall i :: 0 <= i < |s| - |r| ==> IsSpace(s[i])
    ensures r == [] || !IsSpace(r[0])
  {
    if |s| > 0 && IsSpace(s[0]) then TrimStart(s[1..]) else s
  }

  function TrimEnd(s: string): (r: string)
    ensures |r| <= |s| && r == s[..|r|]
    ensures forall i :: |r| <= i < |s| ==> IsSpace(s[i])
    ensures r == [] || !IsSpace(r[|r| - 1])
  {
    if |s| > 0 && IsSpace(s[|s| - 1]) then TrimEnd(s[..|s| - 1]) else s
  }

  /** `s.trim()`. */
  function Trim(s: string): string {
    TrimEnd(TrimStart(s))
  }

  /** Lowercasing leaves white space alone and makes none. */
  lemma LowerCharSpace(c: char)
    ensures IsSpace(LowerChar(c)) == IsSpace(c)
  {
  }

  lemma {:induction false} LowerTrimStart(s: string)
    ensures TrimStart(Lower(s)) == Lower(TrimStart(s))
    decreases |s|
  {
    if |s| > 0 {
      LowerCharSpace(s[0]);
      if IsSpace(s[0]) {
        assert Lower(s)[1..] == Lower(s[1..]);
        LowerTrimStart(s[1..]);
      }
    }
  }

  lemma LowerDropLast(s: string)
    requires |s| > 0
    ensures Lower(s)[..|s| - 1] == Lower(s[..|s| - 1])
    ensures Lower(s)[|s| - 1] == LowerChar(s[|s| - 1])
  {
  }

  lemma {:induction false} LowerTrimEnd(s: string)
    ensures TrimEnd(Lower(s)) == Lower(TrimEnd(s))
    decreases |s|
  {
    if |s| > 0 {
      var c := s[|s| - 1];
      LowerCharSpace(c);
      LowerDropLast(s);
      if IsSpace(c) {
        LowerTrimEnd(s[..|s| - 1]);
      }
    }
  }

  /** Trimming and lowercasing can be done in either order. */
  lemma LowerTrim(s: string)
    ensures Trim(Lower(s)) == Lower(Trim(s))
  {
    LowerTrimStart(s);
    LowerTrimEnd(TrimStart(s));
  }

  /** A string is blank when `trim()` leaves nothing. */
  predicate IsBlank(s: string) {
    Trim(s) == ""
  }

  /** Blank means every character is white space. */
  lemma BlankIffAllSpace(s: string)
    ensures IsBlank(s) <==> forall i :: 0 <= i < |s| ==> IsSpace(s[i])
  {
  }

  // ---------------------------------------------------------------- digits

  predicate IsDigit(c: char) {
    '0' <= c <= '9'
  }

  predicate AllDigits(s: string) {
    forall i :: 0 <= i < |s| ==> IsDigit(s[i])
  }

  function DigitValue(c: char): nat
    requires IsDigit(c)
  {
    c as int - '0' as int
  }

  function DigitChar(d: nat): (c: char)
    requires d < 10
    ensures IsDigit(c) && DigitValue(c) == d
  {
    ('0' as int + d) as char
  }

  /** The value of a string of decimal digits (leading zeros allowed). */
  function DigitsValue(s: string): nat
    requires AllDigits(s)
    decreases |s|
  {
    if s == [] then 0 else DigitsValue(s[..|s| - 1]) * 10 + DigitValue(s[|s| - 1])
  }

  function Pow10(n: nat): (r: nat)
    ensures r >= 1
  {
    if n == 0 then 1 else 10 * Pow10(n - 1)
  }

  /** `String(n)` for a natural number. */
  function NatToString(n: nat): (r: string)
    ensures |r| >= 1 && AllDigits(r)
    ensures n < 10 <==> |r| == 1
    ensures n < 100 ==> |r| <= 2
    decreases n
  {
    if n < 10 then [DigitChar(n)] else NatToString(n / 10) + [DigitChar(n % 10)]
  }

  /** A number with `k` digits is written with `k` characters. */
  lemma {:induction false} NatToStringLength(n: nat, k: nat)
    requires k >= 1 && Pow10(k - 1) <= n < Pow10(k)
    ensures |NatToString(n)| == k
    decreases k
  {
    if k > 1 {
      assert Pow10(k - 2) <= n / 10 < Pow10(k - 1);
      NatToStringLength(n / 10, k - 1);
    }
  }

  /** `String(i)` for an integer. */
  function IntToString(i: int): string {
    if i < 0 then "-" + NatToString(-i) else NatToString(i)
  }

  /** Reading back `String(n)` gives `n`. */
  lemma {:induction false} NatToStringValue(n: nat)
    ensures DigitsValue(NatToString(n)) == n
    decreases n
  {
    if n >= 10 {
      var s := NatToString(n);
      assert s[..|s| - 1] == NatToString(n / 10);
      NatToStringValue(n / 10);
    }
  }

  /** `String(n).padStart(2, '0')`. */
  function Pad2(n: nat): (r: string)
    ensures AllDigits(r) && |r| >= 2
    ensures n < 100 ==> |r| == 2
  {
    var s := NatToString(n);
    if |s| < 2 then "0" + s else s
  }

  /** Padding keeps the value: reading the two digits back gives `n`. */
  lemma Pad2Value(n: nat)
    ensures DigitsValue(Pad2(n)) == n
  {
    NatToStringValue(n);
    var s := NatToString(n);
    if |s| < 2 {
      var p := "0" + s;
      assert p[..|p| - 1] == "0";
      assert DigitsValue("0") == 0 by {
        assert "0"[..0] == "";
      }
    }
  }

  /** Length of the run of digits at the front of `s`. */
  function DigitRun(s: string): (k: nat)
    ensures k <= |s| && AllDigits(s[..k])
    ensures k < |s| ==> !IsDigit(s[k])
  {
    if |s| > 0 && IsDigit(s[0]) then
      var k' := DigitRun(s[1..]);
      assert forall i :: 1 <= i < 1 + k' ==> s[i] == s[1..][..k'][i - 1];
      1 + k'
    else 0
  }

  lemma DigitRunOfDigits(s: string)
    requires AllDigits(s)
    ensures DigitRun(s) == |s|
  {
  }

  /**
   * `parseInt(s, 10)`: leading white space, an optional sign, then the longest run of
   * digits; None (NaN) when there is no digit. It is also `parseInt(s)` on the text of a
   * number input, which cannot hold the "x" of a hexadecimal prefix.
   */
  function ParseInt(s: string): Option<int> {
    var t := TrimStart(s);
    var signed := |t| > 0 && (t[0] == '-' || t[0] == '+');
    var u := if signed then t[1..] else t;
    var k := DigitRun(u);
    if k == 0 then None
    else
      var v: int := DigitsValue(u[..k]);
      if signed && t[0] == '-' then Some(-v) else Some(v)
  }

  /** `parseInt` reads a whole run of digits as its decimal value. */
  lemma ParseIntOfDigits(s: string)
    requires |s| > 0 && AllDigits(s)
    ensures ParseInt(s) == Some(DigitsValue(s))
  {
    TrimStartOfDigit(s);
    DigitRunOfDigits(s);
    assert s[..|s|] == s;
  }

  /** A string that starts with a digit has no leading white space and no sign. */
  lemma TrimStartOfDigit(s: string)
    requires |s| > 0 && IsDigit(s[0])
    ensures TrimStart(s) == s && s[0] != '-' && s[0] != '+'
  {
    assert !IsSpace(s[0]);
  }

  /** `parseInt(String(n))` is `n`. */
  lemma ParseIntRoundTrip(n: int)
    ensures ParseInt(IntToString(n)) == Some(n)
  {
    var s := IntToString(n);
    var m: nat := if n < 0 then -n else n;
    var d := NatToString(m);
    assert TrimStart(s) == s;
    DigitRunOfDigits(d);
    assert d[..|d|] == d;
    NatToStringValue(m);
    if n < 0 {
      assert s[1..] == d;
    } else {
      assert s == d;
    }
  }

  // ---------------------------------------------------------------- parseInt without a radix

  predicate IsHexDigit(c: char) {
    IsDigit(c) || 'a' <= c <= 'f' || 'A' <= c <= 'F'
  }

  predicate AllHexDigits(s: string) {
    forall i :: 0 <= i < |s| ==> IsHexDigit(s[i])
  }

  /** The value of one hexadecimal digit, either case. */
  function HexDigitValue(c: char): (r: nat)
    requires IsHexDigit(c)
    ensures r < 16
    ensures IsDigit(c) ==> r == DigitValue(c)
  {
    if IsDigit(c) then DigitValue(c)
    else if 'a' <= c <= 'f' then c as int - 'a' as int + 10
    else c as int - 'A' as int + 10
  }

  /** The value of a string of hexadecimal digits. */
  function HexValue(s: string): nat
    requires AllHexDigits(s)
    decreases |s|
  {
    if s == [] then 0 else HexValue(s[..|s| - 1]) * 16 + HexDigitValue(s[|s| - 1])
  }

  /** Length of the run of hexadecimal digits at the front of `s`. */
  function HexRun(s: string): (k: nat)
    ensures k <= |s| && AllHexDigits(s[..k])
    ensures k < |s| ==> !IsHexDigit(s[k])
  {
    if |s| > 0 && IsHexDigit(s[0]) then
      var k' := HexRun(s[1..]);
      assert forall i :: 1 <= i < 1 + k' ==> s[i] == s[1..][..k'][i - 1];
      1 + k'
    else 0
  }

  lemma HexRunOfHexDigits(s: string)
    requires AllHexDigits(s)
    ensures HexRun(s) == |s|
  {
  }

  /** "0x" or "0X" in front. */
  predicate HexPrefixed(u: string) {
    |u| >= 2 && u[0] == '0' && (u[1] == 'x' || u[1] == 'X')
  }

  /**
   * `parseInt(s)` with no radix: leading white space and an optional sign as in `ParseInt`;
   * then "0x" or "0X" makes the rest a run of hexadecimal digits, None (NaN) when that run
   * is empty; any other text is read in base 10.
   */
  function ParseIntAuto(s: string): Option<int> {
    var t := TrimStart(s);
    var signed := |t| > 0 && (t[0] == '-' || t[0] == '+');
    var u := if signed then t[1..] else t;
    if !HexPrefixed(u) then ParseInt(s)
    else
      var k := HexRun(u[2..]);
      if k == 0 then None
      else
        var v: int := HexValue(u[2..][..k]);
        if signed && t[0] == '-' then Some(-v) else Some(v)
  }

  /** After "0x" or "0X", a run of hexadecimal digits is read as its base-16 value. */
  lemma ParseIntAutoHex(h: string, x: char)
    requires |h| > 0 && AllHexDigits(h) && (x == 'x' || x == 'X')
    ensures ParseIntAuto(['0', x] + h) == Some(HexValue(h))
  {
    var s := ['0', x] + h;
    TrimStartOfDigit(s);
    assert HexPrefixed(s) && s[2..] == h;
    HexRunOfHexDigits(h);
    assert h[..|h|] == h;
  }

  /** "0x" or "0X" with no hexadecimal digit after it is NaN. */
  lemma ParseIntAutoBarePrefix(x: char)
    requires x == 'x' || x == 'X'
    ensures ParseIntAuto(['0', x]) == None
  {
    var s := ['0', x];
    TrimStartOfDigit(s);
    assert HexPrefixed(s);
    assert s[2..] == [];
    assert HexRun(s[2..]) == 0;
  }

  /** A run of decimal digits is read in base 10, leading zeros included: no octal, no hex. */
  lemma ParseIntAutoOfDigits(s: string)
    requires |s| > 0 && AllDigits(s)
    ensures ParseIntAuto(s) == Some(DigitsValue(s))
  {
    TrimStartOfDigit(s);
    assert !HexPrefixed(s) by {
      if |s| >= 2 {
        assert IsDigit(s[1]);
      }
    }
    ParseIntOfDigits(s);
  }

  /** `parseInt(String(n))` is `n` without a radix too. */
  lemma ParseIntAutoRoundTrip(n: int)
    ensures ParseIntAuto(IntToString(n)) == Some(n)
  {
    var s := IntToString(n);
    var m: nat := if n < 0 then -n else n;
    var d := NatToString(m);
    assert TrimStart(s) == s;
    if n < 0 {
      assert s[1..] == d;
    } else {
      assert s == d;
    }
    assert !HexPrefixed(d) by {
      if |d| >= 2 {
        assert IsDigit(d[1]);
      }
    }
    ParseIntRoundTrip(n);
  }

  // ---------------------------------------------------------------- split

  /** `s` does not contain the character `c`. */
  predicate NoChar(s: string, c: char) {
    forall i :: 0 <= i < |s| ==> s[i] != c
  }

  /** Index of the first occurrence of `sep` in `s` (`s.indexOf(sep)`). */
  function FirstIndex(s: string, sep: string): (r: Option<nat>)
    ensures r.Some? ==> OccursAt(s, sep, r.value)
    ensures r.Some? ==> forall j :: 0 <= j < r.value ==> !OccursAt(s, sep, j)
    ensures r.None? ==> forall j :: 0 <= j ==> !OccursAt(s, sep, j)
    decreases |s|
  {
    if |s| < |sep| then None
    else if IsPrefix(sep, s) then Some(0)
    else
      match FirstIndex(s[1..], sep)
      case None =>
        assert forall j :: 1 <= j ==> OccursAt(s, sep, j) ==> OccursAt(s[1..], sep, j - 1) by {
          forall j | 1 <= j && OccursAt(s, sep, j) ensures OccursAt(s[1..], sep, j - 1) {
            assert s[1..][j - 1..j - 1 + |sep|] == s[j..j + |sep|];
          }
        }
        None
      case Some(j) =>
        assert s[1..][j..j + |sep|] == s[j + 1..j + 1 + |sep|];
        assert forall k :: 1 <= k <= j ==> OccursAt(s, sep, k) ==> OccursAt(s[1..], sep, k - 1) by {
          forall k | 1 <= k <= j && OccursAt(s, sep, k) ensures OccursAt(s[1..], sep, k - 1) {
            assert s[1..][k - 1..k - 1 + |sep|] == s[k..k + |sep|];
          }
        }
        Some(j + 1)
  }

  /** `s.split(sep)` for a non-empty separator. */
  function Split(s: string, sep: string): (parts: seq<string>)
    requires |sep| > 0
    ensures |parts| >= 1
    decreases |s|
  {
    match FirstIndex(s, sep)
    case None => [s]
    case Some(i) => [s[..i]] + Split(s[i + |sep|..], sep)
  }

  /** Part `k` of a split, or "undefined" past the end (a missing destructured part in a template string). */
  function PartOr(parts: seq<string>, k: nat): string {
    if k < |parts| then parts[k] else "undefined"
  }

  /** A string without the separator's first character is one piece. */
  lemma SplitWithoutSeparator(s: string, sep: string)
    requires |sep| > 0 && NoChar(s, sep[0])
    ensures Split(s, sep) == [s]
  {
  }

  /** Splitting `a + sep + b`, where `a` lacks the separator's first character, cuts right after `a`. */
  lemma SplitAfterFirst(a: string, sep: string, b: string)
    requires |sep| > 0 && NoChar(a, sep[0])
    ensures Split(a + sep + b, sep) == [a] + Split(b, sep)
  {
    var s := a + sep + b;
    assert OccursAt(s, sep, |a|) by {
      assert s[|a|..|a| + |sep|] == sep;
    }
    var r := FirstIndex(s, sep);
    assert r.Some?;
    assert r.value == |a|;
    assert s[..|a|] == a;
    assert s[|a| + |sep|..] == b;
  }
}
