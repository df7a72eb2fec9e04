/**
 * `generateUniqueCode`: draw six-digit codes until one is not among the existing codes.
 * The random numbers are a parameter: draw `d` stands for `Math.floor(Math.random() * 900000)`,
 * so the code is `String(100000 + d)`.
 */
module UniqueCode {
  import opened Wrappers
  import opened Text

  /** The code one draw produces. */
  function CodeOf(d: nat): string {
    NatToString(100000 + d)
  }

  /** A draw in range gives six decimal digits, the first of them not 0. */
  lemma CodeOfShape(d: nat)
    requires d < 900000
    ensures |CodeOf(d)| == 6 && AllDigits(CodeOf(d)) && CodeOf(d)[0] != '0'
    ensures DigitsValue(CodeOf(d)) == 100000 + d
  {
    assert Pow10(1) == 10 && Pow10(2) == 100 && Pow10(3) == 1000 && Pow10(4) == 10000;
    assert Pow10(5) == 100000 && Pow10(6) == 1000000;
    NatToStringLength(100000 + d, 6);
    NatToStringValue(100000 + d);
    var s := CodeOf(d);
    if s[0] == '0' {
      LeadingZeroBound(s);
    }
  }

  /** Digits starting with 0 are worth less than 10^(n-1). */
  lemma {:induction false} LeadingZeroBound(s: string)
    requires |s| >= 1 && AllDigits(s) && s[0] == '0'
    ensures DigitsValue(s) < Pow10(|s| - 1)
    decreases |s|
  {
    if |s| > 1 {
      var t := s[..|s| - 1];
      assert t[0] == '0';
      LeadingZeroBound(t);
    } else {
      assert s[..0] == "";
    }
  }

  /** The code of the first draw that is not taken, None when every draw collides. */
  function FirstFresh(existing: seq<string>, draws: seq<nat>): (r: Option<string>)
    ensures r.Some? ==> r.value !in existing
    ensures r.Some? ==> exists i :: 0 <= i < |draws| && r.value == CodeOf(draws[i])
    ensures r.None? <==> forall i :: 0 <= i < |draws| ==> CodeOf(draws[i]) in existing
  {
    if draws == [] then None
    else if CodeOf(draws[0]) !in existing then Some(CodeOf(draws[0]))
    else
      var r := FirstFresh(existing, draws[1..]);
      assert forall i :: 1 <= i < |draws| ==> draws[i] == draws[1..][i - 1];
      r
  }

  /** The do-while loop: draw, and repeat while the code is already in use. */
  method GenerateUniqueCode(existing: seq<string>, draws: seq<nat>) returns (code: Option<string>)
    ensures code == FirstFresh(existing, draws)
  {
    code := None;
    var i := 0;
    while i < |draws| && code.None?
      invariant 0 <= i <= |draws|
      invariant code.None? ==> FirstFresh(existing, draws) == FirstFresh(existing, draws[i..])
      invariant code.Some? ==> code == FirstFresh(existing, draws)
    {
      var candidate := CodeOf(draws[i]);
      assert draws[i..][1..] == draws[i + 1..];
      if candidate !in existing {
        code := Some(candidate);
      }
      i := i + 1;
    }
  }
}
