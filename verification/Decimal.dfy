/** Decimal rendering of resource versions, as they appear in annotations. */
module Decimal {

  function Digit(d: nat): char
    requires d < 10
  {
    '0' + d as char
  }

  function Render(n: nat): (s: string)
    ensures |s| > 0
  {
    if n < 10 then [Digit(n)] else Render(n / 10) + [Digit(n % 10)]
  }

  lemma {:induction false} RenderInjective(m: nat, n: nat)
    requires Render(m) == Render(n)
    ensures m == n
  {
    var s, t := Render(m), Render(n);
    assert s[|s| - 1] == Digit(m % 10) && t[|t| - 1] == Digit(n % 10);
    if m >= 10 && n >= 10 {
      assert Render(m / 10) == s[..|s| - 1] && Render(n / 10) == t[..|t| - 1];
      RenderInjective(m / 10, n / 10);
    }
  }

  /** The number a row of decimal digits stands for. */
  function Value(s: string): int {
    if s == [] then 0 else 10 * Value(s[..|s| - 1]) + (s[|s| - 1] as int - '0' as int)
  }

  /** The rendering is the number's decimal notation: digits only, no leading zero, that value. */
  lemma {:induction false} RenderValue(n: nat)
    ensures Value(Render(n)) == n
    ensures forall i :: 0 <= i < |Render(n)| ==> '0' <= Render(n)[i] <= '9'
    ensures |Render(n)| > 1 ==> Render(n)[0] != '0'
    decreases n
  {
    var s := Render(n);
    if n >= 10 {
      RenderValue(n / 10);
      assert s[..|s| - 1] == Render(n / 10);
      if n / 10 < 10 { assert Render(n / 10) == [Digit(n / 10)]; }
    } else {
      assert s[..|s| - 1] == [];
    }
  }
}
