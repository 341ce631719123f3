/** Integers rendered with `%d`. */
module Decimal {

  function Digit(n: nat): (c: char)
    requires n < 10
  {
    "0123456789"[n]
  }

  function RenderNat(n: nat): (s: string) {
    if n < 10 then [Digit(n)] else RenderNat(n / 10) + [Digit(n % 10)]
  }

  function Render(n: int): (s: string) {
    if n < 0 then "-" + RenderNat(-n) else RenderNat(n)
  }

  predicate IsDigit(c: char) {
    '0' <= c <= '9'
  }

  lemma {:induction false} RenderNatShape(n: nat)
    ensures RenderNat(n) != [] && forall i :: 0 <= i < |RenderNat(n)| ==> IsDigit(RenderNat(n)[i])
  {
    if n >= 10 { RenderNatShape(n / 10); }
  }

  /** The number that a string of digits stands for. */
  function Value(s: string): (n: int) {
    if s == [] then 0 else 10 * Value(s[..|s| - 1]) + (s[|s| - 1] as int - '0' as int)
  }

  lemma {:induction false} RenderNatValue(n: nat)
    ensures Value(RenderNat(n)) == n
  {
    var s := RenderNat(n);
    assert Digit(n % 10) as int - '0' as int == n % 10;
    if n < 10 {
      assert s[..0] == [];
    } else {
      RenderNatValue(n / 10);
      assert s[..|s| - 1] == RenderNat(n / 10);
    }
  }

  /** A rendered number reads back as itself: digits only, after a minus sign if it is negative. */
  lemma RenderValue(n: int)
    ensures n >= 0 ==> Value(Render(n)) == n && forall i :: 0 <= i < |Render(n)| ==> IsDigit(Render(n)[i])
    ensures n < 0 ==> Render(n)[0] == '-' && Value(Render(n)[1..]) == -n
  {
    RenderNatShape(if n < 0 then -n else n);
    RenderNatValue(if n < 0 then -n else n);
    if n < 0 { assert Render(n)[1..] == RenderNat(-n); }
  }

  /** Different numbers are written differently, and every number ends in a digit. */
  lemma RenderInjective(m: int, n: int)
    ensures Render(m) == Render(n) ==> m == n
    ensures Render(m) != [] && IsDigit(Render(m)[|Render(m)| - 1])
  {
    RenderNatShape(if m < 0 then -m else m);
    RenderValue(m);
    RenderValue(n);
    RenderStart(m);
    RenderStart(n);
  }

  /** The first character tells the sign. */
  lemma RenderStart(n: int)
    ensures Render(n) != [] && (Render(n)[0] == '-' <==> n < 0)
  {
    RenderNatShape(if n < 0 then -n else n);
  }
}
