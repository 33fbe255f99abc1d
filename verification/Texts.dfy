/** Decimal text, and the code-point order in which stored text is compared. */
module Texts {
  predicate IsDigit(c: char) { '0' <= c <= '9' }

  predicate AllDigits(s: string) {
    forall i | 0 <= i < |s| :: IsDigit(s[i])
  }

  function Digit(d: nat): (c: char)
    requires d < 10
    ensures IsDigit(c)
  {
    ('0' as int + d) as char
  }

  function Value(c: char): nat
    requires IsDigit(c)
  {
    c as int - '0' as int
  }

  /** `int(text)` for a text of ASCII digits. */
  function Number(s: string): nat
    requires AllDigits(s)
  {
    if s == [] then 0 else 10 * Number(s[..|s| - 1]) + Value(s[|s| - 1])
  }

  /** `str(n)`. */
  function Decimal(n: nat): (s: string)
    ensures s != [] && AllDigits(s)
  {
    if n < 10 then [Digit(n)] else Decimal(n / 10) + [Digit(n % 10)]
  }

  lemma {:induction false} NumberOfDecimal(n: nat)
    ensures Number(Decimal(n)) == n
  {
    if n >= 10 {
      NumberOfDecimal(n / 10);
      assert Decimal(n)[..|Decimal(n)| - 1] == Decimal(n / 10);
    }
  }

  function Pow10(w: nat): (p: nat)
    ensures p > 0
  {
    if w == 0 then 1 else 10 * Pow10(w - 1)
  }

  /** `f"{n:0{w}d}"` for a number that fits. */
  function Digits(n: nat, w: nat): (s: string)
    ensures |s| == w && AllDigits(s)
  {
    if w == 0 then [] else Digits(n / 10, w - 1) + [Digit(n % 10)]
  }

  lemma {:induction false} NumberOfDigits(n: nat, w: nat)
    requires n < Pow10(w)
    ensures Number(Digits(n, w)) == n
  {
    if w > 0 {
      NumberOfDigits(n / 10, w - 1);
      assert Digits(n, w)[..w - 1] == Digits(n / 10, w - 1);
    }
  }

  /** `a < b` as text. */
  predicate TextLess(a: string, b: string) {
    b != [] && (a == [] || a[0] < b[0] || (a[0] == b[0] && TextLess(a[1..], b[1..])))
  }

  lemma {:induction false} SplitOrder(p: string, q: string, a: string, b: string)
    requires |p| == |q|
    ensures TextLess(p + a, q + b) <==> TextLess(p, q) || (p == q && TextLess(a, b))
  {
    if p == [] {
      assert p + a == a && q + b == b;
    } else {
      SplitOrder(p[1..], q[1..], a, b);
      assert (p + a)[1..] == p[1..] + a && (q + b)[1..] == q[1..] + b;
      assert p == [p[0]] + p[1..] && q == [q[0]] + q[1..];
    }
  }

  /** Texts of one width compare as their numbers. */
  lemma {:induction false} DigitsOrder(a: nat, b: nat, w: nat)
    requires a < Pow10(w) && b < Pow10(w)
    ensures TextLess(Digits(a, w), Digits(b, w)) <==> a < b
    ensures Digits(a, w) == Digits(b, w) <==> a == b
  {
    if w > 0 {
      DigitsOrder(a / 10, b / 10, w - 1);
      var x, y := [Digit(a % 10)], [Digit(b % 10)];
      SplitOrder(Digits(a / 10, w - 1), Digits(b / 10, w - 1), x, y);
      assert TextLess(x, y) <==> a % 10 < b % 10;
      if Digits(a, w) == Digits(b, w) {
        assert Digits(a / 10, w - 1) == Digits(a, w)[..w - 1] && Digits(b / 10, w - 1) == Digits(b, w)[..w - 1];
        assert x[0] == Digits(a, w)[w - 1] && y[0] == Digits(b, w)[w - 1];
      }
    }
  }
}
