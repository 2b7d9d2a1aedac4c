/** The C/Arduino numeric primitives the firmware relies on, over exact reals:
    the `abs` macro, the implicit double-to-int conversion, and C `round`. */
module Numerico {

  /** The Arduino `abs` macro applied to a double. */
  function Abs(x: real): (r: real)
    ensures r >= 0.0
    ensures r == x || r == -x
    ensures r == 0.0 <==> x == 0.0
  {
    if x < 0.0 then -x else x
  }

  /** The absolute value is multiplicative. */
  lemma AbsProducto(a: real, b: real)
    ensures Abs(a * b) == Abs(a) * Abs(b)
  {
  }

  /** Multiplying bounded non-negative factors bounds the product. */
  lemma ProductoAcotado(a: real, b: real, cotaA: real, cotaB: real)
    requires 0.0 <= a <= cotaA && 0.0 <= b <= cotaB
    ensures a * b <= cotaA * cotaB
  {
  }

  /** C's implicit conversion of a double to `int`: the fraction is discarded,
      i.e. the value is truncated toward zero. */
  function TruncarHaciaCero(x: real): (n: int)
    ensures 0.0 <= x ==> n as real <= x < n as real + 1.0
    ensures x < 0.0 ==> n as real - 1.0 < x <= n as real
  {
    if x >= 0.0 then x.Floor else -((-x).Floor)
  }

  /** `n` is what C `round` returns for `x`: the nearest integer, with halfway
      cases rounded away from zero. */
  predicate EsRedondeoC(x: real, n: int) {
    var d := n as real - x;
    && (x >= 0.0 ==> -0.5 < d <= 0.5)
    && (x < 0.0 ==> -0.5 <= d < 0.5)
  }

  /** C `round`. */
  function RedondearC(x: real): (n: int)
    ensures EsRedondeoC(x, n)
  {
    if x >= 0.0 then (x + 0.5).Floor else -((-x + 0.5).Floor)
  }

  /** At most one integer is the C rounding of a given real. */
  lemma RedondeoUnico(x: real, n1: int, n2: int)
    requires EsRedondeoC(x, n1) && EsRedondeoC(x, n2)
    ensures n1 == n2
  {
    var d := n1 as real - n2 as real;
    assert -1.0 < d < 1.0;
  }

  /** `RedondearC` is exactly the C rounding relation. */
  lemma RedondearCCaracterizado(x: real, n: int)
    ensures RedondearC(x) == n <==> EsRedondeoC(x, n)
  {
    if EsRedondeoC(x, n) {
      RedondeoUnico(x, RedondearC(x), n);
    }
  }

  /** Rounding is odd-symmetric: negating the input negates the result. */
  lemma RedondeoSimetrico(x: real)
    ensures RedondearC(-x) == -RedondearC(x)
  {
    RedondearCCaracterizado(-x, -RedondearC(x));
  }

  /** Sample values, halfway cases included. */
  lemma RedondeoEjemplos()
    ensures RedondearC(21.6) == 22
    ensures RedondearC(2.5) == 3
    ensures RedondearC(-2.5) == -3
    ensures RedondearC(-2.4) == -2
  {
    RedondearCCaracterizado(21.6, 22);
    RedondearCCaracterizado(2.5, 3);
    RedondearCCaracterizado(-2.5, -3);
    RedondearCCaracterizado(-2.4, -2);
  }
}
