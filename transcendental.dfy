/** The floating-point library calls the studio relies on (Math.sin, Math.cos,
    Math.exp, Math.sqrt and the constant Math.PI), kept abstract.  A `MathLib`
    value supplies them; `Lawful` states the only facts the model assumes about
    them.  Arithmetic is over `real`: IEEE rounding is not modelled. */
module Transcendental {

  datatype MathLib = MathLib(
    sin: real -> real,
    cos: real -> real,
    exp: real -> real,
    sqrt: real -> real,
    pi: real)

  function Square(v: real): real
  {
    v * v
  }

  /** The axioms: pi is positive, sin 0 = 0, cos 0 = 1, sin² + cos² = 1, and
      sqrt returns the non-negative square root of a non-negative argument. */
  ghost predicate Lawful(m: MathLib) {
    && m.pi > 0.0
    && m.sin(0.0) == 0.0
    && m.cos(0.0) == 1.0
    && (forall t {:trigger Square(m.sin(t))} :: Square(m.sin(t)) + Square(m.cos(t)) == 1.0)
    && (forall x :: 0.0 <= x ==> 0.0 <= m.sqrt(x))
    && (forall x {:trigger Square(m.sqrt(x))} :: 0.0 <= x ==> Square(m.sqrt(x)) == x)
  }

  /** The Pythagorean identity at one angle.  (The laws carry `Square` triggers so
      that they are instantiated only where a proof asks for them.) */
  lemma Pythagoras(m: MathLib, t: real)
    requires Lawful(m)
    ensures m.sin(t) * m.sin(t) + m.cos(t) * m.cos(t) == 1.0
  {
    assert Square(m.sin(t)) + Square(m.cos(t)) == 1.0;
  }

  /** The defining property of sqrt at one argument. */
  lemma SqrtSquared(m: MathLib, x: real)
    requires Lawful(m) && 0.0 <= x
    ensures 0.0 <= m.sqrt(x) && m.sqrt(x) * m.sqrt(x) == x
  {
    assert Square(m.sqrt(x)) == x;
  }

  /** The square root of a positive number is positive, so it can divide. */
  lemma SqrtPositive(m: MathLib, x: real)
    requires Lawful(m) && 0.0 < x
    ensures 0.0 < m.sqrt(x)
  {
    SqrtSquared(m, x);
  }

  /** A non-negative number whose square is x is the square root of x. */
  lemma SqrtUnique(m: MathLib, a: real, x: real)
    requires Lawful(m) && 0.0 <= a && a * a == x
    ensures m.sqrt(x) == a
  {
    var s := m.sqrt(x);
    SqrtSquared(m, x);
    if a < s {
      calc {
        x;
      == a * a;
      <= a * s;
      < s * s;
      }
    } else if s < a {
      calc {
        x;
      == s * s;
      <= s * a;
      < a * a;
      }
    }
  }
}
