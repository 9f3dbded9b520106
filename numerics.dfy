/** The numeric environment of the add-in: Python's `math.sin`, `math.cos`,
    `math.sqrt` and `math.pi`, kept uninterpreted. The model never computes
    them; it only relies on the facts collected in `Valid`. */
module Numerics {

  datatype Option<+T> = None | Some(value: T)

  /** The trigonometric and square-root functions of Python's `math` module,
      passed around as values so that no axiom has to be postulated. */
  datatype Math = Math(sin: real -> real, cos: real -> real, sqrt: real -> real, pi: real)

  /** The only facts about `math` the model uses. */
  ghost predicate Valid(m: Math)
  {
    && m.pi > 0.0
    && (forall x :: -1.0 <= m.sin(x) <= 1.0)
    && (forall x :: m.sin(x) * m.sin(x) + m.cos(x) * m.cos(x) == 1.0)
    && (forall x :: 0.0 <= x ==> 0.0 <= m.sqrt(x) && m.sqrt(x) * m.sqrt(x) == x)
  }

  lemma SqrtPositive(m: Math, x: real)
    requires Valid(m) && 0.0 < x
    ensures 0.0 < m.sqrt(x)
  {
    assert m.sqrt(x) * m.sqrt(x) == x;
  }

  /** `sqrt` is monotone on the non-negative reals. */
  lemma SqrtMonotone(m: Math, x: real, y: real)
    requires Valid(m) && 0.0 <= x <= y
    ensures m.sqrt(x) <= m.sqrt(y)
  {
    assert m.sqrt(x) * m.sqrt(x) == x && 0.0 <= m.sqrt(x);
    assert m.sqrt(y) * m.sqrt(y) == y && 0.0 <= m.sqrt(y);
    SquareOrder(m.sqrt(x), m.sqrt(y));
  }

  /** Squaring preserves order on the non-negative reals, so a smaller
      square has a smaller non-negative root. */
  lemma SquareOrder(a: real, b: real)
    requires 0.0 <= a && 0.0 <= b && a * a <= b * b
    ensures a <= b
  {
    if b < a {
      MulLeftStrict(a - b, 0.0, a + b);
    }
  }

  lemma MulLeftMono(c: real, x: real, y: real)
    requires 0.0 <= c && x <= y
    ensures c * x <= c * y
  {
  }

  lemma MulLeftStrict(c: real, x: real, y: real)
    requires 0.0 < c && x < y
    ensures c * x < c * y
  {
  }
}
