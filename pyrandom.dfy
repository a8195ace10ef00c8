/** The random source of both generators, made explicit: every call of
    `random.random()` becomes a parameter in [0, 1). */
module PyRandom {

  /** A value `random.random()` can return. */
  type Unit = u: real | 0.0 <= u < 1.0

  /** The three draws one catalog item may consume, in the order the
      generator calls `random.random()` / `random.uniform()`. */
  datatype Draws = Draws(u1: Unit, u2: Unit, u3: Unit)

  /** `c * u` for a draw u: it lies between 0 and c, short of c when c > 0. */
  function Scale(c: real, u: Unit): (r: real)
    ensures c >= 0.0 ==> 0.0 <= r <= c
    ensures c <= 0.0 ==> c <= r <= 0.0
    ensures c > 0.0 ==> r < c
  {
    var r := c * u;
    assert c - r == c * (1.0 - u);
    if c >= 0.0 then
      ProductSign(c, u);
      ProductSign(c, 1.0 - u);
      r
    else
      ProductSign(-c, u);
      ProductSign(-c, 1.0 - u);
      assert -c * u == -r && -c * (1.0 - u) == r - c;
      r
  }

  /** The product of two non-negative reals is non-negative, and positive
      when both factors are. */
  lemma ProductSign(x: real, y: real)
    requires x >= 0.0 && y >= 0.0
    ensures x * y >= 0.0
    ensures x > 0.0 && y > 0.0 ==> x * y > 0.0
  {
  }

  /** `random.uniform(a, b)`, which CPython computes as `a + (b - a) * random()`:
      a value between the two end points, never the upper one when a < b. */
  function Uniform(a: real, b: real, u: Unit): (x: real)
    ensures a <= b ==> a <= x <= b
    ensures b <= a ==> b <= x <= a
    ensures a < b ==> x < b
  {
    a + Scale(b - a, u)
  }
}
