/** Small facts of real and integer arithmetic that the solver does not find
    on its own in larger contexts. */
module RealArith {

  lemma MulNonNegative(a: real, b: real)
    requires 0.0 <= a && 0.0 <= b
    ensures 0.0 <= a * b
  {
  }

  lemma DivNonNegative(a: real, b: real)
    requires 0.0 <= a && 0.0 < b
    ensures 0.0 <= a / b
  {
  }

  lemma MulSucc(d: real, x: real)
    ensures (d + 1.0) * x == d * x + x
  {
  }

  lemma ZeroFactor(a: real, b: real)
    requires a * b == 0.0 && b != 0.0
    ensures a == 0.0
  {
  }

  /** Division undoes multiplication by a non-zero factor. */
  lemma DivUnique(x: real, y: real, d: real)
    requires d != 0.0 && x * d == y
    ensures x == y / d
  {
    ZeroFactor(x - y / d, d);
  }

  lemma MulMono(m: nat, a: int, b: int)
    requires a <= b
    ensures m * a <= m * b
  {
  }
}
