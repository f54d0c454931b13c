/**
 Division that rounds up.
 */
module Rounding {

  lemma MulStep(n: nat, c: nat)
    ensures (n + 1) * c == n * c + c
  {
  }

  lemma MulMono(a: nat, b: nat, c: nat)
    requires a <= b
    ensures a * c <= b * c
  {
  }

  lemma FewerThan(k: nat, count: nat, chunk: nat)
    requires k * chunk < count * chunk
    ensures k < count
  {
  }

  function DivCeil(n: nat, d: nat): nat
    requires d > 0
  {
    if n % d == 0 then n / d else n / d + 1
  }

  lemma DivCeilBounds(n: nat, d: nat)
    requires d > 0 && n > 0
    ensures DivCeil(n, d) > 0 && (DivCeil(n, d) - 1) * d < n <= DivCeil(n, d) * d
  {
  }

  lemma DivCeilLeast(n: nat, d: nat, q: nat)
    requires d > 0 && 0 < n <= q * d
    ensures DivCeil(n, d) <= q
  {
    DivCeilBounds(n, d);
    FewerThan(DivCeil(n, d) - 1, q, d);
  }
}
