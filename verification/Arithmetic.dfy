/** Facts about products and remainders of variables that the solver does not find alone. */
module Arithmetic {

  lemma MulMonotone(a: nat, b: nat, c: nat)
    requires b <= c
    ensures a * b <= a * c
  {}

  lemma SmallMod(x: nat, m: nat)
    requires x < m
    ensures x % m == x
  {}
}
