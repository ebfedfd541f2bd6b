/** The few facts about multiplication and division the bounds need. */
module Arithmetic {

  lemma DivLaw(a: nat, b: nat)
    requires b > 0
    ensures a == b * (a / b) + a % b && 0 <= a % b < b
  {
  }

  lemma LessOfMul(a: int, b: int, c: int)
    requires c > 0 && a * c < b * c
    ensures a < b
  {
  }

  lemma AtMostOfMul(a: int, b: int, c: int)
    requires c > 0 && a * c < (b + 1) * c
    ensures a <= b
  {
    LessOfMul(a, b + 1, c);
  }

  lemma MulMonotone(a: int, b: int, c: int)
    requires a <= b && 0 <= c
    ensures a * c <= b * c
  {
  }
}
