/** Two-decimal rounding.

    The library rounds with `roundToTwoDecimals`, defined in a utility file
    that is not part of this model. Every operation therefore takes the
    rounding function as a parameter `round2: real -> real` and promises
    nothing about it; the predicates below name the few facts about it that
    some lemmas assume.

    `RoundHalfAwayFromZero` is an ASSUMED concrete rounding (half away from
    zero to whole cents). It is used only to check the library's worked
    examples; nothing else in the model depends on it. */
module Rounding {

  /** The amount of `c` cents. */
  function Cents(c: int): real {
    c as real / 100.0
  }

  /** `round2` leaves every whole number of cents as it is. */
  ghost predicate FixesCents(round2: real -> real) {
    forall c: int :: round2(Cents(c)) == Cents(c)
  }

  /** `round2` never yields a positive amount from a non-positive one. */
  ghost predicate PositiveOnlyFromPositive(round2: real -> real) {
    forall x: real :: round2(x) > 0.0 ==> x > 0.0
  }

  /** The number of cents `x` rounds to, halves going away from zero. */
  function RoundedCents(x: real): int {
    if x >= 0.0 then (x * 100.0 + 0.5).Floor else -((-x) * 100.0 + 0.5).Floor
  }

  /** ASSUMED definition of `roundToTwoDecimals` (see the module comment). */
  function RoundHalfAwayFromZero(x: real): real {
    Cents(RoundedCents(x))
  }

  /** The assumed rounding moves an amount by at most half a cent. */
  lemma RoundWithinHalfCent(x: real)
    ensures -0.005 <= RoundHalfAwayFromZero(x) - x <= 0.005
  {
    var y := if x >= 0.0 then x * 100.0 + 0.5 else (-x) * 100.0 + 0.5;
    assert y.Floor as real <= y < y.Floor as real + 1.0;
  }

  /** The assumed rounding is the identity on whole cents. */
  lemma RoundFixesCents()
    ensures FixesCents(RoundHalfAwayFromZero)
  {
    forall c: int ensures RoundHalfAwayFromZero(Cents(c)) == Cents(c) {
      if c >= 0 {
        assert (Cents(c) * 100.0 + 0.5).Floor == c;
      } else {
        assert ((-Cents(c)) * 100.0 + 0.5).Floor == -c;
      }
    }
  }

  /** Under the assumed rounding, only a positive amount rounds to a positive one. */
  lemma RoundPositiveOnlyFromPositive()
    ensures PositiveOnlyFromPositive(RoundHalfAwayFromZero)
  {
    forall x: real | RoundHalfAwayFromZero(x) > 0.0 ensures x > 0.0 {
      assert RoundedCents(x) > 0;
    }
  }
}
