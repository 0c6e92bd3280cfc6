/** JavaScript's `Math.round`, over exact reals. */
module Numeros {

  /** Rounds half-way cases up, as `Math.round` does: `Round(2.5) == 3`, `Round(-2.5) == -2`. */
  function Round(x: real): (r: int)
    ensures x - 0.5 < r as real <= x + 0.5
  {
    (x + 0.5).Floor
  }

  /** Rounding an integer gives it back. */
  lemma RoundInteiro(k: int)
    ensures Round(k as real) == k
  {
  }

  /** Rounding a non-negative number gives a non-negative integer. */
  lemma RoundNaoNegativo(x: real)
    requires x >= 0.0
    ensures Round(x) >= 0
  {
  }
}
