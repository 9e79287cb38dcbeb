/** meta/elo.h: rating points after a decided match.  The expected score is any curve with
    values in [0, 1] that rises with one's own rating, falls with the opponent's, and gives
    equal ratings one half. */
module Elo {
  type Curve = (int, int) -> real

  ghost predicate IsCurve(expected: Curve) {
    (forall r, s :: 0.0 <= expected(r, s) <= 1.0) && (forall r :: expected(r, r) == 0.5) &&
    (forall q, r, s :: q <= r ==> expected(q, s) <= expected(r, s)) &&
    (forall q, r, s :: q <= r ==> expected(s, r) <= expected(s, q))
  }

  function KFactor(rating: int): int { if rating < 300 then 32 else if rating < 600 then 24 else 16 }

  /** std::round: to the nearest integer, halves away from zero. */
  function Round(x: real): int { if x >= 0.0 then (x + 0.5).Floor else -((-x + 0.5).Floor) }

  datatype Update = Update(winner: int, loser: int)

  function AtLeastZero(x: int): int { if x < 0 then 0 else x }

  function Updated(winner: int, loser: int, expected: Curve): Update {
    Update(Won(winner, expected(winner, loser)), Lost(loser, expected(loser, winner)))
  }

  function Won(rating: int, e: real): int {
    AtLeastZero(rating + Round(KFactor(rating) as real * (1.0 - e)))
  }

  function Lost(rating: int, e: real): int {
    AtLeastZero(rating + Round(KFactor(rating) as real * (0.0 - e)))
  }

  lemma RoundBounds(x: real, k: int)
    requires 0.0 <= x <= k as real
    ensures 0 <= Round(x) <= k && Round(-x) == -Round(x)
  {}

  lemma ScaledBounds(k: int, e: real)
    requires 0 <= k && 0.0 <= e <= 1.0
    ensures 0.0 <= k as real * e <= k as real && k as real * (0.0 - e) == -(k as real * e)
  {}

  /** The winner never loses points, the loser never gains any and never falls below zero;
      nobody moves by more than the K factor. */
  lemma UpdateBounds(winner: int, loser: int, expected: Curve)
    requires IsCurve(expected) && winner >= 0 && loser >= 0
    ensures var u := Updated(winner, loser, expected);
            winner <= u.winner <= winner + KFactor(winner) && 0 <= u.loser <= loser <= u.loser + KFactor(loser)
  {
    ScaledBounds(KFactor(winner), 1.0 - expected(winner, loser));
    ScaledBounds(KFactor(loser), expected(loser, winner));
    RoundBounds(KFactor(winner) as real * (1.0 - expected(winner, loser)), KFactor(winner));
    RoundBounds(KFactor(loser) as real * expected(loser, winner), KFactor(loser));
  }

  /** Between equals half the K factor changes hands. */
  lemma EqualRatings(rating: int, expected: Curve)
    requires IsCurve(expected) && rating >= 0
    ensures Updated(rating, rating, expected).winner == rating + KFactor(rating) / 2
    ensures Updated(rating, rating, expected).loser == AtLeastZero(rating - KFactor(rating) / 2)
  {
    assert expected(rating, rating) == 0.5;
  }

  lemma RoundNearest(x: real)
    ensures x - 0.5 <= Round(x) as real <= x + 0.5
  {}

  lemma RoundMonotone(x: real, y: real)
    requires x <= y
    ensures Round(x) <= Round(y)
  {}

  /** The higher the rating, the less it moves. */
  lemma KFalls(r: int, s: int)
    requires r <= s
    ensures 16 <= KFactor(s) <= KFactor(r) <= 32
  {}

  lemma ScaledMonotone(j: int, k: int, x: real, y: real)
    requires 0 <= j <= k && 0.0 <= x <= y
    ensures j as real * x <= k as real * y
  {
    assert j as real * x <= k as real * x;
    assert k as real * x <= k as real * y;
  }

  lemma WonFalls(rating: int, x: real, y: real)
    requires 0.0 <= x <= y <= 1.0
    ensures Won(rating, y) <= Won(rating, x)
  {
    var k := KFactor(rating);
    ScaledMonotone(k, k, 1.0 - y, 1.0 - x);
    RoundMonotone(k as real * (1.0 - y), k as real * (1.0 - x));
  }

  lemma LostFalls(rating: int, x: real, y: real)
    requires 0.0 <= x <= y <= 1.0
    ensures Lost(rating, y) <= Lost(rating, x)
  {
    var k := KFactor(rating);
    ScaledMonotone(k, k, x, y);
    assert k as real * (0.0 - x) == -(k as real * x) && k as real * (0.0 - y) == -(k as real * y);
    RoundMonotone(k as real * (0.0 - y), k as real * (0.0 - x));
  }

  lemma GainFalls(low: int, high: int, x: real, y: real)
    requires 0 <= low <= high && 0.0 <= x <= y <= 1.0
    ensures Won(high, y) - high <= Won(low, x) - low
  {
    KFalls(low, high);
    ScaledMonotone(KFactor(high), KFactor(low), 1.0 - y, 1.0 - x);
    RoundMonotone(KFactor(high) as real * (1.0 - y), KFactor(low) as real * (1.0 - x));
    RoundMonotone(0.0, KFactor(high) as real * (1.0 - y));
  }

  lemma CurveSlopes(expected: Curve, low: int, high: int, s: int)
    requires IsCurve(expected) && low <= high
    ensures 0.0 <= expected(low, s) <= expected(high, s) <= 1.0
    ensures 0.0 <= expected(s, high) <= expected(s, low) <= 1.0
  {}

  /** Beating a stronger opponent never pays less. */
  lemma StrongerOpponent(winner: int, weak: int, strong: int, expected: Curve)
    requires IsCurve(expected) && weak <= strong
    ensures Updated(winner, weak, expected).winner <= Updated(winner, strong, expected).winner
  {
    CurveSlopes(expected, weak, strong, winner);
    WonFalls(winner, expected(winner, strong), expected(winner, weak));
  }

  /** Losing to a weaker opponent never costs less. */
  lemma WeakerOpponent(loser: int, weak: int, strong: int, expected: Curve)
    requires IsCurve(expected) && weak <= strong
    ensures Updated(weak, loser, expected).loser <= Updated(strong, loser, expected).loser
  {
    CurveSlopes(expected, weak, strong, loser);
    LostFalls(loser, expected(loser, strong), expected(loser, weak));
  }

  /** An underdog who wins gains at least what the favourite would have gained. */
  lemma UpsetPaysMore(low: int, high: int, expected: Curve)
    requires IsCurve(expected) && 0 <= low <= high
    ensures Updated(low, high, expected).winner - low >= Updated(high, low, expected).winner - high
  {
    CurveSlopes(expected, low, high, low);
    CurveSlopes(expected, low, high, high);
    GainFalls(low, high, expected(low, high), expected(high, low));
  }
}
