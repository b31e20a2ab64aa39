/**
 * The probability generator and the one-shot measurement of the guessing
 * game. Every `Math.random()` call of the source is a parameter here, in
 * the order the source makes the calls.
 */
module GuessingGame {
  import opened Types
  import QuantumSimulator

  /** The values the source can return for a tier: its two half-open intervals, or 0.5 for Easy. */
  predicate InTier(d: Difficulty, p: real)
    ensures InTier(d, p) ==> 0.0 <= p <= 1.0
  {
    match d
    case Easy => p == 0.5
    case Medium => 0.6 <= p < 0.8 || 0.2 < p <= 0.4
    case Hard => 0.85 <= p < 0.95 || 0.05 < p <= 0.15
  }

  /**
   * The tier's base value for the first draw: Medium in [0.6, 0.8), Hard
   * in [0.85, 0.95), so always a value of the tier that favours |0>.
   */
  function Base(d: Difficulty, r1: real): (b: real)
    ensures IsDraw(r1) ==> InTier(d, b) && b >= 0.5
  {
    match d
    case Easy => 0.5
    case Medium => r1 * 0.2 + 0.6
    case Hard => r1 * 0.1 + 0.85
  }

  /**
   * The probability of reading |0> for a new round: `r1` draws the base,
   * `r2` picks the base (below one half) or its complement.
   */
  function GenerateRoundProbability(d: Difficulty, r1: real, r2: real): (p: real)
    requires IsDraw(r1)
    ensures InTier(d, p)
    ensures 0.0 <= p <= 1.0
    ensures d != Easy ==> (p == Base(d, r1) <==> r2 < 0.5)
  {
    match d
    case Easy => 0.5
    case Medium =>
      var base := Base(d, r1);
      if r2 < 0.5 then base else 1.0 - base
    case Hard =>
      var base := Base(d, r1);
      if r2 < 0.5 then base else 1.0 - base
  }

  /** The two halves of the coin on the second draw give complementary probabilities. */
  lemma GenerateRoundProbabilityComplement(d: Difficulty, r1: real, r2: real, r2': real)
    requires IsDraw(r1)
    requires r2 < 0.5 <= r2'
    ensures GenerateRoundProbability(d, r1, r2) + GenerateRoundProbability(d, r1, r2') == 1.0
  {
  }

  /** Every value of a tier is produced by some pair of draws: InTier is exactly the range. */
  lemma TierIsReachable(d: Difficulty, p: real)
    requires InTier(d, p)
    ensures exists r1, r2 :: IsDraw(r1) && IsDraw(r2) && GenerateRoundProbability(d, r1, r2) == p
  {
    match d
    case Easy =>
      assert GenerateRoundProbability(d, 0.0, 0.0) == p;
    case Medium =>
      if 0.6 <= p < 0.8 {
        var r1 := (p - 0.6) * 5.0;
        assert GenerateRoundProbability(d, r1, 0.0) == p;
      } else {
        var r1 := (0.4 - p) * 5.0;
        assert GenerateRoundProbability(d, r1, 0.5) == p;
      }
    case Hard =>
      if 0.85 <= p < 0.95 {
        var r1 := (p - 0.85) * 10.0;
        assert GenerateRoundProbability(d, r1, 0.0) == p;
      } else {
        var r1 := (0.15 - p) * 10.0;
        assert GenerateRoundProbability(d, r1, 0.5) == p;
      }
  }

  /** One measurement: |0> when the draw falls below p0, |1> otherwise. */
  function GetMeasurement(p0: real, draw: real): (r: Guess)
    ensures IsDraw(draw) && p0 >= 1.0 ==> r == 0
    ensures IsDraw(draw) && p0 <= 0.0 ==> r == 1
  {
    if draw < p0 then 0 else 1
  }

  /** A measurement is one shot of the simulator's sampler: it reads 0 exactly when the shot counts a zero. */
  lemma GetMeasurementIsOneShot(p0: real, draw: real)
    ensures GetMeasurement(p0, draw) == 0 <==> QuantumSimulator.CountBelow([draw], p0) == 1
    ensures GetMeasurement(p0, draw) == 1 <==> QuantumSimulator.CountBelow([draw], p0) == 0
  {
    assert [draw][..0] == [];
  }
}
