/**
 * The record types shared by the simulator, the guessing game and its
 * summary view. The numeric fields of the source are IEEE doubles; here
 * they are exact reals.
 */
module Types {

  /** A complex number as a (real part, imaginary part) pair. */
  datatype Complex = Complex(re: real, im: real)

  /** A qubit state: the amplitudes of |0> and |1>, in that order. */
  datatype QubitState = QubitState(alpha: Complex, beta: Complex)

  /** The Bloch vector [x, y, z] of a state. */
  datatype BlochVector = BlochVector(x: real, y: real, z: real)

  /** How many of a batch of shots read '0' and how many read '1'. */
  datatype MeasurementCounts = MeasurementCounts(zeros: int, ones: int)

  /** The probabilities of reading |0> and |1>. */
  datatype Probabilities = Probabilities(p0: real, p1: real)

  /** One point of the probability-versus-angle curve. */
  datatype SweepData = SweepData(theta: real, prob: real)

  /** A guess or a measurement outcome in the guessing game: 0 or 1. */
  type Guess = b: int | 0 <= b <= 1

  /** The three difficulty tiers a player can pick. */
  datatype Difficulty = Easy | Medium | Hard

  /** One finished round of the guessing game. */
  datatype GuessRound = GuessRound(guess: Guess, result: Guess, isCorrect: bool, p0: real)

  /** A value that may be absent (the source's `null`). */
  datatype Option<T> = None | Some(value: T)

  /** A draw of `Math.random()`: a real in [0, 1). */
  predicate IsDraw(r: real)
  {
    0.0 <= r < 1.0
  }
}
