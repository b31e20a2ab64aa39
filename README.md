# Quantum simulator and Quantum Guess, in Dafny

This project models the computational core of a small single-qubit
teaching application and proves properties about it. The core has two parts.

**The simulator** (`quantum_simulator.dfy`, module `QuantumSimulator`):
- complex arithmetic;
- the Hadamard and Ry(theta) gates, and gate application;
- the two fixed pipelines: H then Ry(theta) on |0>, and Ry(theta) alone on |0> for the quantum coin;
- measurement probabilities;
- sampled measurement counts;
- the Bloch vector;
- the sweep of theta over [0, pi].

**The guessing game**:
- `guessing_game.dfy`, module `GuessingGame`: the per-round probability generator for the three difficulty tiers, and the single-shot measurement.
- `quantum_guess.dfy`, module `QuantumGuess`: the game session. It is a class whose fields are the component's state hooks and whose methods are its handlers.
- `game_summary.dfy`, module `GameSummary`: the statistics the end-of-game summary screen computes.

`types.dfy` (module `Types`) holds the shared records.

Environment inputs are parameters:
- `Math.random()` draws are parameters, in the order the source makes the calls.
- `Math.cos`, `Math.sin`, `Math.PI` and the constant `1 / Math.sqrt(2)` come in as a `Math` record.
- The predicate `Sound(m)` states the exact facts about them that the proofs need: cos² + sin² = 1 for every angle, the values at 0 and at pi/2, PI > 0, and SQRT1_2 > 0 with square 1/2.

Numbers are exact reals, so the equalities proved hold exactly. The source gets them only up to floating-point rounding.

Edge cases of the code that the model keeps as written:
- **Medium and Hard ranges.** The complement branch `1 - base`, with base in [0.6, 0.8) or [0.85, 0.95), gives the intervals (0.2, 0.4] and (0.05, 0.15]. `GuessingGame.InTier` states these intervals, closed at the top.
- **Negative shot counts.** `simulateMeasurements` with a negative shot count runs no trial and returns `'1' = shots`.
- **Negative sweep steps.** `sweepTheta` with a negative `steps` gives no point.

## Model

| member | source | states |
|---|---|---|
| QuantumSimulator.MagnitudeSqMultiply | services/quantumSimulator.ts:7-9 | the squared magnitude of a product is the product of the squared magnitudes |
| QuantumSimulator.Conjugate | services/quantumSimulator.ts:8 | the conjugate has the same squared magnitude as the number |
| QuantumSimulator.ConjugateProperties | services/quantumSimulator.ts:7-9 | conjugating twice gives the number back, and conj(a)·a is the real squared magnitude of a |
| QuantumSimulator.HadamardGate | services/quantumSimulator.ts:13-20 | with exact 1/sqrt(2) the Hadamard matrix is real with orthonormal columns |
| QuantumSimulator.RyGate | services/quantumSimulator.ts:27-34 | with exact cos and sin the Ry(theta) matrix is real with orthonormal columns, for every theta |
| QuantumSimulator.ApplyGatePreservesNorm | services/quantumSimulator.ts:42-50 | applying a real orthogonal gate leaves the norm alpha·conj(alpha) + beta·conj(beta) unchanged, for every state |
| QuantumSimulator.HadamardIsInvolution | services/quantumSimulator.ts:17-20 | applying the Hadamard gate twice gives back any state |
| QuantumSimulator.RyZeroIsIdentity | services/quantumSimulator.ts:27-34 | Ry(0) leaves every state unchanged |
| QuantumSimulator.ApplyGate | services/quantumSimulator.ts:42-50 | applied to ket 0 the product picks out the gate's first column (norm preservation: ApplyGatePreservesNorm) |
| QuantumSimulator.HadamardOnZero | services/quantumSimulator.ts:58-60 | H takes ket 0 to the even superposition (1/sqrt(2), 1/sqrt(2)), a normalised state |
| QuantumSimulator.RyOnZero | services/quantumSimulator.ts:76-79 | Ry(theta) takes ket 0 to (cos(theta/2), sin(theta/2)), a normalised state |
| QuantumSimulator.GetMeasurementProbs | services/quantumSimulator.ts:91-95 | both probabilities are non-negative and add up to the state's norm, with no renormalisation |
| QuantumSimulator.RunSimulation | services/quantumSimulator.ts:57-67 | the result's probabilities are those of its state, the state is normalised, and p0 + p1 = 1 |
| QuantumSimulator.RunFlipSimulation | services/quantumSimulator.ts:75-83 | the result's probabilities are those of its state, the state is normalised, and p0 + p1 = 1 |
| QuantumSimulator.HadamardMidpoint | services/quantumSimulator.ts:58-60 | after the Hadamard step alone both outcomes have probability 1/2 |
| QuantumSimulator.RunSimulationClosedForm | services/quantumSimulator.ts:57-67 | p0 = (cos(theta/2) - sin(theta/2))²/2 and p1 = (cos(theta/2) + sin(theta/2))²/2 |
| QuantumSimulator.RunFlipSimulationClosedForm | services/quantumSimulator.ts:75-83 | the coin's p0 = cos²(theta/2) and p1 = sin²(theta/2) |
| QuantumSimulator.RunFlipSimulationEndpoints | services/quantumSimulator.ts:75-83 | the coin reads ket 0 with certainty at theta = 0 and ket 1 with certainty at theta = pi |
| QuantumSimulator.CountBelow | services/quantumSimulator.ts:108-112 | the number of shots that read '0' never exceeds the number of draws |
| QuantumSimulator.CountBelowCertain | services/quantumSimulator.ts:108-112 | with p0 >= 1 every draw in [0, 1) reads '0' |
| QuantumSimulator.CountBelowImpossible | services/quantumSimulator.ts:108-112 | with p0 <= 0 no draw in [0, 1) reads '0' |
| QuantumSimulator.CountBelowMonotone | services/quantumSimulator.ts:108-112 | a larger p0 never gives fewer '0' readings from the same draws |
| QuantumSimulator.SimulateMeasurements | services/quantumSimulator.ts:104-118 | '0' counts the draws below p0, the two counts add up to shots, both are within [0, shots] for non-negative shots, and zero shots give (0, 0) |
| QuantumSimulator.GetBlochVector | services/quantumSimulator.ts:128-138 | z is the difference p0 - p1 of the measurement probabilities |
| QuantumSimulator.BlochVectorOnSphere | services/quantumSimulator.ts:128-138 | every normalised state's vector has x² + y² + z² = 1 |
| QuantumSimulator.SimulationBlochVectorOnSphere | services/quantumSimulator.ts:128-138 | the states of both pipelines lie on the unit sphere, for every theta |
| QuantumSimulator.SweepTheta | services/quantumSimulator.ts:144-152 | steps + 1 points (none for negative steps); point i is (i/steps·pi, p0 of runSimulation there); the sweep starts at 0 and ends at pi; every prob is in [0, 1] |
| QuantumSimulator.SweepPointBounds | services/quantumSimulator.ts:147-149 | each sweep point's probability is in [0, 1] |
| QuantumSimulator.SweepEndpoints | services/quantumSimulator.ts:147 | the first angle is 0 and the last is pi |
| GuessingGame.InTier | services/guessingGame.ts:9-26 | every value a tier admits is a probability in [0, 1] |
| GuessingGame.Base | services/guessingGame.ts:15-20 | the base drawn from a value in [0, 1) lies in the tier's upper interval and is at least 1/2 |
| GuessingGame.GenerateRoundProbability | services/guessingGame.ts:9-26 | the result lies in the tier's range and in [0, 1]; for Medium and Hard it is the base exactly when the second draw is below 1/2 |
| GuessingGame.GenerateRoundProbabilityComplement | services/guessingGame.ts:16 | the two outcomes of the second draw give complementary probabilities |
| GuessingGame.TierIsReachable | services/guessingGame.ts:9-26 | every value of a tier's range is produced by some pair of draws, so the range is exact |
| GuessingGame.GetMeasurement | services/guessingGame.ts:34-36 | with p0 >= 1 the outcome is 0, and with p0 <= 0 it is 1 |
| GuessingGame.GetMeasurementIsOneShot | services/guessingGame.ts:34-36 | one measurement reads 0 exactly when a one-shot run of simulateMeasurements counts one '0' |
| GameSummary.CountCorrect | components/QuantumGuess.tsx:45-47 | the score never exceeds the number of rounds |
| GameSummary.CountCorrectAppend | components/QuantumGuess.tsx:45-49 | appending a round raises the score by one exactly when that round was correct |
| GameSummary.CountCorrectAll | components/quantum-guess/GameSummary.tsx:14 | the score equals the number of rounds exactly when every round was correct |
| GameSummary.Accuracy | components/quantum-guess/GameSummary.tsx:13-14 | an empty history has accuracy 0 |
| GameSummary.AccuracyBounds | components/quantum-guess/GameSummary.tsx:14 | with the game's score the accuracy is in [0, 100], and is 100 exactly when every guess was right |
| GameSummary.SumP0Bounds | components/quantum-guess/GameSummary.tsx:17 | the sum of n probabilities lies in [0, n] |
| GameSummary.SumP0Constant | components/quantum-guess/GameSummary.tsx:17 | the sum of n equal odds c is n·c |
| GameSummary.ExpectedP0 | components/quantum-guess/GameSummary.tsx:17 | the mean odds of ket 0 over well-formed rounds is in [0, 1], and when all rounds share the same odds it equals them |
| GameSummary.CountResult | components/quantum-guess/GameSummary.tsx:18 | the count of rounds with a given result never exceeds the number of rounds |
| GameSummary.CountResultPartition | components/quantum-guess/GameSummary.tsx:18 | every round read 0 or 1: the two counts add up to the number of rounds |
| GameSummary.ActualZeros | components/quantum-guess/GameSummary.tsx:18 | the rounds that read 0 are all the rounds except those that read 1 |
| GameSummary.ActualP0 | components/quantum-guess/GameSummary.tsx:19 | the observed share of ket 0 is in [0, 1] |
| GameSummary.ComparisonData | components/quantum-guess/GameSummary.tsx:21-24 | two bars; the expected shares add up to 100, the actual shares add up to 100, and the actual shares are in [0, 100] |
| GameSummary.ComparisonDataExpectedBounds | components/quantum-guess/GameSummary.tsx:21-24 | for well-formed rounds the expected shares are in [0, 100] |
| GameSummary.OutcomeCounts | components/quantum-guess/GameSummary.tsx:26-29 | two bars, ket 0 then ket 1, counting the rounds with each result, adding up to the number of rounds |
| QuantumGuess.Session.Valid | components/QuantumGuess.tsx:17-62 | the session invariant (listed below) implies 0 <= score <= number of records <= MAX_ROUNDS |
| QuantumGuess.Session.constructor | components/QuantumGuess.tsx:17-24 | the initial state: the difficulty selector, no tier, round 1, score 0, odds 1/2, empty history, no reveal in progress |
| QuantumGuess.Session.StartGame | components/QuantumGuess.tsx:26-35 | a new game of the chosen tier at round 1, score 0, empty history, with the generator's odds; the session invariant holds |
| QuantumGuess.Session.HandleGuess | components/QuantumGuess.tsx:37-50 | no change while revealing or outside a game; otherwise one record (guess, measurement at the current odds, correctness, odds) is appended, the score rises exactly when it is correct, and the reveal begins; the invariant is kept |
| QuantumGuess.Session.Advance | components/QuantumGuess.tsx:51-62 | before the last round: next round with fresh odds from the tier and the reveal cleared; after the last round: the summary, all else unchanged; the invariant is kept |
| QuantumGuess.Session.HandlePlayAgain | components/QuantumGuess.tsx:65-67 | back to the difficulty selector, nothing else changes; the invariant is kept |
| QuantumGuess.FinishedGameSummary | components/QuantumGuess.tsx:73-75 | a game that reaches the summary has MAX_ROUNDS records, accuracy in [0, 100] and 100 exactly when all guesses were right, mean odds in [0, 1] (1/2 for Easy), and outcome counts adding up to MAX_ROUNDS |

The session invariant `QuantumGuess.Session.Valid` says that:
- the score is the number of correct records;
- every record is consistent: its correctness flag matches guess = result, and its odds are in [0, 1];
- every record's odds and the current odds lie in the chosen tier's range;
- while playing, the history holds one record per finished round, plus the current round's record while its result is being revealed;
- a game at the summary has exactly MAX_ROUNDS = 10 records.

## Left out

- Rendering: the JSX, the charts' colours and labels, and the icons are not modelled. `GameSummary.ComparisonBar` drops the row name 'Probability', and `GameSummary.OutcomeCount` carries the outcome 0 or 1 instead of the label string.
- Random draws: `Math.random()` is a parameter (`draws`, `r1`, `r2`, `draw`). The model states what each draw leads to, not how the draws are distributed.
- GuessingGame.GenerateRoundProbability: its contract gives the exact range of each tier, not the uniform distribution over it, because draws are parameters.
- Trigonometry and square roots: `Math.cos`, `Math.sin`, `Math.PI` and `Math.sqrt` are fields of the `Math` record. Every property that needs their values holds under `Sound(m)`; nothing is proved about the floating-point library.
- QuantumSimulator.RunSimulation: normalisation and p0 + p1 = 1 are exact equalities over the reals under `Sound(m)`. The source gets them only up to rounding.
- Floating point: the numbers are exact reals. IEEE rounding, NaN and infinities are not modelled. The display rounding (`toFixed`) is not modelled either.
- QuantumSimulator.SimulateMeasurements: `shots` is an integer. A fractional JavaScript number of shots is not modelled.
- QuantumSimulator.SweepTheta: `steps == 0` is excluded by its precondition, because the source then divides 0 by 0 and yields a NaN point. The default argument of 100 is left to the caller.
- GameSummary.ExpectedP0, GameSummary.ActualP0 and GameSummary.ComparisonData require a non-empty history. For an empty history the source divides by zero and gets NaN. The session shows the summary only after all 10 rounds.
- The `default` branch of the difficulty switch (returning 0.5) is unreachable because `Difficulty` has exactly three values.
- QuantumGuess.Session.Advance: the 1.5-second `setTimeout` is not modelled as time. Its callback is the method `Advance`, and the host calls it only in the state where the source schedules it: playing, with a reveal in progress. The callback reads `round` and `difficulty` from the closure created at guess time. Between the guess and the callback no handler can change them, so the model reads the current fields.
- React state updates: each handler's updates are applied at once in program order. React's batching and re-rendering are not modelled, and neither is a timer firing after the component unmounts.
- The other screens and components (the simulator controls, the coin, the plots and the histogram) are not part of this model.
