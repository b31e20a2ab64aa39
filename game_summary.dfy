/**
 * The statistics the end-of-game summary shows: the accuracy, the mean
 * odds of |0> over the rounds against the share of rounds that read |0>,
 * and the count of each outcome.
 */
module GameSummary {
  import opened Types

  /** A round record as the game creates it: the flag agrees with the guess and the odds are a probability. */
  predicate WellFormedRound(g: GuessRound)
  {
    g.isCorrect == (g.guess == g.result) && 0.0 <= g.p0 <= 1.0
  }

  /** Every record of a history is well formed. */
  predicate WellFormedHistory(h: seq<GuessRound>)
  {
    forall k :: 0 <= k < |h| ==> WellFormedRound(h[k])
  }

  /** The number of rounds guessed correctly: what the game's score counts. */
  function CountCorrect(h: seq<GuessRound>): (n: nat)
    ensures n <= |h|
  {
    if |h| == 0 then 0
    else CountCorrect(h[..|h| - 1]) + (if h[|h| - 1].isCorrect then 1 else 0)
  }

  /** Appending a round adds one to the count exactly when that round was correct. */
  lemma CountCorrectAppend(h: seq<GuessRound>, g: GuessRound)
    ensures CountCorrect(h + [g]) == CountCorrect(h) + (if g.isCorrect then 1 else 0)
  {
    assert (h + [g])[..|h|] == h;
  }

  /** Every round is counted exactly when every round was correct. */
  lemma {:induction false} CountCorrectAll(h: seq<GuessRound>)
    ensures CountCorrect(h) == |h| <==> forall k :: 0 <= k < |h| ==> h[k].isCorrect
  {
    if |h| > 0 {
      var init := h[..|h| - 1];
      CountCorrectAll(init);
      if forall k :: 0 <= k < |h| ==> h[k].isCorrect {
        assert forall k :: 0 <= k < |init| ==> init[k].isCorrect by {
          forall k | 0 <= k < |init|
            ensures init[k].isCorrect
          {
            assert init[k] == h[k];
          }
        }
      }
      if CountCorrect(h) == |h| {
        forall k | 0 <= k < |h|
          ensures h[k].isCorrect
        {
          if k < |init| {
            assert init[k] == h[k];
          }
        }
      }
    }
  }

  /** score / rounds * 100, and 0 for a game with no rounds. */
  function Accuracy(score: int, h: seq<GuessRound>): (a: real)
    ensures |h| == 0 ==> a == 0.0
  {
    var totalRounds := |h|;
    if totalRounds > 0 then (score as real / totalRounds as real) * 100.0 else 0.0
  }

  /** With the score the game keeps, the accuracy is a percentage, and 100 exactly when every guess was right. */
  lemma AccuracyBounds(h: seq<GuessRound>)
    ensures 0.0 <= Accuracy(CountCorrect(h), h) <= 100.0
    ensures |h| > 0 ==> (Accuracy(CountCorrect(h), h) == 100.0 <==> forall k :: 0 <= k < |h| ==> h[k].isCorrect)
  {
    CountCorrectAll(h);
    if |h| > 0 {
      RatioBounds(CountCorrect(h), |h|);
    }
  }

  /** 0 <= n / d <= 1 for 0 <= n <= d, with 1 exactly when n == d. */
  lemma RatioBounds(n: nat, d: nat)
    requires 0 < d && n <= d
    ensures 0.0 <= n as real / d as real <= 1.0
    ensures n as real / d as real == 1.0 <==> n == d
  {
    var q := n as real / d as real;
    assert q * d as real == n as real;
    if q == 1.0 {
      assert n as real == d as real;
    }
  }

  /** The sum of the recorded odds of |0>. */
  function SumP0(h: seq<GuessRound>): real
  {
    if |h| == 0 then 0.0 else SumP0(h[..|h| - 1]) + h[|h| - 1].p0
  }

  /** The sum of |h| odds in [0, 1] lies in [0, |h|]. */
  lemma {:induction false} SumP0Bounds(h: seq<GuessRound>)
    ensures WellFormedHistory(h) ==> 0.0 <= SumP0(h) <= |h| as real
  {
    if |h| > 0 && WellFormedHistory(h) {
      var init := h[..|h| - 1];
      assert forall k :: 0 <= k < |init| ==> init[k] == h[k];
      SumP0Bounds(init);
      assert WellFormedRound(h[|h| - 1]);
    }
  }

  /** The sum of |h| copies of the same odds c is |h| c. */
  lemma {:induction false} SumP0Constant(h: seq<GuessRound>, c: real)
    ensures (forall k :: 0 <= k < |h| ==> h[k].p0 == c) ==> SumP0(h) == |h| as real * c
  {
    if |h| > 0 && forall k :: 0 <= k < |h| ==> h[k].p0 == c {
      var init := h[..|h| - 1];
      assert forall k :: 0 <= k < |init| ==> init[k] == h[k];
      SumP0Constant(init, c);
    }
  }

  /**
   * The mean odds of |0> over the rounds: in [0, 1] when every record's
   * odds are, and the common odds when all rounds share them (one half in
   * an Easy game). The source divides by zero for an empty history.
   */
  function ExpectedP0(h: seq<GuessRound>): (e: real)
    requires |h| > 0
    ensures WellFormedHistory(h) ==> 0.0 <= e <= 1.0
    ensures (forall k :: 0 <= k < |h| ==> h[k].p0 == h[0].p0) ==> e == h[0].p0
  {
    SumP0Bounds(h);
    SumP0Constant(h, h[0].p0);
    var e := SumP0(h) / |h| as real;
    assert e * |h| as real == SumP0(h);
    e
  }

  /** The number of rounds whose measurement read `v`. */
  function CountResult(h: seq<GuessRound>, v: Guess): (n: nat)
    ensures n <= |h|
  {
    if |h| == 0 then 0
    else CountResult(h[..|h| - 1], v) + (if h[|h| - 1].result == v then 1 else 0)
  }

  /** Every round read either 0 or 1. */
  lemma {:induction false} CountResultPartition(h: seq<GuessRound>)
    ensures CountResult(h, 0) + CountResult(h, 1) == |h|
  {
    if |h| > 0 {
      CountResultPartition(h[..|h| - 1]);
    }
  }

  /** The rounds that read |0>: all the rounds but those that read |1>. */
  function ActualZeros(h: seq<GuessRound>): (n: nat)
    ensures n + CountResult(h, 1) == |h|
  {
    CountResultPartition(h);
    CountResult(h, 0)
  }

  /** The share of rounds that read |0>; the source divides by zero for an empty history. */
  function ActualP0(h: seq<GuessRound>): (p: real)
    requires |h| > 0
    ensures 0.0 <= p <= 1.0
  {
    var p := ActualZeros(h) as real / |h| as real;
    RatioBounds(ActualZeros(h), |h|);
    p
  }

  /** A stacked bar of the expected-versus-actual chart: the expected and the actual share, in percent. */
  datatype ComparisonBar = ComparisonBar(expected: real, actual: real)

  /** The chart's two bars: the |0> shares, then the |1> shares. */
  function ComparisonData(h: seq<GuessRound>): (bars: seq<ComparisonBar>)
    requires |h| > 0
    ensures |bars| == 2
    ensures bars[0].expected + bars[1].expected == 100.0
    ensures bars[0].actual + bars[1].actual == 100.0
    ensures 0.0 <= bars[0].actual <= 100.0 && 0.0 <= bars[1].actual <= 100.0
  {
    var expectedP0 := ExpectedP0(h);
    var actualP0 := ActualP0(h);
    [ComparisonBar(expectedP0 * 100.0, actualP0 * 100.0),
     ComparisonBar((1.0 - expectedP0) * 100.0, (1.0 - actualP0) * 100.0)]
  }

  /** The expected shares of a well-formed history are percentages too. */
  lemma ComparisonDataExpectedBounds(h: seq<GuessRound>)
    requires |h| > 0 && WellFormedHistory(h)
    ensures var bars := ComparisonData(h);
            0.0 <= bars[0].expected <= 100.0 && 0.0 <= bars[1].expected <= 100.0
  {
    var e := ExpectedP0(h);
    assert 0.0 <= e <= 1.0;
  }

  /** One bar of the outcome chart: an outcome and how many rounds read it. */
  datatype OutcomeCount = OutcomeCount(outcome: Guess, count: int)

  /** The outcome chart: how many rounds read |0> and how many read |1>. */
  function OutcomeCounts(h: seq<GuessRound>): (counts: seq<OutcomeCount>)
    ensures |counts| == 2
    ensures counts[0].outcome == 0 && counts[1].outcome == 1
    ensures counts[0].count == CountResult(h, 0) && counts[1].count == CountResult(h, 1)
    ensures counts[0].count + counts[1].count == |h|
  {
    var actualZeros := ActualZeros(h);
    [OutcomeCount(0, actualZeros), OutcomeCount(1, |h| - actualZeros)]
  }
}
