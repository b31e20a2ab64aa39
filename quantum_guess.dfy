/**
 * The guessing-game session: the component's state hooks become the
 * fields of a `Session`, and each handler a method that updates them.
 * The handler's `setTimeout` continuation is the method `Advance`, which
 * the host calls once the reveal delay has passed.
 */
module QuantumGuess {
  import opened Types
  import opened GuessingGame
  import opened GameSummary

  /** The number of rounds in a game. */
  const MAX_ROUNDS: int := 10

  /** The three screens of the game. */
  datatype GameState = SelectingDifficulty | Playing | Summary

  class Session {
    var gameState: GameState
    var difficulty: Option<Difficulty>
    var round: int
    var score: int
    var currentP0: real
    var history: seq<GuessRound>
    var isGuessing: bool
    var lastResult: Option<GuessRound>

    /**
     * The invariant every handler keeps. The score is the number of
     * correct records; each record's odds came from the chosen tier; while
     * playing, the history holds the rounds before the current one, and
     * the current one too once it has been guessed and is being revealed;
     * a game that reached the summary has all MAX_ROUNDS rounds.
     */
    ghost predicate Valid()
      reads this
      ensures Valid() ==> 0 <= score <= |history| <= MAX_ROUNDS
    {
      && 1 <= round <= MAX_ROUNDS
      && |history| <= MAX_ROUNDS
      && score == CountCorrect(history)
      && WellFormedHistory(history)
      && 0.0 <= currentP0 <= 1.0
      && (difficulty.None? ==> history == [])
      && (difficulty.Some? ==>
            && InTier(difficulty.value, currentP0)
            && forall k :: 0 <= k < |history| ==> InTier(difficulty.value, history[k].p0))
      && (gameState == Playing ==>
            && difficulty.Some?
            && |history| == (if isGuessing then round else round - 1)
            && (isGuessing ==> lastResult == Some(history[|history| - 1]) && history[|history| - 1].p0 == currentP0)
            && (!isGuessing ==> lastResult == None))
      && (gameState == Summary ==>
            && difficulty.Some?
            && isGuessing
            && round == MAX_ROUNDS
            && |history| == MAX_ROUNDS
            && lastResult == Some(history[|history| - 1]))
    }

    /** A fresh session shows the difficulty selector with even odds and no history. */
    constructor()
      ensures Valid()
      ensures gameState == SelectingDifficulty && difficulty == None
      ensures round == 1 && score == 0 && currentP0 == 0.5
      ensures history == [] && !isGuessing && lastResult == None
    {
      gameState := SelectingDifficulty;
      difficulty := None;
      round := 1;
      score := 0;
      currentP0 := 0.5;
      history := [];
      isGuessing := false;
      lastResult := None;
    }

    /** Begins a game of tier `d` at round 1 with a fresh probability; `r1`, `r2` are its draws. */
    method StartGame(d: Difficulty, r1: real, r2: real)
      requires IsDraw(r1)
      modifies this
      ensures Valid()
      ensures gameState == Playing && difficulty == Some(d)
      ensures round == 1 && score == 0 && currentP0 == GenerateRoundProbability(d, r1, r2)
      ensures history == [] && !isGuessing && lastResult == None
    {
      difficulty := Some(d);
      round := 1;
      score := 0;
      currentP0 := GenerateRoundProbability(d, r1, r2);
      history := [];
      lastResult := None;
      isGuessing := false;
      gameState := Playing;
    }

    /**
     * Records a guess against one measurement at the current odds (`draw`
     * is its random draw). Ignored while a result is being revealed or
     * outside a game.
     */
    method HandleGuess(guess: Guess, draw: real)
      requires Valid()
      modifies this
      ensures Valid()
      ensures old(isGuessing) || old(gameState) != Playing ==> unchanged(this)
      ensures !old(isGuessing) && old(gameState) == Playing ==>
                var result := GetMeasurement(old(currentP0), draw);
                var newResult := GuessRound(guess, result, guess == result, old(currentP0));
                && isGuessing
                && history == old(history) + [newResult]
                && score == old(score) + (if newResult.isCorrect then 1 else 0)
                && lastResult == Some(newResult)
                && gameState == old(gameState) && difficulty == old(difficulty)
                && round == old(round) && currentP0 == old(currentP0)
    {
      if isGuessing || gameState != Playing {
        return;
      }
      isGuessing := true;
      var result := GetMeasurement(currentP0, draw);
      var isCorrect := guess == result;
      var newResult := GuessRound(guess, result, isCorrect, currentP0);
      CountCorrectAppend(history, newResult);
      if isCorrect {
        score := score + 1;
      }
      lastResult := Some(newResult);
      history := history + [newResult];
    }

    /**
     * The reveal delay's end after a guess: the next round with fresh odds
     * (`r1`, `r2` are their draws), or the summary after the last round.
     */
    method Advance(r1: real, r2: real)
      requires Valid() && gameState == Playing && isGuessing
      requires IsDraw(r1)
      modifies this
      ensures Valid()
      ensures old(round) < MAX_ROUNDS ==>
                && round == old(round) + 1
                && currentP0 == GenerateRoundProbability(old(difficulty).value, r1, r2)
                && lastResult == None && !isGuessing
                && gameState == Playing && difficulty == old(difficulty)
                && score == old(score) && history == old(history)
      ensures old(round) == MAX_ROUNDS ==>
                && gameState == Summary
                && round == old(round) && currentP0 == old(currentP0)
                && lastResult == old(lastResult) && isGuessing
                && difficulty == old(difficulty) && score == old(score) && history == old(history)
    {
      if round < MAX_ROUNDS {
        round := round + 1;
        if difficulty.Some? {
          currentP0 := GenerateRoundProbability(difficulty.value, r1, r2);
        }
        lastResult := None;
        isGuessing := false;
      } else {
        gameState := Summary;
      }
    }

    /** Back to the difficulty selector; the rest of the state waits for the next StartGame. */
    method HandlePlayAgain()
      requires Valid()
      modifies this
      ensures Valid()
      ensures gameState == SelectingDifficulty
      ensures difficulty == old(difficulty) && round == old(round) && score == old(score)
      ensures currentP0 == old(currentP0) && history == old(history)
      ensures isGuessing == old(isGuessing) && lastResult == old(lastResult)
    {
      gameState := SelectingDifficulty;
    }
  }

  /**
   * What the summary screen shows for a finished game: all MAX_ROUNDS
   * rounds, an accuracy that is a percentage and 100 exactly when every
   * guess was right, mean odds in [0, 1] (one half for an Easy game), and
   * outcome counts that add up to the rounds played.
   */
  lemma FinishedGameSummary(s: Session)
    requires s.Valid() && s.gameState == Summary
    ensures |s.history| == MAX_ROUNDS
    ensures 0.0 <= Accuracy(s.score, s.history) <= 100.0
    ensures Accuracy(s.score, s.history) == 100.0 <==> forall k :: 0 <= k < |s.history| ==> s.history[k].isCorrect
    ensures 0.0 <= ExpectedP0(s.history) <= 1.0
    ensures s.difficulty == Some(Easy) ==> ExpectedP0(s.history) == 0.5
    ensures var counts := OutcomeCounts(s.history); counts[0].count + counts[1].count == MAX_ROUNDS
  {
    AccuracyBounds(s.history);
    var e := ExpectedP0(s.history);
    if s.difficulty == Some(Easy) {
      assert forall k :: 0 <= k < |s.history| ==> InTier(Easy, s.history[k].p0);
      assert e == s.history[0].p0;
    }
  }
}
