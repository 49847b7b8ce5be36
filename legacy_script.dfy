/** script.js, the single-file version of the page: its own copy of the Python game object
    (initializeGameLogic), isGuessCorrectJS, a setGameState without a force flag, and the
    handlers with their guards. Negative input is answered with a flag, not an exception. */
module LegacyScript {
  import opened Wrappers
  import opened Config
  import opened Geometry
  import opened Averages
  import opened RealArith
  import opened HostInput

  const ScriptCorrectEnoughPercentage: real := 0.15
  const ScriptInitialLives: int := 3
  const ScriptMaxLives: int := 5

  /** A value Math.random() can return; generateCoordinate uses it unscaled. */
  predicate IsRandomValue(r: real)
  {
    0.0 <= r < 1.0
  }

  datatype RandomDot = RandomDot(rx: real, ry: real)

  /** generateDot */
  function GenerateDot(d: RandomDot): Point
  {
    Point(d.rx, d.ry)
  }

  /** The draws startNewRound will see: the first dot's, then one per try of the second dot,
      some of which is at a non-zero distance from the first. */
  ghost predicate RoundSource(first: RandomDot, seconds: seq<RandomDot>, sqrt: real -> real)
  {
    && IsSqrt(sqrt)
    && IsRandomValue(first.rx) && IsRandomValue(first.ry)
    && (forall i :: 0 <= i < |seconds| ==> IsRandomValue(seconds[i].rx) && IsRandomValue(seconds[i].ry))
    && exists i :: 0 <= i < |seconds| && CalculateDistance(GenerateDot(first), GenerateDot(seconds[i]), sqrt) != 0.0
  }

  /** isGuessCorrectJS: false for any negative distance; a zero actual distance accepts
      only a zero guess; otherwise the closed band of tolerancePercentage. */
  function IsGuessCorrectJS(actual: real, guess: real, tolerancePercentage: real): (correct: bool)
    ensures actual < 0.0 || guess < 0.0 ==> !correct
    ensures actual == 0.0 && 0.0 <= guess ==> (correct <==> guess == 0.0)
    ensures 0.0 < actual && 0.0 <= guess ==>
              (correct <==> actual * (1.0 - tolerancePercentage) <= guess <= actual * (1.0 + tolerancePercentage))
  {
    if actual < 0.0 || guess < 0.0 then false
    else if actual == 0.0 then guess == 0.0
    else
      var errorMargin := actual * tolerancePercentage;
      var lowerBound := actual - errorMargin;
      var upperBound := actual + errorMargin;
      guess >= lowerBound && guess <= upperBound
  }

  /** The object game.submitGuess returns. */
  datatype SubmitResult = SubmitResult(correct: bool, error: real, needsValidInput: bool, gameOver: bool)

  /** Lives after one judged guess: +1 for a correct one while below maxLives (five), -1 for
      a wrong one with no floor. */
  function LivesAfter(lives: int, correct: bool): (r: int)
    ensures correct ==> lives <= r <= lives + 1 && (r == lives + 1 <==> lives < ScriptMaxLives)
    ensures !correct ==> r == lives - 1
    ensures lives <= ScriptMaxLives ==> r <= ScriptMaxLives
  {
    if correct then (if lives < ScriptMaxLives then lives + 1 else lives) else lives - 1
  }

  /** Lives after a run of judged guesses, oldest first. */
  function LivesAfterGuesses(lives: int, outcomes: seq<bool>): int
    decreases |outcomes|
  {
    if outcomes == [] then lives else LivesAfterGuesses(LivesAfter(lives, outcomes[0]), outcomes[1..])
  }

  /** n wrong guesses in a row cost exactly n lives, so from `lives` lives the game is over
      (isGameOver: lives below one) exactly when n reaches `lives`. */
  lemma {:induction false} WrongRunEndsGame(lives: int, n: nat)
    ensures LivesAfterGuesses(lives, seq(n, _ => false)) == lives - n
    ensures LivesAfterGuesses(lives, seq(n, _ => false)) < 1 <==> lives <= n
    decreases n
  {
    if n > 0 {
      assert seq(n, _ => false)[1..] == seq(n - 1, _ => false);
      WrongRunEndsGame(lives - 1, n - 1);
    }
  }

  /** Over any run, lives stay at most five and drop by at most the number of wrong
      guesses: a game that started with `lives` lives is over only after at least that many
      wrong guesses. */
  lemma {:induction false} GameOverNeedsWrongGuesses(lives: int, outcomes: seq<bool>)
    ensures lives - multiset(outcomes)[false] <= LivesAfterGuesses(lives, outcomes)
    ensures lives <= ScriptMaxLives ==> LivesAfterGuesses(lives, outcomes) <= ScriptMaxLives
    ensures LivesAfterGuesses(lives, outcomes) < 1 ==> lives <= multiset(outcomes)[false]
    decreases |outcomes|
  {
    if outcomes != [] {
      assert outcomes == [outcomes[0]] + outcomes[1..];
      GameOverNeedsWrongGuesses(LivesAfter(lives, outcomes[0]), outcomes[1..]);
    }
  }

  /** One more judged guess moves the lives of a run by one step of the rule. */
  lemma {:induction false} LivesAfterGuessesAppend(lives: int, outcomes: seq<bool>, correct: bool)
    ensures LivesAfterGuesses(lives, outcomes + [correct]) == LivesAfter(LivesAfterGuesses(lives, outcomes), correct)
    decreases |outcomes|
  {
    if outcomes != [] {
      assert (outcomes + [correct])[1..] == outcomes[1..] + [correct];
      LivesAfterGuessesAppend(LivesAfter(lives, outcomes[0]), outcomes[1..], correct);
    }
  }

  /** A snapshot of the fields of the `game` object. */
  datatype ScriptRecord = ScriptRecord(
    lives: int, maxLives: int, currentDot1: Option<Point>, currentDot2: Option<Point>,
    actualDistance: Option<real>, errorScores: seq<real>, runningMeanError: real,
    currentRoundNumber: int)

  /** startNewRound seen on the game object: the first dot from `first`, the second from one
      of the `seconds` draws at a non-zero distance, the round counted, nothing else moved. */
  ghost predicate NewRound(before: ScriptRecord, after: ScriptRecord,
                           first: RandomDot, seconds: seq<RandomDot>, sqrt: real -> real)
  {
    && IsSqrt(sqrt)
    && after.currentDot1 == Some(GenerateDot(first))
    && after.currentDot2.Some?
    && (exists j :: 0 <= j < |seconds| && after.currentDot2 == Some(GenerateDot(seconds[j])))
    && after.actualDistance == Some(CalculateDistance(GenerateDot(first), after.currentDot2.value, sqrt))
    && after.actualDistance.value != 0.0
    && after == before.(currentDot1 := after.currentDot1, currentDot2 := after.currentDot2,
                        actualDistance := after.actualDistance,
                        currentRoundNumber := before.currentRoundNumber + 1)
  }

  /** The `game` object as initializeGameLogic leaves it: three of five lives, an empty
      history with mean 0, and round 1 drawn as `NewRound` says. */
  ghost predicate FreshGame(after: ScriptRecord, first: RandomDot, seconds: seq<RandomDot>, sqrt: real -> real)
  {
    NewRound(ScriptRecord(ScriptInitialLives, ScriptMaxLives, None, None, None, [], 0.0, 0), after, first, seconds, sqrt)
  }

  /** The `game` object of script.js with the methods initializeGameLogic attaches. */
  class ScriptGame {
    /** The lives initializeGameLogic gave, and the verdicts of the judged guesses since. */
    ghost var startLives: int
    ghost var outcomes: seq<bool>
    var lives: int
    var maxLives: int
    var currentDot1: Option<Point>
    var currentDot2: Option<Point>
    var actualDistance: Option<real>
    var errorScores: seq<real>
    var runningMeanError: real
    var currentRoundNumber: int

    ghost predicate Valid()
      reads this
    {
      && maxLives == ScriptMaxLives
      && |outcomes| == |errorScores|
      && lives == LivesAfterGuesses(startLives, outcomes)
      && (forall i :: 0 <= i < |errorScores| ==> 0.0 <= errorScores[i])
      && runningMeanError == Mean(errorScores)
      && (actualDistance.Some? ==>
            && currentDot1.Some? && currentDot2.Some?
            && currentDot1.value != currentDot2.value
            && IsDistanceBetween(actualDistance.value, currentDot1.value, currentDot2.value)
            && 0.0 < actualDistance.value)
    }

    function Record(): ScriptRecord
      reads this
    {
      ScriptRecord(lives, maxLives, currentDot1, currentDot2, actualDistance, errorScores,
                   runningMeanError, currentRoundNumber)
    }

    /** `let game = {}`: every field undefined. */
    constructor()
      ensures actualDistance.None? && errorScores == [] && currentRoundNumber == 0
    {
      lives := 0;
      maxLives := 0;
      currentDot1, currentDot2, actualDistance := None, None, None;
      errorScores := [];
      runningMeanError := 0.0;
      currentRoundNumber := 0;
      startLives, outcomes := 0, [];
    }

    /** initializeGameLogic: three lives, an empty history, then round 1. */
    method InitializeGameLogic(first: RandomDot, seconds: seq<RandomDot>, sqrt: real -> real) returns (used: nat)
      requires RoundSource(first, seconds, sqrt)
      modifies this
      ensures Valid()
      ensures lives == ScriptInitialLives && maxLives == ScriptMaxLives
      ensures errorScores == [] && runningMeanError == 0.0
      ensures currentRoundNumber == 1 && actualDistance.Some?
      ensures FreshGame(Record(), first, seconds, sqrt)
    {
      lives := ScriptInitialLives;
      maxLives := ScriptMaxLives;
      currentDot1, currentDot2, actualDistance := None, None, None;
      errorScores := [];
      runningMeanError := 0.0;
      currentRoundNumber := 0;
      startLives, outcomes := ScriptInitialLives, [];
      used := StartNewRound(first, seconds, sqrt);
      assert currentDot2 == Some(GenerateDot(seconds[used - 1]));
    }

    /** startNewRound: keeps the first dot and redraws only the second while the distance is
        0; then stores the distance and counts the round. */
    method StartNewRound(first: RandomDot, seconds: seq<RandomDot>, sqrt: real -> real) returns (used: nat)
      requires Valid() && RoundSource(first, seconds, sqrt)
      modifies this
      ensures Valid()
      ensures currentDot1 == Some(GenerateDot(first))
      ensures 0 < used <= |seconds| && currentDot2 == Some(GenerateDot(seconds[used - 1]))
      ensures forall j :: 0 <= j < used - 1 ==>
                CalculateDistance(GenerateDot(first), GenerateDot(seconds[j]), sqrt) == 0.0
      ensures actualDistance == Some(CalculateDistance(currentDot1.value, currentDot2.value, sqrt))
      ensures actualDistance.value != 0.0 && currentDot1 != currentDot2
      ensures currentRoundNumber == old(currentRoundNumber) + 1
      ensures lives == old(lives) && errorScores == old(errorScores) && runningMeanError == old(runningMeanError)
      ensures maxLives == old(maxLives)
      ensures startLives == old(startLives) && outcomes == old(outcomes)
    {
      var dot1 := GenerateDot(first);
      var dot2 := GenerateDot(seconds[0]);
      used := 1;
      while CalculateDistance(dot1, dot2, sqrt) == 0.0
        invariant 0 < used <= |seconds| && dot2 == GenerateDot(seconds[used - 1])
        invariant forall j :: 0 <= j < used - 1 ==> CalculateDistance(dot1, GenerateDot(seconds[j]), sqrt) == 0.0
        invariant exists k :: used - 1 <= k < |seconds| && CalculateDistance(dot1, GenerateDot(seconds[k]), sqrt) != 0.0
        decreases |seconds| - used
      {
        dot2 := GenerateDot(seconds[used]);
        used := used + 1;
      }
      currentDot1, currentDot2 := Some(dot1), Some(dot2);
      actualDistance := Some(CalculateDistance(dot1, dot2, sqrt));
      currentRoundNumber := currentRoundNumber + 1;
    }

    /** isGameOver: no life left, which in a valid game means at least as many wrong
        guesses as the game started with lives. */
    function IsGameOver(): (over: bool)
      reads this
      ensures over <==> lives < 1
      ensures Valid() && over ==> startLives <= multiset(outcomes)[false]
    {
      GameOverNeedsWrongGuesses(startLives, outcomes);
      lives <= 0
    }

    /** submitGuess: without a round, or for a negative guess, nothing changes and the error
        is 0 (the negative case raises needsValidInput); otherwise the error is recorded, the
        mean recomputed as sum / length, and a life gained (below maxLives) or lost. Unlike
        the Python version it does not refuse a finished game. */
    method SubmitGuess(guessedDistance: real) returns (result: SubmitResult)
      requires Valid()
      modifies this
      ensures Valid()
      ensures old(actualDistance).None? ==>
                result == SubmitResult(false, 0.0, false, IsGameOver()) && unchanged(this)
      ensures old(actualDistance).Some? && guessedDistance < 0.0 ==>
                result == SubmitResult(false, 0.0, true, IsGameOver()) && unchanged(this)
      ensures old(actualDistance).Some? && 0.0 <= guessedDistance ==>
        var actual := old(actualDistance).value;
        var correct := IsGuessCorrectJS(actual, guessedDistance, ScriptCorrectEnoughPercentage);
        && result == SubmitResult(correct, Abs(actual - guessedDistance), false, IsGameOver())
        && errorScores == old(errorScores) + [Abs(actual - guessedDistance)]
        && runningMeanError == Mean(errorScores)
        && lives == LivesAfter(old(lives), correct)
        && actualDistance == old(actualDistance) && currentRoundNumber == old(currentRoundNumber)
        && currentDot1 == old(currentDot1) && currentDot2 == old(currentDot2) && maxLives == old(maxLives)
        && startLives == old(startLives) && outcomes == old(outcomes) + [correct]
    {
      if actualDistance.None? {
        return SubmitResult(false, 0.0, false, IsGameOver());
      }
      if guessedDistance < 0.0 {
        return SubmitResult(false, 0.0, true, IsGameOver());
      }
      var actual := actualDistance.value;
      var correct := IsGuessCorrectJS(actual, guessedDistance, ScriptCorrectEnoughPercentage);
      var error := Abs(actual - guessedDistance);
      errorScores := errorScores + [error];
      runningMeanError := Sum(errorScores) / (|errorScores| as real);
      if correct {
        if lives < maxLives {
          lives := lives + 1;
        }
      } else {
        lives := lives - 1;
      }
      LivesAfterGuessesAppend(startLives, outcomes, correct);
      outcomes := outcomes + [correct];
      return SubmitResult(correct, error, false, IsGameOver());
    }

    /** nextRound: a new round only while the game is not over. */
    method NextRound(first: RandomDot, seconds: seq<RandomDot>, sqrt: real -> real)
      requires Valid() && RoundSource(first, seconds, sqrt)
      modifies this
      ensures Valid()
      ensures old(IsGameOver()) ==> unchanged(this)
      ensures !old(IsGameOver()) ==> NewRound(old(Record()), Record(), first, seconds, sqrt)
      ensures startLives == old(startLives) && outcomes == old(outcomes)
    {
      if !IsGameOver() {
        var used := StartNewRound(first, seconds, sqrt);
        assert currentDot2 == Some(GenerateDot(seconds[used - 1]));
      }
    }
  }

  /** What handleSubmitGuess did with one submission. */
  datatype ScriptSubmitOutcome =
    | NotActive                 // not in ACTIVE_GAME: ignored
    | RejectedNotANumber        // empty or NaN: "Please enter a valid number."
    | RejectedNegative          // "Distance cannot be negative."
    | Submitted(result: SubmitResult)

  /** A snapshot of the page's own state. */
  datatype ScriptView = ScriptView(currentGameState: Option<GameState>, distanceLines: seq<bool>, renderCount: nat)

  /** handleSubmitGuess from ACTIVE_GAME (where no line is drawn): empty or NaN input and a
      negative number are rejected with nothing changed; any other number goes to
      game.submitGuess, which records the error, recomputes the mean and moves lives by
      `LivesAfter`; the page then renders GAME_OVER when no life is left, otherwise
      SHOWING_FEEDBACK with the verdict's distance line. */
  ghost predicate SubmitEffect(field: GuessField, before: ScriptRecord, after: ScriptRecord,
                               pageBefore: ScriptView, pageAfter: ScriptView, outcome: ScriptSubmitOutcome)
  {
    if !field.Number? then
      outcome == RejectedNotANumber && after == before && pageAfter == pageBefore
    else if field.value < 0.0 then
      outcome == RejectedNegative && after == before && pageAfter == pageBefore
    else
      && before.actualDistance.Some?
      && var actual := before.actualDistance.value;
         var error := Abs(actual - field.value);
         var correct := IsGuessCorrectJS(actual, field.value, ScriptCorrectEnoughPercentage);
         var lives := LivesAfter(before.lives, correct);
         var over := lives < 1;
         && after == before.(lives := lives, errorScores := before.errorScores + [error],
                             runningMeanError := Mean(before.errorScores + [error]))
         && outcome == Submitted(SubmitResult(correct, error, false, over))
         && pageAfter == ScriptView(Some(if over then GameOver else ShowingFeedback),
                                    if over then [] else [correct], pageBefore.renderCount + 1)
  }

  /** The Next button while feedback is shown (the game always has a life left there): a new
      round on the game object, no line, ACTIVE_GAME rendered. */
  ghost predicate NextEffect(before: ScriptRecord, after: ScriptRecord, pageBefore: ScriptView, pageAfter: ScriptView,
                             first: RandomDot, seconds: seq<RandomDot>, sqrt: real -> real)
  {
    && NewRound(before, after, first, seconds, sqrt)
    && pageAfter == ScriptView(Some(ActiveGame), [], pageBefore.renderCount + 1)
  }

  /** The page of script.js: its game object, currentGameState, and the distance lines. */
  class ScriptPage {
    const game: ScriptGame
    var currentGameState: Option<GameState>
    var distanceLines: seq<bool>
    var renderCount: nat

    ghost predicate Valid()
      reads this, game
    {
      && game.Valid()
      && currentGameState.Some?
      && game.actualDistance.Some?
      && |distanceLines| <= 1
      && (distanceLines != [] ==> currentGameState == Some(ShowingFeedback))
      && (currentGameState == Some(StartScreen) || currentGameState == Some(ActiveGame) ==>
            game.currentRoundNumber == |game.errorScores| + 1)
      && (currentGameState == Some(ShowingFeedback) ==> game.currentRoundNumber == |game.errorScores|)
      && (currentGameState != Some(GameOver) ==> 0 < game.lives <= ScriptMaxLives)
      && (currentGameState == Some(GameOver) ==> game.lives == 0)
    }

    function View(): ScriptView
      reads this
    {
      ScriptView(currentGameState, distanceLines, renderCount)
    }

    /** setGameState: the same state is a no-op; any other state but SHOWING_FEEDBACK removes
        the distance line; the page is rendered once. */
    method SetGameState(newState: GameState)
      modifies this
      ensures old(currentGameState) == Some(newState) ==> unchanged(this)
      ensures old(currentGameState) != Some(newState) ==>
                && currentGameState == Some(newState)
                && renderCount == old(renderCount) + 1
                && distanceLines == if newState != ShowingFeedback && old(distanceLines) != [] then old(distanceLines)[1..]
                                    else old(distanceLines)
    {
      if currentGameState == Some(newState) {
        return;
      }
      currentGameState := Some(newState);
      if newState != ShowingFeedback && distanceLines != [] {
        distanceLines := distanceLines[1..];
      }
      renderCount := renderCount + 1;
    }

    /** The removal of the (first) distance line that several handlers do by hand. */
    method RemoveDistanceLine()
      modifies this
      ensures distanceLines == if old(distanceLines) != [] then old(distanceLines)[1..] else []
      ensures currentGameState == old(currentGameState) && renderCount == old(renderCount)
    {
      if distanceLines != [] {
        distanceLines := distanceLines[1..];
      }
    }

    /** initializeGame: the game object, no line left, the start screen. */
    constructor(first: RandomDot, seconds: seq<RandomDot>, sqrt: real -> real)
      requires RoundSource(first, seconds, sqrt)
      ensures Valid()
      ensures currentGameState == Some(StartScreen) && game.lives == ScriptInitialLives
      ensures game.currentRoundNumber == 1
      ensures fresh(game)
    {
      var g := new ScriptGame();
      game := g;
      currentGameState := None;
      distanceLines := [];
      renderCount := 0;
      new;
      var _ := game.InitializeGameLogic(first, seconds, sqrt);
      RemoveDistanceLine();
      SetGameState(StartScreen);
    }

    /** The Start button: acts only on the start screen and shows the round already set up
        (setupNewProblem clears the previous dots and line). */
    method HandleStart()
      requires Valid()
      modifies this
      ensures Valid()
      ensures old(currentGameState) != Some(StartScreen) ==> unchanged(this)
      ensures old(currentGameState) == Some(StartScreen) ==> currentGameState == Some(ActiveGame)
      ensures old(currentGameState) == Some(StartScreen) ==> View() == ScriptView(Some(ActiveGame), [], old(renderCount) + 1)
      ensures unchanged(game)
    {
      if currentGameState == Some(StartScreen) {
        RemoveDistanceLine();
        SetGameState(ActiveGame);
      }
    }

    /** handleSubmitGuess: ignored outside ACTIVE_GAME; an empty, NaN or negative guess is
        rejected before the game object sees it; otherwise the guess is submitted and the
        page goes to GAME_OVER if the game is over, else to SHOWING_FEEDBACK with the
        distance line. */
    method HandleSubmitGuess(field: GuessField) returns (outcome: ScriptSubmitOutcome)
      requires Valid()
      modifies this, game
      ensures Valid()
      ensures old(currentGameState) != Some(ActiveGame) ==> outcome == NotActive && unchanged(this, game)
      ensures old(currentGameState) == Some(ActiveGame) ==>
                SubmitEffect(field, old(game.Record()), game.Record(), old(View()), View(), outcome)
    {
      if currentGameState != Some(ActiveGame) {
        return NotActive;
      }
      if !field.Number? {
        return RejectedNotANumber;
      }
      var guess := field.value;
      if guess < 0.0 {
        return RejectedNegative;
      }
      var result := game.SubmitGuess(guess);
      if result.gameOver {
        SetGameState(GameOver);
      } else {
        SetGameState(ShowingFeedback);
        distanceLines := distanceLines + [result.correct];
      }
      return Submitted(result);
    }

    /** The Next button: acts only while feedback is shown; its guard sending a finished
        game to GAME_OVER is dead (see the body), otherwise the line goes, the next round is set up, and the game is
        active again. */
    method HandleNext(first: RandomDot, seconds: seq<RandomDot>, sqrt: real -> real)
      requires Valid() && RoundSource(first, seconds, sqrt)
      modifies this, game
      ensures Valid()
      ensures old(currentGameState) != Some(ShowingFeedback) ==> unchanged(this, game)
      ensures old(currentGameState) == Some(ShowingFeedback) ==>
                NextEffect(old(game.Record()), game.Record(), old(View()), View(), first, seconds, sqrt)
    {
      if currentGameState == Some(ShowingFeedback) {
        if game.IsGameOver() {
          // handleSubmitGuess already went to GAME_OVER when the game ended, so a page showing
          // feedback always has a life left and this guard never fires.
          assert false;
        } else {
          RemoveDistanceLine();
          game.NextRound(first, seconds, sqrt);
          RemoveDistanceLine();
          SetGameState(ActiveGame);
        }
      }
    }

    /** The Enter key: submits in ACTIVE_GAME, presses Next while feedback is shown. */
    method HandleEnterKey(field: GuessField, first: RandomDot, seconds: seq<RandomDot>, sqrt: real -> real)
      returns (outcome: Option<ScriptSubmitOutcome>)
      requires Valid() && RoundSource(first, seconds, sqrt)
      modifies this, game
      ensures Valid()
      ensures outcome.Some? <==> old(currentGameState) == Some(ActiveGame)
      ensures old(currentGameState) == Some(ActiveGame) ==>
                SubmitEffect(field, old(game.Record()), game.Record(), old(View()), View(), outcome.value)
      ensures old(currentGameState) == Some(ShowingFeedback) ==>
                NextEffect(old(game.Record()), game.Record(), old(View()), View(), first, seconds, sqrt)
      ensures old(currentGameState) != Some(ActiveGame) && old(currentGameState) != Some(ShowingFeedback) ==>
                unchanged(this, game)
    {
      if currentGameState == Some(ActiveGame) {
        var submitted := HandleSubmitGuess(field);
        return Some(submitted);
      } else if currentGameState == Some(ShowingFeedback) {
        HandleNext(first, seconds, sqrt);
      }
      return None;
    }

    /** The Restart button: acts only from GAME_OVER or SHOWING_FEEDBACK, and starts a fresh
        game straight into ACTIVE_GAME. */
    method HandleRestart(first: RandomDot, seconds: seq<RandomDot>, sqrt: real -> real)
      requires Valid() && RoundSource(first, seconds, sqrt)
      modifies this, game
      ensures Valid()
      ensures old(currentGameState) != Some(GameOver) && old(currentGameState) != Some(ShowingFeedback) ==>
                unchanged(this, game)
      ensures old(currentGameState) == Some(GameOver) || old(currentGameState) == Some(ShowingFeedback) ==>
                && currentGameState == Some(ActiveGame)
                && game.lives == ScriptInitialLives && game.errorScores == [] && game.currentRoundNumber == 1
                && distanceLines == []
                && FreshGame(game.Record(), first, seconds, sqrt)
                && View() == ScriptView(Some(ActiveGame), [], old(renderCount) + 1)
    {
      if currentGameState == Some(GameOver) || currentGameState == Some(ShowingFeedback) {
        RemoveDistanceLine();
        var _ := game.InitializeGameLogic(first, seconds, sqrt);
        RemoveDistanceLine();
        SetGameState(ActiveGame);
      }
    }
  }
}
