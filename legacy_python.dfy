/** game_logic.py, the first version of the game: a checked Dot constructor, dot
    generation that redraws the second dot while it coincides with the first, the 15%
    band test, and the Game class in which a correct guess earns a life (up to 5) and a
    wrong one costs a life. Python's exceptions are the Failure side of a Result. */
module LegacyPython {
  import opened Wrappers
  import opened Geometry
  import opened Averages
  import opened RealArith

  /** The ValueErrors game_logic.py raises. */
  datatype PyError =
    | CoordinatesOutOfRange   // Dot.__init__
    | NegativeDistance        // is_guess_correct
    | NoActiveRound           // submit_guess without a round
    | NegativeGuess           // submit_guess

  const CoordinateSystemMin: real := 0.0
  const CoordinateSystemMax: real := 1.0
  const CorrectEnoughPercentage: real := 0.15
  const MaxLives: int := 5

  /** Dot(x, y): both coordinates must lie in the closed unit interval. */
  function NewDot(x: real, y: real): (r: Result<Point, PyError>)
    ensures r.Success? <==> 0.0 <= x <= 1.0 && 0.0 <= y <= 1.0
    ensures r.Success? ==> r.value == Point(x, y)
    ensures r.Failure? ==> r.error == CoordinatesOutOfRange
  {
    if !(CoordinateSystemMin <= x <= CoordinateSystemMax && CoordinateSystemMin <= y <= CoordinateSystemMax)
    then Failure(CoordinatesOutOfRange)
    else Success(Point(x, y))
  }

  /** A value random.uniform(0.0, 1.0) can return. */
  predicate IsUniformValue(r: real)
  {
    0.0 <= r <= 1.0
  }

  /** The two random.uniform values one generate_dot() consumes: x first, then y. */
  datatype UniformDraw = UniformDraw(rx: real, ry: real)

  predicate IsUniformDraw(d: UniformDraw)
  {
    IsUniformValue(d.rx) && IsUniformValue(d.ry)
  }

  /** generate_dot: the Dot constructor never raises on uniform draws. */
  function GenerateDot(d: UniformDraw): (p: Point)
    requires IsUniformDraw(d)
    ensures NewDot(d.rx, d.ry) == Success(p)
  {
    NewDot(d.rx, d.ry).value
  }

  /** The draws generate_two_dots will see: the first dot's, then one per try of the second
      dot, some of which lands elsewhere than the first. */
  ghost predicate TwoDotSource(first: UniformDraw, seconds: seq<UniformDraw>)
  {
    && IsUniformDraw(first)
    && (forall i :: 0 <= i < |seconds| ==> IsUniformDraw(seconds[i]))
    && exists i :: 0 <= i < |seconds| && GenerateDot(seconds[i]) != GenerateDot(first)
  }

  /** generate_two_dots: keeps the first dot and redraws the second until the two differ in
      at least one coordinate. Returns how many second dots were drawn. */
  method GenerateTwoDots(first: UniformDraw, seconds: seq<UniformDraw>) returns (dot1: Point, dot2: Point, used: nat)
    requires TwoDotSource(first, seconds)
    ensures dot1 == GenerateDot(first)
    ensures 0 < used <= |seconds| && dot2 == GenerateDot(seconds[used - 1])
    ensures dot1.x != dot2.x || dot1.y != dot2.y
    ensures forall j :: 0 <= j < used - 1 ==> GenerateDot(seconds[j]) == dot1
  {
    dot1 := GenerateDot(first);
    dot2 := GenerateDot(seconds[0]);
    used := 1;
    while dot1.x == dot2.x && dot1.y == dot2.y
      invariant 0 < used <= |seconds| && dot2 == GenerateDot(seconds[used - 1])
      invariant forall j :: 0 <= j < used - 1 ==> GenerateDot(seconds[j]) == dot1
      invariant exists k :: used - 1 <= k < |seconds| && GenerateDot(seconds[k]) != dot1
      decreases |seconds| - used
    {
      dot2 := GenerateDot(seconds[used]);
      used := used + 1;
    }
  }

  /** is_guess_correct: raises on a negative distance; a zero actual distance accepts only
      a zero guess; otherwise the guess must lie in the closed band of tolerance_percentage
      around the actual distance. */
  function IsGuessCorrect(actual: real, guess: real, tolerancePercentage: real): (r: Result<bool, PyError>)
    ensures r.Failure? <==> actual < 0.0 || guess < 0.0
    ensures r.Failure? ==> r.error == NegativeDistance
    ensures actual == 0.0 && 0.0 <= guess ==> r == Success(guess == 0.0)
    ensures 0.0 < actual && 0.0 <= guess ==>
              (r == Success(true) <==> actual * (1.0 - tolerancePercentage) <= guess <= actual * (1.0 + tolerancePercentage))
  {
    if actual < 0.0 || guess < 0.0 then Failure(NegativeDistance)
    else if actual == 0.0 then Success(guess == 0.0)
    else
      var errorMargin := actual * tolerancePercentage;
      var lowerBound := actual - errorMargin;
      var upperBound := actual + errorMargin;
      Success(lowerBound <= guess <= upperBound)
  }

  /** Lives after one accepted guess: +1 for a correct one while below max_lives, -1 for
      a wrong one with no floor. */
  function LivesAfterGuess(lives: int, maxLives: int, correct: bool): (r: int)
    ensures correct ==> lives <= r <= lives + 1 && (r == lives + 1 <==> lives < maxLives)
    ensures !correct ==> r == lives - 1
    ensures lives <= maxLives ==> r <= maxLives
  {
    if correct then (if lives < maxLives then lives + 1 else lives) else lives - 1
  }

  /** Lives after a run of accepted guesses, oldest first, with max_lives five. */
  function LivesAfterGuesses(lives: int, outcomes: seq<bool>): int
    decreases |outcomes|
  {
    if outcomes == [] then lives
    else LivesAfterGuesses(LivesAfterGuess(lives, MaxLives, outcomes[0]), outcomes[1..])
  }

  /** n wrong guesses in a row cost exactly n lives, so from `lives` lives the game is over
      (is_game_over: lives below one) exactly when n reaches `lives`. */
  lemma {:induction false} WrongRunEndsGame(lives: int, n: nat)
    ensures LivesAfterGuesses(lives, seq(n, _ => false)) == lives - n
    ensures LivesAfterGuesses(lives, seq(n, _ => false)) < 1 <==> lives <= n
    decreases n
  {
    if n > 0 {
      assert seq(n, _ => false)[1..] == seq(n - 1, _ => false);
      WrongRunEndsGame(lives - 1, n - 1);
    }
  }

  /** Over any run, lives stay at most max_lives and drop by at most the number of wrong
      guesses: a game that started with `lives` lives is over only after at least that many
      wrong guesses. */
  lemma {:induction false} GameOverNeedsWrongGuesses(lives: int, outcomes: seq<bool>)
    ensures lives - multiset(outcomes)[false] <= LivesAfterGuesses(lives, outcomes)
    ensures lives <= MaxLives ==> LivesAfterGuesses(lives, outcomes) <= MaxLives
    ensures LivesAfterGuesses(lives, outcomes) < 1 ==> lives <= multiset(outcomes)[false]
    decreases |outcomes|
  {
    if outcomes != [] {
      assert outcomes == [outcomes[0]] + outcomes[1..];
      GameOverNeedsWrongGuesses(LivesAfterGuess(lives, MaxLives, outcomes[0]), outcomes[1..]);
    }
  }

  /** One more accepted guess moves the lives of a run by one step of the rule. */
  lemma {:induction false} LivesAfterGuessesAppend(lives: int, outcomes: seq<bool>, correct: bool)
    ensures LivesAfterGuesses(lives, outcomes + [correct])
            == LivesAfterGuess(LivesAfterGuesses(lives, outcomes), MaxLives, correct)
    decreases |outcomes|
  {
    if outcomes != [] {
      assert (outcomes + [correct])[1..] == outcomes[1..] + [correct];
      LivesAfterGuessesAppend(LivesAfterGuess(lives, MaxLives, outcomes[0]), outcomes[1..], correct);
    }
  }

  class Game {
    /** The lives the game was created with, and the verdicts of the accepted guesses so far. */
    ghost var startLives: int
    ghost var outcomes: seq<bool>
    var lives: int
    var maxLives: int
    var currentDot1: Option<Point>
    var currentDot2: Option<Point>
    var actualDistance: Option<real>
    var errorScores: seq<real>
    var runningMeanError: real
    var currentRoundNumber: int
    var correctGuessesInARow: int

    ghost predicate Valid()
      reads this
    {
      && maxLives == MaxLives
      && (forall i :: 0 <= i < |errorScores| ==> 0.0 <= errorScores[i])
      && runningMeanError == Mean(errorScores)
      && 0 <= correctGuessesInARow
      && |outcomes| == |errorScores|
      && lives == LivesAfterGuesses(startLives, outcomes)
      && (actualDistance.Some? ==>
            && currentDot1.Some? && currentDot2.Some?
            && currentDot1.value != currentDot2.value
            && IsDistanceBetween(actualDistance.value, currentDot1.value, currentDot2.value))
    }

    /** Game(initial_lives): an empty history, then round 1. */
    constructor(initialLives: int, first: UniformDraw, seconds: seq<UniformDraw>, sqrt: real -> real)
      requires TwoDotSource(first, seconds) && IsSqrt(sqrt)
      ensures Valid()
      ensures lives == initialLives && maxLives == MaxLives
      ensures errorScores == [] && runningMeanError == 0.0 && correctGuessesInARow == 0
      ensures currentRoundNumber == 1 && actualDistance.Some?
    {
      lives := initialLives;
      maxLives := MaxLives;
      currentDot1 := None;
      currentDot2 := None;
      actualDistance := None;
      errorScores := [];
      runningMeanError := 0.0;
      currentRoundNumber := 0;
      correctGuessesInARow := 0;
      startLives := initialLives;
      outcomes := [];
      new;
      var _ := StartNewRound(first, seconds, sqrt);
    }

    /** start_new_round: two distinct dots, their distance, and the next round number. */
    method StartNewRound(first: UniformDraw, seconds: seq<UniformDraw>, sqrt: real -> real) returns (used: nat)
      requires Valid() && TwoDotSource(first, seconds) && IsSqrt(sqrt)
      modifies this
      ensures Valid()
      ensures currentDot1 == Some(GenerateDot(first))
      ensures 0 < used <= |seconds| && currentDot2 == Some(GenerateDot(seconds[used - 1]))
      ensures currentDot1 != currentDot2
      ensures actualDistance == Some(CalculateDistance(currentDot1.value, currentDot2.value, sqrt))
      ensures currentRoundNumber == old(currentRoundNumber) + 1
      ensures lives == old(lives) && errorScores == old(errorScores) && runningMeanError == old(runningMeanError)
      ensures correctGuessesInARow == old(correctGuessesInARow) && maxLives == old(maxLives)
      ensures startLives == old(startLives) && outcomes == old(outcomes)
    {
      var dot1, dot2;
      dot1, dot2, used := GenerateTwoDots(first, seconds);
      currentDot1, currentDot2 := Some(dot1), Some(dot2);
      actualDistance := Some(CalculateDistance(dot1, dot2, sqrt));
      currentRoundNumber := currentRoundNumber + 1;
    }

    /** is_game_over: no life left, which in a valid game means at least as many wrong
        guesses as the game started with lives. */
    function IsGameOver(): (over: bool)
      reads this
      ensures over <==> lives < 1
      ensures Valid() && over ==> startLives <= multiset(outcomes)[false]
    {
      GameOverNeedsWrongGuesses(startLives, outcomes);
      lives <= 0
    }

    /** submit_guess: (False, 0.0) with nothing changed once the game is over; raises with
        nothing changed without a round or on a negative guess; otherwise records the
        error, recomputes the mean as sum / len, and moves lives and the streak. */
    method SubmitGuess(guessedDistance: real) returns (r: Result<(bool, real), PyError>)
      requires Valid()
      modifies this
      ensures Valid()
      ensures old(IsGameOver()) ==> r == Success((false, 0.0)) && unchanged(this)
      ensures !old(IsGameOver()) && old(actualDistance).None? ==> r == Failure(NoActiveRound) && unchanged(this)
      ensures !old(IsGameOver()) && old(actualDistance).Some? && guessedDistance < 0.0 ==>
                r == Failure(NegativeGuess) && unchanged(this)
      ensures !old(IsGameOver()) && old(actualDistance).Some? && 0.0 <= guessedDistance ==>
        var actual := old(actualDistance).value;
        var correct := IsGuessCorrect(actual, guessedDistance, CorrectEnoughPercentage).value;
        && r == Success((correct, Abs(actual - guessedDistance)))
        && errorScores == old(errorScores) + [Abs(actual - guessedDistance)]
        && runningMeanError == Mean(errorScores)
        && lives == LivesAfterGuess(old(lives), maxLives, correct)
        && correctGuessesInARow == (if correct then old(correctGuessesInARow) + 1 else 0)
        && actualDistance == old(actualDistance) && currentRoundNumber == old(currentRoundNumber)
        && currentDot1 == old(currentDot1) && currentDot2 == old(currentDot2)
        && startLives == old(startLives) && outcomes == old(outcomes) + [correct]
    {
      if IsGameOver() {
        return Success((false, 0.0));
      }
      if actualDistance.None? {
        return Failure(NoActiveRound);
      }
      if guessedDistance < 0.0 {
        return Failure(NegativeGuess);
      }
      var actual := actualDistance.value;
      var correct := IsGuessCorrect(actual, guessedDistance, CorrectEnoughPercentage).value;
      var error := Abs(actual - guessedDistance);
      errorScores := errorScores + [error];
      runningMeanError := Sum(errorScores) / (|errorScores| as real);
      if correct {
        correctGuessesInARow := correctGuessesInARow + 1;
        if lives < maxLives {
          lives := lives + 1;
        }
      } else {
        correctGuessesInARow := 0;
        lives := lives - 1;
      }
      LivesAfterGuessesAppend(startLives, outcomes, correct);
      outcomes := outcomes + [correct];
      return Success((correct, error));
    }

    /** next_round: a new round only while the game is not over. */
    method NextRound(first: UniformDraw, seconds: seq<UniformDraw>, sqrt: real -> real)
      requires Valid() && TwoDotSource(first, seconds) && IsSqrt(sqrt)
      modifies this
      ensures Valid()
      ensures old(IsGameOver()) ==> unchanged(this)
      ensures !old(IsGameOver()) ==> currentRoundNumber == old(currentRoundNumber) + 1 && actualDistance.Some?
      ensures lives == old(lives) && errorScores == old(errorScores)
      ensures !old(IsGameOver()) ==>
                && currentDot1 == Some(GenerateDot(first))
                && (exists j :: 0 <= j < |seconds| && currentDot2 == Some(GenerateDot(seconds[j])))
                && currentDot1 != currentDot2
                && actualDistance == Some(CalculateDistance(currentDot1.value, currentDot2.value, sqrt))
                && runningMeanError == old(runningMeanError) && correctGuessesInARow == old(correctGuessesInARow)
                && maxLives == old(maxLives)
                && startLives == old(startLives) && outcomes == old(outcomes)
    {
      if !IsGameOver() {
        var used := StartNewRound(first, seconds, sqrt);
        assert currentDot2 == Some(GenerateDot(seconds[used - 1]));
      }
    }
  }
}
