/** js/coreGameLogic.js: dot generation, the two scoring rules, the lives and streak
    bookkeeping, the game-over test and the Time Trial countdown, acting on the shared
    `game` object of js/gameState.js (the class `Game` below).

    Math.random() is not called: every value it would return is supplied by the caller
    as a draw in [0, 1). Math.sqrt is the parameter `sqrt` (see module Geometry). */
module CoreGameLogic {
  import opened Wrappers
  import opened Config
  import opened Geometry
  import opened Averages
  import opened RealArith

  /* ------------------------------------------------------------------------------
     Dots
     ------------------------------------------------------------------------------ */

  /** A value Math.random() can return. */
  predicate IsRandomValue(r: real)
  {
    0.0 <= r < 1.0
  }

  /** The two Math.random() values one generateDot() consumes: x first, then y. */
  datatype DotDraw = DotDraw(rx: real, ry: real)

  /** The draws of one pass of setupNewRoundProblemData: the first dot, then the second. */
  datatype RoundDraw = RoundDraw(first: DotDraw, second: DotDraw)

  predicate IsRoundDraw(d: RoundDraw)
  {
    && IsRandomValue(d.first.rx) && IsRandomValue(d.first.ry)
    && IsRandomValue(d.second.rx) && IsRandomValue(d.second.ry)
  }

  /** The part of the plane where dots appear: DOT_SPAWN_MARGIN away from every edge. */
  predicate InSpawnArea(p: Point)
  {
    && DotSpawnMargin <= p.x < CoordinateSystemMax - DotSpawnMargin
    && DotSpawnMargin <= p.y < CoordinateSystemMax - DotSpawnMargin
  }

  /** generateCoordinate: scales a draw into the band the margin leaves free. */
  function GenerateCoordinate(r: real): (c: real)
    ensures IsRandomValue(r) ==> DotSpawnMargin <= c < CoordinateSystemMax - DotSpawnMargin
  {
    r * (1.0 - 2.0 * DotSpawnMargin) + DotSpawnMargin
  }

  /** generateDot */
  function GenerateDot(d: DotDraw): (p: Point)
    ensures IsRandomValue(d.rx) && IsRandomValue(d.ry) ==> InSpawnArea(p)
  {
    Point(GenerateCoordinate(d.rx), GenerateCoordinate(d.ry))
  }

  /** The data of one round: game.currentDot1, game.currentDot2, game.actualDistance. */
  datatype Problem = Problem(dot1: Point, dot2: Point, actualDistance: real)

  /** What one pass of setupNewRoundProblemData computes from its draws. */
  function DrawProblem(d: RoundDraw, sqrt: real -> real): (pr: Problem)
    requires IsSqrt(sqrt)
    ensures IsDistanceBetween(pr.actualDistance, pr.dot1, pr.dot2)
    ensures IsRoundDraw(d) ==> InSpawnArea(pr.dot1) && InSpawnArea(pr.dot2)
  {
    var p, q := GenerateDot(d.first), GenerateDot(d.second);
    Problem(p, q, CalculateDistance(p, q, sqrt))
  }

  /** A round problem the game can show: both dots in the spawn area, two different dots,
      and the distance between them, which is positive. */
  predicate ProblemReady(pr: Problem)
  {
    && InSpawnArea(pr.dot1) && InSpawnArea(pr.dot2)
    && pr.dot1 != pr.dot2
    && IsDistanceBetween(pr.actualDistance, pr.dot1, pr.dot2)
    && 0.0 < pr.actualDistance
  }

  /** The draws Math.random() will return in the coming passes of the redraw loop: each
      in [0, 1), and some pass gives a non-zero distance, so the loop ends. */
  ghost predicate RandomSource(attempts: seq<RoundDraw>, sqrt: real -> real)
  {
    && IsSqrt(sqrt)
    && (forall i :: 0 <= i < |attempts| ==> IsRoundDraw(attempts[i]))
    && exists i :: 0 <= i < |attempts| && DrawProblem(attempts[i], sqrt).actualDistance != 0.0
  }

  /** The problem installed by the redraw loop when it took `used` passes: every earlier
      pass gave distance 0 and was thrown away, the last one is kept. */
  ghost predicate DrawnFrom(pr: Problem, attempts: seq<RoundDraw>, used: nat, sqrt: real -> real)
  {
    && IsSqrt(sqrt)
    && 0 < used <= |attempts|
    && (forall j :: 0 <= j < used - 1 ==> DrawProblem(attempts[j], sqrt).actualDistance == 0.0)
    && pr == DrawProblem(attempts[used - 1], sqrt)
    && ProblemReady(pr)
  }

  /* ------------------------------------------------------------------------------
     Scoring
     ------------------------------------------------------------------------------ */

  /** Math.max(A, B * actualDistance): the Weber tolerance grows with the distance. */
  function Tolerance(p: ScoringParams, actual: real): real
  {
    Max(p.a, p.b * actual)
  }

  /** Math.floor(100 * Math.pow(u, 2)) for u = 1 - ratio. */
  function WeberCurve(u: real): int
  {
    (100.0 * (u * u)).Floor
  }

  lemma WeberCurveAtMost100(u: real)
    requires 0.0 <= u <= 1.0
    ensures WeberCurve(u) <= 100
  {
    MulLe(u, u, 1.0, 1.0);
  }

  lemma WeberCurveAtLeastOne(u: real)
    requires 0.1 <= u
    ensures 1 <= WeberCurve(u)
  {
    MulLe(0.1, 0.1, u, u);
  }

  lemma WeberCurveZero(u: real)
    requires 0.0 <= u < 0.1
    ensures WeberCurve(u) == 0
  {
    MulLt(u, u, 0.1, 0.1);
    MulLe(0.0, 0.0, u, u);
  }

  lemma WeberCurveMonotone(u: real, v: real)
    requires 0.0 <= u <= v
    ensures WeberCurve(u) <= WeberCurve(v)
  {
    MulLe(u, u, v, v);
  }

  /** The Weber branch of calculateScore: 100 for an exact guess, falling with the square
      of the relative error, and positive exactly when the error is at most 90% of the
      tolerance. */
  function WeberScore(p: ScoringParams, actual: real, guess: real): (score: int)
    requires 0.0 <= p.a
    ensures 0 <= score <= 100
    ensures score > 0 <==> Abs(guess - actual) <= 0.9 * Tolerance(p, actual)
    ensures guess == actual ==> score == 100
  {
    var error := Abs(guess - actual);
    var tolerance := Tolerance(p, actual);
    if tolerance == 0.0 then
      (if error == 0.0 then 100 else 0)
    else
      var ratio := error / tolerance;
      QuotientAtLeast(error, tolerance, 1.0);
      QuotientAtMost(error, tolerance, 0.9);
      QuotientNonNegative(error, tolerance);
      if ratio >= 1.0 then
        0
      else
        var score := WeberCurve(1.0 - ratio);
        WeberCurveAtMost100(1.0 - ratio);
        if ratio <= 0.9 then
          WeberCurveAtLeastOne(1.0 - ratio);
          if score < 0 then 0 else score
        else
          WeberCurveZero(1.0 - ratio);
          if score < 0 then 0 else score
  }

  /** A closer guess never scores less. */
  lemma WeberScoreMonotone(p: ScoringParams, actual: real, closer: real, farther: real)
    requires 0.0 < p.a
    requires Abs(closer - actual) <= Abs(farther - actual)
    ensures WeberScore(p, actual, farther) <= WeberScore(p, actual, closer)
  {
    var e1, e2 := Abs(closer - actual), Abs(farther - actual);
    var tolerance := Tolerance(p, actual);
    var r1, r2 := e1 / tolerance, e2 / tolerance;
    QuotientMonotone(e1, e2, tolerance);
    QuotientAtLeast(e1, tolerance, 1.0);
    QuotientAtLeast(e2, tolerance, 1.0);
    QuotientNonNegative(e1, tolerance);
    if r2 < 1.0 {
      WeberCurveMonotone(1.0 - r2, 1.0 - r1);
    }
  }

  /** The acceptance rule each mode promises: within CORRECT_ENOUGH_PERCENTAGE of the
      actual distance on either side for Classic; within 90% of the Weber tolerance for
      Time Trial (the errors that still score at least one point). */
  predicate CloseEnough(mode: GameMode, actual: real, guess: real)
  {
    if UsesWeber(mode) then
      Abs(guess - actual) <= 0.9 * Tolerance(Settings(mode).scoringParams, actual)
    else
      actual * (1.0 - CorrectEnoughPercentage) <= guess <= actual * (1.0 + CorrectEnoughPercentage)
  }

  /** calculateScore: 10 or 0 in Classic, 0..100 by the Weber curve in Time Trial, and
      positive exactly for the guesses the mode accepts. */
  function CalculateScore(mode: GameMode, actual: real, guess: real): (score: int)
    decreases if UsesWeber(mode) then 0 else 1
    ensures 0 <= score <= 100
    ensures score > 0 <==> CloseEnough(mode, actual, guess)
    ensures !UsesWeber(mode) ==> score == 0 || score == 10
  {
    var params := Settings(mode).scoringParams;
    if !params.usesWeberScoring then
      (if IsGuessCorrect(mode, actual, guess) then 10 else 0)
    else
      WeberScore(params, actual, guess)
  }

  /** isGuessCorrect: in a Weber mode a guess is correct when it scores; otherwise when it
      is within the percentage band around the actual distance. */
  function IsGuessCorrect(mode: GameMode, actual: real, guess: real): (correct: bool)
    decreases if UsesWeber(mode) then 1 else 0
    ensures correct <==> CloseEnough(mode, actual, guess)
  {
    if UsesWeber(mode) then
      CalculateScore(mode, actual, guess) > 0
    else
      Abs(actual - guess) <= actual * CorrectEnoughPercentage
  }

  /* ------------------------------------------------------------------------------
     Lives and the Classic streak
     ------------------------------------------------------------------------------ */

  /** decreaseLife: only a lives-based mode without a timer (Classic) loses a life, and
      never below zero. */
  function LivesAfterDecrease(mode: GameMode, lives: int): (r: int)
    ensures r == (if mode == Classic && lives > 0 then lives - 1 else lives)
  {
    var settings := Settings(mode);
    if settings.initialLives > 0 && !settings.hasTimer && lives > 0 then lives - 1 else lives
  }

  /** increaseLife: Classic gains a life up to its starting number of lives, never more. */
  function LivesAfterIncrease(mode: GameMode, lives: int): (r: int)
    ensures lives <= r <= lives + 1
    ensures r == lives + 1 <==> mode == Classic && lives < InitialLives
    ensures lives <= InitialLives ==> r <= InitialLives
  {
    if mode == Classic && lives < Settings(Classic).initialLives then lives + 1 else lives
  }

  /** game.lives together with game.consecutiveCorrectGuesses. */
  datatype Standing = Standing(lives: int, streak: int)

  predicate ValidStanding(s: Standing)
  {
    0 <= s.lives <= InitialLives && 0 <= s.streak < StreakForBonusLife
  }

  /** The streak part of recordGuessResult, which applies in Classic only: a correct guess
      extends the streak, and the third in a row earns a life and restarts it; a wrong
      guess restarts it. */
  function AfterRecord(mode: GameMode, s: Standing, correct: bool): (r: Standing)
    ensures ValidStanding(s) ==> ValidStanding(r)
  {
    if mode == Classic && !UsesWeber(mode) then
      if correct then
        if s.streak + 1 >= StreakForBonusLife then Standing(LivesAfterIncrease(mode, s.lives), 0)
        else Standing(s.lives, s.streak + 1)
      else
        Standing(s.lives, 0)
    else
      s
  }

  /** One submitted guess as a whole (recordGuessResult, then decreaseLife for a wrong
      Classic guess in handleSubmitGuess). */
  function AfterRound(mode: GameMode, s: Standing, correct: bool): (r: Standing)
    ensures ValidStanding(s) ==> ValidStanding(r)
  {
    var recorded := AfterRecord(mode, s, correct);
    if mode == Classic && !correct then Standing(LivesAfterDecrease(mode, recorded.lives), recorded.streak)
    else recorded
  }

  /** A game's guesses, oldest first. */
  function AfterRounds(mode: GameMode, s: Standing, outcomes: seq<bool>): Standing
    decreases |outcomes|
  {
    if outcomes == [] then s
    else AfterRounds(mode, AfterRound(mode, s, outcomes[0]), outcomes[1..])
  }

  function Min(a: int, b: int): int
  {
    if a < b then a else b
  }

  /** In Classic, k correct guesses in a row from a fresh streak earn one life per three
      guesses, up to the starting number of lives, and leave k % 3 in the streak. */
  lemma {:induction false} CorrectRunEarnsLives(lives: int, streak: int, k: nat)
    requires 0 <= lives <= InitialLives && 0 <= streak < StreakForBonusLife
    decreases k
    ensures AfterRounds(Classic, Standing(lives, streak), seq(k, _ => true))
            == Standing(Min(lives + (streak + k) / StreakForBonusLife, InitialLives),
                        (streak + k) % StreakForBonusLife)
  {
    if k > 0 {
      var next := AfterRound(Classic, Standing(lives, streak), true);
      assert seq(k, _ => true)[1..] == seq(k - 1, _ => true);
      if streak + 1 == StreakForBonusLife {
        assert next == Standing(Min(lives + 1, InitialLives), 0);
        CorrectRunEarnsLives(next.lives, 0, k - 1);
      } else {
        assert next == Standing(lives, streak + 1);
        CorrectRunEarnsLives(lives, streak + 1, k - 1);
      }
    }
  }

  /** In Classic, every wrong guess costs a life (while any are left) and clears the streak:
      n wrong guesses in a row leave max(lives - n, 0) lives. */
  lemma {:induction false} WrongRunCostsLives(lives: int, streak: int, n: nat)
    requires 0 <= lives
    decreases n
    ensures AfterRounds(Classic, Standing(lives, streak), seq(n, _ => false))
            == Standing(if n < lives then lives - n else 0, if n == 0 then streak else 0)
  {
    if n > 0 {
      assert seq(n, _ => false)[1..] == seq(n - 1, _ => false);
      var next := AfterRound(Classic, Standing(lives, streak), false);
      assert next == Standing(if lives > 0 then lives - 1 else 0, 0);
      WrongRunCostsLives(next.lives, 0, n - 1);
    }
  }

  /** Time Trial has neither lives nor a streak: no sequence of guesses changes either. */
  lemma {:induction false} TimeTrialStandingFixed(s: Standing, outcomes: seq<bool>)
    ensures AfterRounds(TimeTrial, s, outcomes) == s
  {
    if outcomes != [] {
      TimeTrialStandingFixed(s, outcomes[1..]);
    }
  }

  /* ------------------------------------------------------------------------------
     The Time Trial countdown
     ------------------------------------------------------------------------------ */

  /** What the interval reports: onTickCallback(seconds) or onEndCallback(). */
  datatype TimerEvent = Display(seconds: int) | TimeUp

  /** game.timerValue (undefined outside Time Trial until first set) and whether
      gameTimerInterval is set. */
  datatype Clock = Clock(value: Option<int>, running: bool)

  /** One firing of the interval set by startGameTimer; a cleared interval does not fire. */
  function TickStep(c: Clock): (r: (Clock, seq<TimerEvent>))
    ensures !c.running ==> r == (c, [])
    ensures c.running && c.value.Some? && c.value.value > 0 ==>
              r.0.value == Some(c.value.value - 1)
              && r.0.running == (c.value.value > 1)
              && r.1 == [Display(c.value.value - 1)] + (if c.value.value > 1 then [] else [TimeUp])
  {
    if !c.running then (c, [])
    else match c.value
      case None => (c, [])
      case Some(v) =>
        var v' := if v > 0 then v - 1 else v;
        var shown := if v > 0 then [Display(v')] else [];
        if v' <= 0 then (Clock(Some(v'), false), shown + [TimeUp])
        else (Clock(Some(v'), true), shown)
  }

  /** n firings of the interval, with everything they report, oldest first. */
  function RunTicks(c: Clock, n: nat): (Clock, seq<TimerEvent>)
    decreases n
  {
    if n == 0 then (c, [])
    else
      var (c1, e1) := TickStep(c);
      var (c2, e2) := RunTicks(c1, n - 1);
      (c2, e1 + e2)
  }

  /** The seconds shown while counting down from v: v - 1, ..., 1, 0. */
  function CountingDown(v: nat): seq<TimerEvent>
  {
    if v == 0 then [] else [Display(v - 1)] + CountingDown(v - 1)
  }

  /** A countdown started at v > 0 shows every second down to 0, reports time up exactly
      once, at its v-th firing, and is then cleared. */
  lemma {:induction false} CountdownRunsOut(v: nat)
    requires 0 < v
    ensures RunTicks(Clock(Some(v), true), v) == (Clock(Some(0), false), CountingDown(v) + [TimeUp])
  {
    var (c1, e1) := TickStep(Clock(Some(v), true));
    if v == 1 {
      assert c1 == Clock(Some(0), false) && e1 == [Display(0)] + [TimeUp];
      assert RunTicks(c1, 0) == (c1, []);
      assert e1 + [] == CountingDown(1) + [TimeUp];
    } else {
      assert c1 == Clock(Some(v - 1), true) && e1 == [Display(v - 1)];
      CountdownRunsOut(v - 1);
      assert [Display(v - 1)] + (CountingDown(v - 1) + [TimeUp]) == CountingDown(v) + [TimeUp];
    }
  }

  /** A stopped timer never fires again. */
  lemma {:induction false} StoppedTimerSilent(c: Clock, n: nat)
    requires !c.running
    ensures RunTicks(c, n) == (c, [])
  {
    if n > 0 {
      assert TickStep(c) == (c, []);
      StoppedTimerSilent(c, n - 1);
      var none: seq<TimerEvent> := [];
      assert none + none == none;
    }
  }

  /* ------------------------------------------------------------------------------
     The shared game object
     ------------------------------------------------------------------------------ */

  /** All fields of the game object at one moment. */
  datatype GameRecord = GameRecord(
    selectedGameMode: GameMode,
    lives: int,
    timerValue: Option<int>,
    timerDurationSetting: Option<int>,
    currentRoundNumber: int,
    errorScores: seq<real>,
    runningMeanError: real,
    totalScore: int,
    consecutiveCorrectGuesses: int,
    problem: Option<Problem>,
    timerRunning: bool)

  /** The duration initializeCoreGameData settles on: the requested one if the mode offers
      it, the mode's default otherwise. */
  function ChosenDuration(mode: GameMode, durationOption: Option<int>): (d: int)
    ensures Settings(mode).hasTimer ==> d in Settings(mode).availableDurations
    ensures durationOption.Some? && durationOption.value in Settings(mode).availableDurations ==>
              d == durationOption.value
    ensures !(durationOption.Some? && durationOption.value in Settings(mode).availableDurations) ==>
              d == Settings(mode).defaultDuration
  {
    var settings := Settings(mode);
    if durationOption.Some? && durationOption.value != 0 && durationOption.value in settings.availableDurations
    then durationOption.value
    else settings.defaultDuration
  }

  /** A problem the redraw loop of setupNewRoundProblemData can settle on from `attempts`. */
  ghost predicate DrawnFromSome(pr: Problem, attempts: seq<RoundDraw>, sqrt: real -> real)
  {
    exists used :: DrawnFrom(pr, attempts, used, sqrt)
  }

  /** The game initializeCoreGameData leaves behind: the mode with its lives, the chosen
      countdown in a timed mode (Classic keeps timerValue and drops the duration setting),
      an empty history with a zero mean, score and streak, and round 1 with a problem drawn
      from `attempts`. The running timer is not part of it. */
  ghost predicate NewGame(before: GameRecord, after: GameRecord, mode: GameMode, durationOption: Option<int>,
                          attempts: seq<RoundDraw>, sqrt: real -> real)
  {
    var settings := Settings(mode);
    && after.problem.Some?
    && DrawnFromSome(after.problem.value, attempts, sqrt)
    && after == GameRecord(
         mode, settings.initialLives,
         if settings.hasTimer then Some(ChosenDuration(mode, durationOption)) else before.timerValue,
         if settings.hasTimer then Some(ChosenDuration(mode, durationOption)) else None,
         1, [], 0.0, 0, 0, after.problem, after.timerRunning)
  }

  /** The test checkGameOver applies: a timed game is over when its countdown has run out,
      any other game when no lives are left. */
  predicate GameOverIn(r: GameRecord)
  {
    if Settings(r.selectedGameMode).hasTimer then r.timerValue.Some? && r.timerValue.value <= 0
    else r.lives <= 0
  }

  /** The `game` object of js/gameState.js, with gameTimerInterval as `timerRunning`. */
  class Game {
    var selectedGameMode: GameMode
    var lives: int
    var timerValue: Option<int>
    var timerDurationSetting: Option<int>
    var currentRoundNumber: int
    var errorScores: seq<real>
    var runningMeanError: real
    var totalScore: int
    var consecutiveCorrectGuesses: int
    var problem: Option<Problem>
    var timerRunning: bool

    function Record(): GameRecord
      reads this
    {
      GameRecord(selectedGameMode, lives, timerValue, timerDurationSetting, currentRoundNumber,
                 errorScores, runningMeanError, totalScore, consecutiveCorrectGuesses, problem,
                 timerRunning)
    }

    function TimerClock(): Clock
      reads this
    {
      Clock(timerValue, timerRunning)
    }

    function CurrentStanding(): Standing
      reads this
    {
      Standing(lives, consecutiveCorrectGuesses)
    }

    ghost predicate Valid()
      reads this
    {
      && ValidStanding(CurrentStanding())
      && (forall i :: 0 <= i < |errorScores| ==> 0.0 <= errorScores[i])
      && runningMeanError == Mean(errorScores)
      && 0 <= totalScore <= 100 * |errorScores|
      && (timerValue.Some? ==> 0 <= timerValue.value)
      && (timerRunning ==> timerValue.Some? && 0 < timerValue.value)
      && (timerDurationSetting.Some? ==>
            timerDurationSetting.value in Settings(TimeTrial).availableDurations)
      && (problem.Some? ==> ProblemReady(problem.value))
    }

    /** The object literal of js/gameState.js: the default mode and a zero score; the
        other fields are undefined until initializeCoreGameData. */
    constructor()
      ensures Valid()
      ensures selectedGameMode == DefaultGameMode && totalScore == 0
      ensures timerValue.None? && timerDurationSetting.None? && problem.None? && !timerRunning
      ensures errorScores == [] && currentRoundNumber == 0
    {
      selectedGameMode := DefaultGameMode;
      totalScore := 0;
      lives := 0;
      timerValue := None;
      timerDurationSetting := None;
      currentRoundNumber := 0;
      errorScores := [];
      runningMeanError := 0.0;
      consecutiveCorrectGuesses := 0;
      problem := None;
      timerRunning := false;
    }

    /** setupNewRoundProblemData: draws both dots again until their distance is not 0.
        Returns how many passes it took. */
    method SetupNewRoundProblemData(attempts: seq<RoundDraw>, sqrt: real -> real) returns (used: nat)
      requires RandomSource(attempts, sqrt)
      modifies this
      ensures problem.Some? && DrawnFrom(problem.value, attempts, used, sqrt)
      ensures Record() == old(Record()).(problem := problem)
    {
      used := 1;
      problem := Some(DrawProblem(attempts[0], sqrt));
      while problem.value.actualDistance == 0.0
        invariant 0 < used <= |attempts|
        invariant problem == Some(DrawProblem(attempts[used - 1], sqrt))
        invariant forall j :: 0 <= j < used - 1 ==> DrawProblem(attempts[j], sqrt).actualDistance == 0.0
        invariant exists k :: used - 1 <= k < |attempts| && DrawProblem(attempts[k], sqrt).actualDistance != 0.0
        invariant Record() == old(Record()).(problem := problem)
        decreases |attempts| - used
      {
        used := used + 1;
        problem := Some(DrawProblem(attempts[used - 1], sqrt));
      }
    }

    /** initializeCoreGameData: sets the mode and its lives, the countdown for a timed mode
        (a Classic game keeps timerValue and drops timerDurationSetting), clears the history
        and sets up round 1. Does not touch the running timer. */
    method InitializeCoreGameData(mode: GameMode, durationOption: Option<int>,
                                  attempts: seq<RoundDraw>, sqrt: real -> real) returns (used: nat)
      requires Valid() && RandomSource(attempts, sqrt)
      modifies this
      ensures Valid()
      ensures selectedGameMode == mode && lives == Settings(mode).initialLives
      ensures Settings(mode).hasTimer ==>
                timerValue == Some(ChosenDuration(mode, durationOption)) && timerDurationSetting == timerValue
      ensures !Settings(mode).hasTimer ==> timerValue == old(timerValue) && timerDurationSetting.None?
      ensures currentRoundNumber == 1 && errorScores == [] && runningMeanError == 0.0
      ensures totalScore == 0 && consecutiveCorrectGuesses == 0
      ensures problem.Some? && DrawnFrom(problem.value, attempts, used, sqrt)
      ensures timerRunning == old(timerRunning)
      ensures NewGame(old(Record()), Record(), mode, durationOption, attempts, sqrt)
    {
      selectedGameMode := mode;
      var settings := Settings(mode);
      lives := settings.initialLives;
      if settings.hasTimer {
        var selectedDuration := ChosenDuration(mode, durationOption);
        timerValue := Some(selectedDuration);
        timerDurationSetting := Some(selectedDuration);
      } else {
        timerDurationSetting := None;
      }
      currentRoundNumber := 0;
      errorScores := [];
      runningMeanError := 0.0;
      totalScore := 0;
      consecutiveCorrectGuesses := 0;
      currentRoundNumber := currentRoundNumber + 1;
      used := SetupNewRoundProblemData(attempts, sqrt);
    }

    /** prepareNextRoundData: the next round number and a new problem. */
    method PrepareNextRoundData(attempts: seq<RoundDraw>, sqrt: real -> real) returns (used: nat)
      requires Valid() && RandomSource(attempts, sqrt)
      modifies this
      ensures Valid()
      ensures problem.Some? && DrawnFrom(problem.value, attempts, used, sqrt)
      ensures Record() == old(Record()).(currentRoundNumber := old(currentRoundNumber) + 1, problem := problem)
    {
      currentRoundNumber := currentRoundNumber + 1;
      used := SetupNewRoundProblemData(attempts, sqrt);
    }

    /** recordGuessResult: appends the absolute error, updates the running mean so that it
        stays the mean of all errors, adds the Weber score in a Weber mode, and moves the
        Classic streak (a third correct guess in a row earns a life). */
    method RecordGuessResult(guess: real)
      requires Valid() && problem.Some?
      modifies this
      ensures Valid()
      ensures errorScores == old(errorScores) + [Abs(old(problem).value.actualDistance - guess)]
      ensures runningMeanError == Mean(errorScores) && 0.0 <= runningMeanError
      ensures totalScore == old(totalScore) +
                (if UsesWeber(selectedGameMode)
                 then CalculateScore(selectedGameMode, old(problem).value.actualDistance, guess) else 0)
      ensures CurrentStanding() == AfterRecord(selectedGameMode, old(CurrentStanding()),
                                        IsGuessCorrect(selectedGameMode, old(problem).value.actualDistance, guess))
      ensures Record() == old(Record()).(errorScores := errorScores, runningMeanError := runningMeanError,
                                         totalScore := totalScore, lives := lives,
                                         consecutiveCorrectGuesses := consecutiveCorrectGuesses)
    {
      var actual := problem.value.actualDistance;
      var error := Abs(actual - guess);
      IncrementalMean(errorScores, error);
      MeanNonNegative(errorScores + [error]);
      errorScores := errorScores + [error];
      var k := |errorScores|;
      runningMeanError := runningMeanError + (error - runningMeanError) / (k as real);

      var currentModeKey := selectedGameMode;
      if UsesWeber(currentModeKey) {
        var scoreForRound := CalculateScore(selectedGameMode, actual, guess);
        totalScore := totalScore + scoreForRound;
      }

      if currentModeKey == Classic && !UsesWeber(currentModeKey) {
        if IsGuessCorrect(selectedGameMode, actual, guess) {
          consecutiveCorrectGuesses := consecutiveCorrectGuesses + 1;
          if consecutiveCorrectGuesses >= StreakForBonusLife {
            IncreaseLife();
            consecutiveCorrectGuesses := 0;
          }
        } else {
          consecutiveCorrectGuesses := 0;
        }
      }
    }

    /** decreaseLife */
    method DecreaseLife()
      modifies this
      ensures lives == LivesAfterDecrease(selectedGameMode, old(lives))
      ensures Record() == old(Record()).(lives := lives)
    {
      var settings := Settings(selectedGameMode);
      if settings.initialLives > 0 && !settings.hasTimer {
        if lives > 0 {
          lives := lives - 1;
        }
      }
    }

    /** increaseLife */
    method IncreaseLife()
      modifies this
      ensures lives == LivesAfterIncrease(selectedGameMode, old(lives))
      ensures Record() == old(Record()).(lives := lives)
    {
      if selectedGameMode == Classic && lives < Settings(Classic).initialLives {
        lives := lives + 1;
      }
    }

    /** checkGameOver: a timed game is over when its countdown has reached 0, any other
        game when no lives are left. */
    function CheckGameOver(): (over: bool)
      requires Valid()
      reads this
      ensures Settings(selectedGameMode).hasTimer ==> (over <==> timerValue == Some(0))
      ensures !Settings(selectedGameMode).hasTimer ==> (over <==> lives == 0)
    {
      GameOverIn(Record())
    }

    /** startGameTimer: stops any running countdown; then starts one, reporting the starting
        value at once, only for a timed mode whose countdown is set and positive. */
    method StartGameTimer() returns (events: seq<TimerEvent>)
      requires Valid()
      modifies this
      ensures Valid()
      ensures timerRunning <==> Settings(selectedGameMode).hasTimer && timerValue.Some? && 0 < timerValue.value
      ensures events == if timerRunning then [Display(timerValue.value)] else []
      ensures Record() == old(Record()).(timerRunning := timerRunning)
    {
      StopGameTimer();
      var modeSettings := Settings(selectedGameMode);
      if !modeSettings.hasTimer || timerValue.None? || timerValue.value <= 0 {
        events := [];
        return;
      }
      events := [Display(timerValue.value)];
      timerRunning := true;
    }

    /** stopGameTimer */
    method StopGameTimer()
      modifies this
      ensures !timerRunning
      ensures Record() == old(Record()).(timerRunning := false)
    {
      timerRunning := false;
    }

    /** One firing of the interval startGameTimer set up. */
    method Tick() returns (events: seq<TimerEvent>)
      requires Valid() && timerRunning
      modifies this
      ensures Valid()
      ensures (TimerClock(), events) == TickStep(old(TimerClock()))
      ensures Record() == old(Record()).(timerValue := timerValue, timerRunning := timerRunning)
    {
      events := [];
      if timerValue.value > 0 {
        timerValue := Some(timerValue.value - 1);
        events := events + [Display(timerValue.value)];
        assert events == [Display(timerValue.value)];
      }
      if timerValue.value <= 0 {
        StopGameTimer();
        events := events + [TimeUp];
      }
    }
  }
}
