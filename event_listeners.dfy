/** js/eventListeners.js and its entry point js/main.js: the handlers that drive a game
    through the state machine. Each handler is one method of `App`, which owns the shared
    game object and the state machine. What a handler draws on the page beyond the
    distance line, and the text it writes, is not modelled. */
module EventListeners {
  import opened Wrappers
  import opened Config
  import opened Geometry
  import opened RealArith
  import opened Averages
  import opened HostInput
  import opened CoreGameLogic
  import opened GameStateMachine

  /** Which Time Trial duration radio is checked when Start is pressed. */
  datatype DurationChoice = ThirtySeconds | FifteenSeconds | NoDurationChecked

  /** What one submission did: rejected the input (with its message), or judged the guess. */
  datatype SubmitOutcome =
    | RejectedBlank
    | RejectedNotANumber
    | Judged(correct: bool, points: Option<int>, gameOver: bool)

  /** The duration the Start button asks for: none outside Time Trial; the checked radio,
      or the Time Trial default when neither is checked. */
  function StartDuration(mode: GameMode, choice: DurationChoice): (d: Option<int>)
    ensures mode != TimeTrial <==> d.None?
    ensures d.Some? ==> d.value in Settings(TimeTrial).availableDurations
    ensures mode == TimeTrial && choice == ThirtySeconds ==> d == Some(30)
    ensures mode == TimeTrial && choice != ThirtySeconds ==> d == Some(Settings(TimeTrial).defaultDuration)
  {
    if mode == TimeTrial then
      match choice
      case ThirtySeconds => Some(30)
      case FifteenSeconds => Some(15)
      case NoDurationChecked => Some(Settings(TimeTrial).defaultDuration)
    else None
  }

  /** The duration Restart asks for: the one the last Time Trial used (`|| 15`). */
  function RestartDuration(mode: GameMode, setting: Option<int>): (d: Option<int>)
    ensures mode != TimeTrial <==> d.None?
    ensures mode == TimeTrial && setting.Some? && setting.value != 0 ==> d == setting
    ensures mode == TimeTrial && setting.None? ==> d == Some(Settings(TimeTrial).defaultDuration)
  {
    if mode == TimeTrial then
      match setting
      case Some(v) => if v != 0 then Some(v) else Some(Settings(TimeTrial).defaultDuration)
      case None => Some(Settings(TimeTrial).defaultDuration)
    else None
  }

  /** What handleSubmitGuess does to the game object and the page, from ACTIVE_GAME: a blank
      or unparsable field changes nothing; a number has its error recorded (the mean kept
      exact), its Weber points added in a Weber mode, the Classic streak moved and a wrong
      Classic guess charged a life, then the line is drawn and the page moves to GAME_OVER
      when checkGameOver holds (the countdown stopped, the line cleared), to
      SHOWING_FEEDBACK otherwise. Round, problem, mode and countdown value stay as they were. */
  ghost predicate SubmitEffect(field: GuessField, before: GameRecord, after: GameRecord,
                               pageBefore: PageRecord, pageAfter: PageRecord, outcome: SubmitOutcome)
  {
    match field
    case Blank => outcome == RejectedBlank && after == before && pageAfter == pageBefore
    case NotANumber => outcome == RejectedNotANumber && after == before && pageAfter == pageBefore
    case Number(guess) =>
      before.problem.Some? &&
      var mode := before.selectedGameMode;
      var actual := before.problem.value.actualDistance;
      var correct := IsGuessCorrect(mode, actual, guess);
      var judged := AfterGuess(before, guess);
      var over := GameOverIn(judged);
      && after == judged.(timerRunning := before.timerRunning && !over)
      && outcome == Judged(correct, if UsesWeber(mode) then Some(CalculateScore(mode, actual, guess)) else None, over)
      && pageAfter == PageRecord(Some(if over then GameOver else ShowingFeedback), mode,
                                 if over then ClearFirst(pageBefore.distanceLines + [correct])
                                 else pageBefore.distanceLines + [correct],
                                 pageBefore.renderCount + 1)
  }

  /** The game object once a numeric guess is judged (recordGuessResult, then decreaseLife
      for a wrong Classic guess): the error appended and the mean kept exact, the Weber
      points added in a Weber mode, lives and streak moved as `AfterRound` says. */
  function AfterGuess(before: GameRecord, guess: real): GameRecord
    requires before.problem.Some?
  {
    var mode := before.selectedGameMode;
    var actual := before.problem.value.actualDistance;
    var standing := AfterRound(mode, Standing(before.lives, before.consecutiveCorrectGuesses),
                               IsGuessCorrect(mode, actual, guess));
    var errors := before.errorScores + [Abs(actual - guess)];
    before.(lives := standing.lives, consecutiveCorrectGuesses := standing.streak,
            errorScores := errors, runningMeanError := Mean(errors),
            totalScore := before.totalScore + (if UsesWeber(mode) then CalculateScore(mode, actual, guess) else 0))
  }

  /** The page after handleTimeUp: GAME_OVER entered (and the page rendered) only when it
      was not already shown. */
  function AfterTimeUp(page: PageRecord, mode: GameMode): (r: PageRecord)
    ensures r.currentGameState == Some(GameOver)
    ensures page.currentGameState == Some(GameOver) <==> r == page
  {
    if page.currentGameState == Some(GameOver) then page
    else PageRecord(Some(GameOver), mode, ClearFirst(page.distanceLines), page.renderCount + 1)
  }

  class App {
    const game: Game
    const sm: StateMachine

    function State(): Option<GameState>
      reads sm
    {
      sm.GetCurrentGameState()
    }

    /** What holds between any two events once the page has loaded. */
    ghost predicate Valid()
      reads this, game, sm
    {
      && game.Valid()
      && State().Some?
      && (State() == Some(StartScreen) || State() == Some(GameOver) ==> !game.timerRunning)
      && (InRound(State()) ==> game.problem.Some?)
      && (State() == Some(ActiveGame) ==> game.currentRoundNumber == |game.errorScores| + 1)
      && (State() == Some(ShowingFeedback) ==> game.currentRoundNumber == |game.errorScores|)
      && |sm.distanceLines| <= 1
      && (sm.distanceLines != [] ==> State() == Some(ShowingFeedback))
    }

    /** main.js: the default mode, game data for it, then the start screen. */
    constructor(attempts: seq<RoundDraw>, sqrt: real -> real)
      requires RandomSource(attempts, sqrt)
      ensures Valid()
      ensures State() == Some(StartScreen)
      ensures game.selectedGameMode == DefaultGameMode && game.lives == InitialLives
      ensures game.currentRoundNumber == 1 && !game.timerRunning
      ensures fresh(game) && fresh(sm)
    {
      var g := new Game();
      var s := new StateMachine();
      game := g;
      sm := s;
      new;
      game.selectedGameMode := DefaultGameMode;
      var _ := game.InitializeCoreGameData(DefaultGameMode, None, attempts, sqrt);
      var _ := sm.SetGameState(StartScreen, false, game.selectedGameMode);
    }

    /** handleTimeUp: the game is over (set once) and the countdown stopped. */
    method HandleTimeUp()
      requires Valid()
      modifies game, sm
      ensures Valid()
      ensures State() == Some(GameOver) && !game.timerRunning
      ensures sm.Record() == AfterTimeUp(old(sm.Record()), game.selectedGameMode)
      ensures game.Record() == old(game.Record()).(timerRunning := false)
    {
      if State() != Some(GameOver) {
        var _ := sm.SetGameState(GameOver, false, game.selectedGameMode);
      }
      game.StopGameTimer();
    }

    /** One firing of the countdown interval, with handleTimeUp as its end callback. */
    method OnTimerTick() returns (events: seq<TimerEvent>)
      requires Valid() && game.timerRunning
      modifies game, sm
      ensures Valid()
      ensures (game.TimerClock(), events) == TickStep(old(game.TimerClock()))
      ensures State() == if TimeUp in events then Some(GameOver) else old(State())
      ensures sm.Record() == if TimeUp in events then AfterTimeUp(old(sm.Record()), game.selectedGameMode)
                             else old(sm.Record())
      ensures game.Record() == old(game.Record()).(timerValue := game.timerValue, timerRunning := game.timerRunning)
    {
      events := game.Tick();
      if TimeUp in events {
        HandleTimeUp();
      }
    }

    /** handleSubmitGuess, reached by the Submit button (enabled only in ACTIVE_GAME) or by
        Enter in ACTIVE_GAME: a blank or unparsable field is rejected and nothing changes;
        a number is recorded, a wrong Classic guess costs a life, the distance line is
        drawn, and the game moves to GAME_OVER if checkGameOver says so (stopping the
        countdown), to SHOWING_FEEDBACK otherwise. */
    method HandleSubmitGuess(field: GuessField) returns (outcome: SubmitOutcome)
      requires Valid() && State() == Some(ActiveGame)
      modifies game, sm
      ensures Valid()
      ensures SubmitEffect(field, old(game.Record()), game.Record(), old(sm.Record()), sm.Record(), outcome)
    {
      match field {
        case Blank =>
          return RejectedBlank;
        case NotANumber =>
          return RejectedNotANumber;
        case Number(parsedGuess) =>
          ghost var before := game.Record();
          var correctForClassic, points := JudgeGuess(parsedGuess);
          sm.RenderDistanceLine(correctForClassic);
          var over := game.CheckGameOver();
          if over {
            game.StopGameTimer();
            var _ := sm.SetGameState(GameOver, false, game.selectedGameMode);
          } else {
            var _ := sm.SetGameState(ShowingFeedback, false, game.selectedGameMode);
          }
          assert over == GameOverIn(AfterGuess(before, parsedGuess));
          return Judged(correctForClassic, points, over);
      }
    }

    /** The game-object part of handleSubmitGuess for a number: recordGuessResult, the
        Classic verdict, the Weber points, and decreaseLife for a wrong Classic guess. The
        verdict the distance line is drawn with is the same in both branches of the source. */
    method JudgeGuess(parsedGuess: real) returns (correctForClassic: bool, points: Option<int>)
      requires game.Valid() && game.problem.Some?
      modifies game
      ensures game.Valid()
      ensures var mode := game.selectedGameMode;
              var actual := old(game.problem).value.actualDistance;
              && correctForClassic == IsGuessCorrect(mode, actual, parsedGuess)
              && points == (if UsesWeber(mode) then Some(CalculateScore(mode, actual, parsedGuess)) else None)
      ensures game.Record() == AfterGuess(old(game.Record()), parsedGuess)
    {
      var actual := game.problem.value.actualDistance;
      game.RecordGuessResult(parsedGuess);
      correctForClassic := IsGuessCorrect(game.selectedGameMode, actual, parsedGuess);
      points := None;
      if UsesWeber(game.selectedGameMode) {
        points := Some(CalculateScore(game.selectedGameMode, actual, parsedGuess));
      }
      if game.selectedGameMode == Classic && !correctForClassic {
        game.DecreaseLife();
      }
    }

    /** The Enter key on the guess field submits only in ACTIVE_GAME. */
    method HandleEnterKey(field: GuessField) returns (outcome: Option<SubmitOutcome>)
      requires Valid()
      modifies game, sm
      ensures Valid()
      ensures outcome.Some? <==> old(State()) == Some(ActiveGame)
      ensures outcome.Some? ==>
                SubmitEffect(field, old(game.Record()), game.Record(), old(sm.Record()), sm.Record(), outcome.value)
      ensures outcome.None? ==> unchanged(game, sm)
    {
      if State() == Some(ActiveGame) {
        var submitted := HandleSubmitGuess(field);
        return Some(submitted);
      }
      return None;
    }

    /** handleModeSelectionChange: the checked radio (if any) becomes the selected mode; on
        the start screen the page is rendered again for it. */
    method HandleModeSelectionChange(checked: Option<GameMode>)
      requires Valid()
      modifies game, sm
      ensures Valid()
      ensures game.selectedGameMode == if checked.Some? then checked.value else old(game.selectedGameMode)
      ensures game.Record() == old(game.Record()).(selectedGameMode := game.selectedGameMode)
      ensures State() == old(State())
      ensures State() == Some(StartScreen) ==>
                sm.Record() == old(sm.Record()).(renderedMode := game.selectedGameMode,
                                                 distanceLines := ClearFirst(old(sm.distanceLines)),
                                                 renderCount := old(sm.renderCount) + 1)
      ensures State() != Some(StartScreen) ==> unchanged(sm)
    {
      var previousMode := game.selectedGameMode;
      if checked.Some? {
        game.selectedGameMode := checked.value;
      }
      if game.selectedGameMode != previousMode && State() == Some(StartScreen) {
        var _ := sm.SetGameState(StartScreen, true, game.selectedGameMode);
      } else if State() == Some(StartScreen) {
        var _ := sm.SetGameState(StartScreen, true, game.selectedGameMode);
      }
    }

    /** The Start button, which acts only on the start screen: a new game in the selected
        mode (with the checked duration in Time Trial), round 1 on screen, and the
        countdown running in a timed mode. */
    method HandleStart(choice: DurationChoice, attempts: seq<RoundDraw>, sqrt: real -> real)
      requires Valid() && RandomSource(attempts, sqrt)
      modifies game, sm
      ensures Valid()
      ensures old(State()) != Some(StartScreen) ==> unchanged(game, sm)
      ensures old(State()) == Some(StartScreen) ==>
        var mode := old(game.selectedGameMode);
        && game.selectedGameMode == mode
        && State() == Some(ActiveGame)
        && game.currentRoundNumber == 1 && game.errorScores == [] && game.totalScore == 0
        && game.lives == Settings(mode).initialLives
        && (Settings(mode).hasTimer ==>
              game.timerValue == Some(ChosenDuration(mode, StartDuration(mode, choice))) && game.timerRunning)
        && (!Settings(mode).hasTimer ==> !game.timerRunning)
        && NewGame(old(game.Record()), game.Record(), mode, StartDuration(mode, choice), attempts, sqrt)
        && sm.Record() == PageRecord(Some(ActiveGame), mode, [], old(sm.renderCount) + 1)
    {
      if State() == Some(StartScreen) {
        var currentSelectedMode := game.selectedGameMode;
        var duration := StartDuration(currentSelectedMode, choice);
        var _ := game.InitializeCoreGameData(currentSelectedMode, duration, attempts, sqrt);
        var _ := sm.SetGameState(ActiveGame, false, game.selectedGameMode);
        if Settings(currentSelectedMode).hasTimer {
          var _ := game.StartGameTimer();
        }
        DisplayNewProblem();
      }
    }

    /** displayNewProblem: clears the previous problem's graphics (dots and line). */
    method DisplayNewProblem()
      modifies sm
      ensures sm.Record() == old(sm.Record()).(distanceLines := ClearFirst(old(sm.distanceLines)))
    {
      sm.ClearDistanceLine();
    }

    /** The Next button, which acts only while feedback is shown: the next round. */
    method HandleNext(attempts: seq<RoundDraw>, sqrt: real -> real)
      requires Valid() && RandomSource(attempts, sqrt)
      modifies game, sm
      ensures Valid()
      ensures old(State()) != Some(ShowingFeedback) ==> unchanged(game, sm)
      ensures old(State()) == Some(ShowingFeedback) ==>
        && State() == Some(ActiveGame)
        && sm.distanceLines == []
        && game.Record() == old(game.Record()).(currentRoundNumber := old(game.currentRoundNumber) + 1,
                                                problem := game.problem)
        && game.problem.Some? && DrawnFromSome(game.problem.value, attempts, sqrt)
        && sm.Record() == PageRecord(Some(ActiveGame), old(game.selectedGameMode), [], old(sm.renderCount) + 1)
    {
      if State() == Some(ShowingFeedback) {
        var _ := game.PrepareNextRoundData(attempts, sqrt);
        DisplayNewProblem();
        var _ := sm.SetGameState(ActiveGame, false, game.selectedGameMode);
      }
    }

    /** The Restart button: stops the countdown and starts a new game in the same mode,
        with the duration the last Time Trial used. It checks no state. */
    method HandleRestart(attempts: seq<RoundDraw>, sqrt: real -> real)
      requires Valid() && RandomSource(attempts, sqrt)
      modifies game, sm
      ensures Valid()
      ensures
        var mode := old(game.selectedGameMode);
        && game.selectedGameMode == mode
        && State() == Some(ActiveGame)
        && game.currentRoundNumber == 1 && game.errorScores == [] && game.totalScore == 0
        && game.lives == Settings(mode).initialLives
        && (Settings(mode).hasTimer ==>
              game.timerValue == Some(ChosenDuration(mode, RestartDuration(mode, old(game.timerDurationSetting))))
              && game.timerRunning)
        && (!Settings(mode).hasTimer ==> !game.timerRunning)
        && NewGame(old(game.Record()), game.Record(), mode, RestartDuration(mode, old(game.timerDurationSetting)),
                   attempts, sqrt)
        && sm.Record() == if old(State()) == Some(ActiveGame) then old(sm.Record())
                          else PageRecord(Some(ActiveGame), mode, [], old(sm.renderCount) + 1)
    {
      game.StopGameTimer();
      var currentSelectedMode := game.selectedGameMode;
      var duration := RestartDuration(currentSelectedMode, game.timerDurationSetting);
      var _ := game.InitializeCoreGameData(currentSelectedMode, duration, attempts, sqrt);
      var _ := sm.SetGameState(ActiveGame, false, game.selectedGameMode);
      if Settings(currentSelectedMode).hasTimer {
        var _ := game.StartGameTimer();
      }
      DisplayNewProblem();
    }
  }
}
