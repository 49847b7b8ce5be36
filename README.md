# DistanceGuess in Dafny

DistanceGuess is a browser game. Two dots appear on a unit square, the player guesses the
distance between them, and a guess close enough to the real distance counts as correct.
The game has two modes:

- **Classic** runs on lives. A wrong guess costs a life, and three correct guesses in a row
  win one back, up to the three the game starts with.
- **Time Trial** has no lives. It runs against a 15 or 30 second countdown and scores each
  guess 0–100 with a Weber-law curve: the allowed error grows with the distance.

The repository holds the modular game (`js/`) and two older versions of the same game:
the Python prototype `game_logic.py` and the single-file page `script.js`. This project
models all three:

| module | file | models |
|---|---|---|
| `Config` | config.dfy | js/config.js: states, modes, per-mode settings, constants |
| `Geometry` | geometry.dfy | points and the Euclidean distance, with `Math.sqrt` as a parameter |
| `Averages` | averages.dfy | sum and mean of the error history, and the incremental mean |
| `RealArith` | real_arith.dfy | `Math.abs`, `Math.max`, and the product and quotient facts the scoring proofs use |
| `HostInput` | host_input.dfy | the guess field as the handlers classify it (blank, not a number, a number) |
| `CoreGameLogic` | core_game_logic.dfy | js/coreGameLogic.js acting on the `game` object of js/gameState.js (class `Game`) |
| `GameStateMachine` | game_state.dfy | js/gameState.js: `setGameState`, the visibility `updateUIForState` derives, and the distance line of js/graphics.js |
| `EventListeners` | event_listeners.dfy | js/eventListeners.js and js/main.js (class `App`) |
| `LegacyPython` | legacy_python.dfy | game_logic.py: `Dot`, `generate_two_dots`, `is_guess_correct`, class `Game` |
| `LegacyScript` | legacy_script.dfy | script.js: its `game` object, `isGuessCorrectJS`, `setGameState` and the handlers (class `ScriptPage`) |
| `Comparison` | comparison.dfy | where the three versions' rules agree and where they differ |

Randomness and `Math.sqrt` are parameters:

- Every `Math.random()` / `random.uniform` result a method would consume is passed in as a
  sequence of draws. A predicate (`RandomSource`, `TwoDotSource`, `RoundSource`) states
  that every draw is in range and that one of them lets the redraw loop stop. The loop
  returns how many draws it used.
- `sqrt` is any function that returns the non-negative square root of a non-negative real
  (`Geometry.IsSqrt`).

Stateful code is modelled as classes whose methods change their fields:

- The shared `game` object, the state machine, the page with its handlers, and both legacy
  games are classes.
- `CoreGameLogic.Game`, `EventListeners.App`, `LegacyPython.Game`, `LegacyScript.ScriptGame`
  and `LegacyScript.ScriptPage` have a `Valid()` invariant.
- The handlers of `App` and `ScriptPage` require and keep it, except
  `App.DisplayNewProblem`, which only clears the line. The constructors (but the empty
  `ScriptGame` one) and the methods that set up a game establish it; the methods that
  draw the next round, judge a guess or run the clock require and keep it.
- Some small mutators neither require nor promise it, and their callers re-establish it:
  `Game.SetupNewRoundProblemData`, `Game.DecreaseLife`, `Game.IncreaseLife`,
  `Game.StopGameTimer`, `ScriptPage.SetGameState` and `ScriptPage.RemoveDistanceLine`.
- Both legacy games carry ghost fields that the source does not have: the lives they
  started with and the verdicts of the guesses judged so far (`startLives`, `outcomes`).
  Their `Valid()` ties `lives` to that history through the lives rule.
- `GameStateMachine.StateMachine` has no invariant: any state and any list of lines is
  possible.
- Where a method says that nothing else changes, it compares a snapshot of all fields
  before and after (`Game.Record()`, `StateMachine.Record()`, `ScriptGame.Record()`,
  `ScriptPage.View()`).

Where the code and its documentation disagree, the model follows the code:

- In Classic, `initializeCoreGameData` leaves `timerValue` as it was and only resets
  `timerDurationSetting`.
- The Restart button of js/eventListeners.js checks no game state. It restarts from any
  screen, the start screen included.
- `decreaseLife` never takes lives below zero. The legacy versions have no such floor
  (`LivesAfterGuess`).
- `handleSubmitGuess` in script.js sends a finished game to GAME_OVER. So the
  `isGameOver()` check on the Next button never fires. Next is only reachable while
  feedback is shown, and then the game always has a life left (`LegacyScript.ScriptPage.HandleNext`).

## Model

| member | source | states |
|---|---|---|
| Geometry.CalculateDistance | js/coreGameLogic.js:13-15 | the result is non-negative and its square is the squared Euclidean distance; a dot is at distance 0 from itself |
| Geometry.SquaredDistanceNonNegative | game_logic.py:40-45 | the quantity under the square root is never negative, so `math.sqrt` never fails |
| Geometry.SquaredDistanceToItself | script.js:48-51 | identical dots have squared distance 0 |
| Averages.SumAppend | js/coreGameLogic.js:102-131 | appending an error adds it to the sum of the history |
| Averages.IncrementalMean | js/coreGameLogic.js:102-131 | the running-mean update `mean + (e - mean) / n` gives exactly the mean of the history with `e` appended |
| Averages.SumNonNegative | game_logic.py:113-115 | a history of absolute errors has a non-negative sum |
| Averages.MeanNonNegative | js/coreGameLogic.js:102-106 | a history of absolute errors has a non-negative mean |
| RealArith.Abs | js/coreGameLogic.js:103 | the absolute error is non-negative and equals the difference or its negation |
| RealArith.Max | js/coreGameLogic.js:81 | the tolerance is at least both A and B * distance, and equals one of them |
| CoreGameLogic.GenerateCoordinate | js/coreGameLogic.js:5-7 | a draw in [0, 1) lands in [margin, 1 - margin) |
| CoreGameLogic.GenerateDot | js/coreGameLogic.js:9-11 | a dot from two draws in [0, 1) lies in the spawn area |
| CoreGameLogic.DrawProblem | js/coreGameLogic.js:20-32 | one pass of the redraw loop gives two dots in the spawn area and the distance between them |
| CoreGameLogic.WeberCurveAtMost100 | js/coreGameLogic.js:85-89 | the Weber curve never exceeds 100 points |
| CoreGameLogic.WeberCurveAtLeastOne | js/coreGameLogic.js:85-89 | a relative error of at most 0.9 scores at least one point |
| CoreGameLogic.WeberCurveZero | js/coreGameLogic.js:85-89 | a relative error above 0.9 floors to zero points |
| CoreGameLogic.WeberCurveMonotone | js/coreGameLogic.js:85-89 | the curve does not decrease as the guess gets closer |
| CoreGameLogic.WeberScore | js/coreGameLogic.js:69-90 | the Weber score is in 0..100, is 100 for an exact guess, and is positive exactly when the error is at most 90% of max(A, B * distance) |
| CoreGameLogic.WeberScoreMonotone | js/coreGameLogic.js:69-90 | a closer guess never scores less |
| CoreGameLogic.CalculateScore | js/coreGameLogic.js:69-90 | the score is in 0..100; it is positive exactly for the guesses the mode accepts; Classic gives only 0 or 10 |
| CoreGameLogic.IsGuessCorrect | js/coreGameLogic.js:92-100 | a guess is correct exactly when it is within 15% of the distance (Classic) or scores a point (Weber mode) |
| CoreGameLogic.LivesAfterDecrease | js/coreGameLogic.js:133-141 | only Classic loses a life, one at a time, and never goes below zero |
| CoreGameLogic.LivesAfterIncrease | js/coreGameLogic.js:143-151 | only Classic gains a life, one at a time, and never goes above the initial three |
| CoreGameLogic.AfterRecord | js/coreGameLogic.js:117-130 | the streak bookkeeping keeps lives in 0..3 and the streak in 0..2 |
| CoreGameLogic.AfterRound | js/eventListeners.js:75-111 | a whole submitted guess (record, then a life lost for a wrong Classic guess) keeps the same bounds |
| CoreGameLogic.CorrectRunEarnsLives | js/coreGameLogic.js:117-126 | k correct Classic guesses earn one life per three in a row, capped at 3, and leave k mod 3 in the streak |
| CoreGameLogic.WrongRunCostsLives | js/eventListeners.js:109-111 | n wrong Classic guesses leave max(lives - n, 0) lives and clear the streak |
| CoreGameLogic.TimeTrialStandingFixed | js/coreGameLogic.js:117-118 | no sequence of Time Trial guesses changes lives or streak |
| CoreGameLogic.TickStep | js/coreGameLogic.js:182-192 | one firing shows the decremented value, and reports time up and clears the interval when it reaches 0; a cleared interval does nothing |
| CoreGameLogic.CountdownRunsOut | js/coreGameLogic.js:167-193 | a countdown started at v shows v-1 … 0, reports time up exactly once at the v-th firing, and stops |
| CoreGameLogic.StoppedTimerSilent | js/coreGameLogic.js:195-201 | a stopped timer never reports anything again |
| CoreGameLogic.ChosenDuration | js/coreGameLogic.js:40-51 | a timed game's duration is one the mode offers: the requested one when offered, the mode's default for no request or any duration the mode does not offer |
| CoreGameLogic.Game.constructor | js/gameState.js:5-9 | the game object starts in the default mode with a zero score and no round |
| CoreGameLogic.Game.SetupNewRoundProblemData | js/coreGameLogic.js:20-32 | redraws both dots until the distance is not 0; the problem kept is the first non-zero pass, all earlier passes gave 0, and nothing else changes |
| CoreGameLogic.Game.InitializeCoreGameData | js/coreGameLogic.js:34-60 | a new game: the mode's lives, the chosen countdown for a timed mode, an empty history, round 1 with a drawn problem; the running timer is untouched |
| CoreGameLogic.Game.PrepareNextRoundData | js/coreGameLogic.js:62-66 | the round number goes up by one with a new problem; nothing else changes |
| CoreGameLogic.Game.RecordGuessResult | js/coreGameLogic.js:102-131 | appends the absolute error; the running mean stays the exact, non-negative mean of the history; a Weber mode adds the score; the streak moves as `AfterRecord` says |
| CoreGameLogic.Game.DecreaseLife | js/coreGameLogic.js:133-141 | lives become `LivesAfterDecrease`; nothing else changes |
| CoreGameLogic.Game.IncreaseLife | js/coreGameLogic.js:143-151 | lives become `LivesAfterIncrease`; nothing else changes |
| CoreGameLogic.Game.CheckGameOver | js/coreGameLogic.js:154-162 | a timed game is over exactly when its countdown is 0; any other game exactly when no lives are left |
| CoreGameLogic.Game.StartGameTimer | js/coreGameLogic.js:167-181 | the countdown runs exactly for a timed mode with a positive value, and then shows that value at once |
| CoreGameLogic.Game.StopGameTimer | js/coreGameLogic.js:195-201 | the interval is cleared; nothing else changes |
| CoreGameLogic.Game.Tick | js/coreGameLogic.js:182-192 | one firing moves the clock as `TickStep` says and keeps the game valid |
| GameStateMachine.View | js/gameState.js:12-102 | exactly one screen is shown; the guess field and Submit are enabled only in ACTIVE_GAME; Next is shown only with feedback; lives or timer are shown by mode; durations only on the Time Trial start screen |
| GameStateMachine.ClearFirst | js/graphics.js:40-46 | removing the first line leaves the others in order |
| GameStateMachine.StateMachine.constructor | js/gameState.js:10 | no state until the page sets one, and no line drawn |
| GameStateMachine.StateMachine.SetGameState | js/gameState.js:104-115 | a transition happens exactly when forced or when the state differs; it renders once and clears the line unless the new state is SHOWING_FEEDBACK; otherwise nothing changes |
| GameStateMachine.StateMachine.ClearDistanceLine | js/graphics.js:40-46 | removes the first line, if any; the state is unchanged |
| GameStateMachine.StateMachine.RenderDistanceLine | js/graphics.js:53-96 | adds one line with its correctness flag |
| EventListeners.StartDuration | js/eventListeners.js:158-169 | Start asks for a duration only in Time Trial: the checked radio's, or 15 when none is checked |
| EventListeners.RestartDuration | js/eventListeners.js:218-224 | Restart asks for the last Time Trial duration, or 15 |
| EventListeners.App.constructor | js/main.js:6-27 | page load: the default mode, game data for it, and the start screen |
| EventListeners.AfterTimeUp | js/eventListeners.js:26-34 | time up always leaves the page in GAME_OVER, and leaves it exactly as it was when it was already there |
| EventListeners.App.HandleTimeUp | js/eventListeners.js:26-34 | the timer stops and the page becomes `AfterTimeUp` of the old page: an already finished page is not rendered again, any other is rendered once in GAME_OVER with the line cleared; no other field changes |
| EventListeners.App.OnTimerTick | js/coreGameLogic.js:182-192 | a firing moves the clock; the page becomes `AfterTimeUp` of the old page exactly when the firing reports time up, and is untouched otherwise |
| EventListeners.App.JudgeGuess | js/eventListeners.js:75-111 | the error is recorded, the verdict and Weber points are the mode's, a wrong Classic guess costs a life, and the game becomes `AfterGuess` of the old game |
| EventListeners.App.HandleSubmitGuess | js/eventListeners.js:59-122 | `SubmitEffect`: blank or non-numeric input changes neither game nor page; a number (negative ones included) gives the game `AfterGuess` (error, mean, score, lives, streak), keeps the round, dots, clock and duration, stops the timer exactly when the game is over, and renders GAME_OVER (line cleared) or SHOWING_FEEDBACK with the new line |
| EventListeners.App.HandleEnterKey | js/eventListeners.js:195-201 | Enter submits exactly in ACTIVE_GAME, with the whole `SubmitEffect` of the Submit button, and otherwise does nothing |
| EventListeners.App.HandleModeSelectionChange | js/eventListeners.js:126-143 | the checked radio becomes the mode; on the start screen the page is rendered once more for it with the line cleared; nothing else changes |
| EventListeners.App.HandleStart | js/eventListeners.js:153-189 | only on the start screen: the game becomes `NewGame` in the selected mode (lives, countdown, empty history, zero score and streak, round 1 with a problem drawn from the given draws), the countdown runs exactly in a timed mode, and the page is rendered once in ACTIVE_GAME with no line |
| EventListeners.App.DisplayNewProblem | js/eventListeners.js:36-57 | the previous line is cleared and nothing else on the page changes (no render) |
| EventListeners.App.HandleNext | js/eventListeners.js:204-211 | only while feedback is shown: the round number goes up with a problem drawn from the given draws, nothing else in the game changes, and the page is rendered once in ACTIVE_GAME with no line |
| EventListeners.App.HandleRestart | js/eventListeners.js:214-238 | from any state: the game becomes `NewGame` in the same mode with the last duration (streak and score reset, problem drawn from the given draws), the countdown runs exactly in a timed mode; the page is rendered once in ACTIVE_GAME with no line, or left as it was when already in ACTIVE_GAME |
| LegacyPython.NewDot | game_logic.py:10-16 | a dot is built exactly when both coordinates are in [0, 1]; otherwise a range error |
| LegacyPython.GenerateDot | game_logic.py:21-27 | two uniform draws always give a valid dot |
| LegacyPython.GenerateTwoDots | game_logic.py:29-38 | keeps the first dot and redraws the second until they differ; all discarded draws equalled the first dot |
| LegacyPython.IsGuessCorrect | game_logic.py:56-70 | raises exactly for a negative distance or guess; a zero distance accepts only 0; otherwise the closed 15% band |
| LegacyPython.LivesAfterGuess | game_logic.py:117-124 | a correct guess gains a life below the maximum; a wrong one loses a life with no floor |
| LegacyPython.Game.constructor | game_logic.py:74-84 | the given lives, an empty history, and round 1 already drawn |
| LegacyPython.Game.StartNewRound | game_logic.py:86-90 | two distinct dots, their distance, and the next round number; nothing else changes |
| LegacyPython.Game.IsGameOver | game_logic.py:140-142 | over exactly when no life is left; in a valid game that means the recorded guesses hold at least as many wrong ones as the game started with lives |
| LegacyPython.WrongRunEndsGame | game_logic.py:117-142 | n wrong guesses in a row cost exactly n lives, so the game is over exactly when n reaches the starting lives |
| LegacyPython.GameOverNeedsWrongGuesses | game_logic.py:117-142 | over any run of guesses lives stay at most five and fall by at most the number of wrong guesses, so a game is over only after at least as many wrong guesses as it had lives |
| LegacyPython.Game.SubmitGuess | game_logic.py:93-126 | (False, 0.0) with nothing changed once over; raises with nothing changed without a round or for a negative guess; otherwise records the error, keeps the mean exact, moves lives and streak |
| LegacyPython.Game.NextRound | game_logic.py:144-147 | nothing changes once over; otherwise a new round: dots drawn from the given draws, distinct, their distance, round+1, and lives, history, mean and streak unchanged |
| LegacyScript.IsGuessCorrectJS | script.js:427-440 | false for any negative input; a zero distance accepts only 0; otherwise the closed band |
| LegacyScript.ScriptGame.constructor | script.js:35 | the empty game object, with no round |
| LegacyScript.ScriptGame.InitializeGameLogic | script.js:363-424 | `FreshGame`: three lives, maximum five, an empty history with mean 0, round 1 drawn from the given draws |
| LegacyScript.ScriptGame.StartNewRound | script.js:374-383 | a new first dot; the second is redrawn while the distance is 0; the kept distance is non-zero; the round number goes up |
| LegacyScript.ScriptGame.IsGameOver | script.js:412-414 | over exactly when no life is left; in a valid game that means the judged guesses hold at least as many wrong ones as initializeGameLogic gave lives |
| LegacyScript.LivesAfter | script.js:401-407 | a correct guess gains a life below five; a wrong one loses a life with no floor |
| LegacyScript.WrongRunEndsGame | script.js:401-414 | n wrong guesses in a row cost exactly n lives, so the game is over exactly when n reaches the starting lives |
| LegacyScript.GameOverNeedsWrongGuesses | script.js:401-414 | over any run of guesses lives stay at most five and fall by at most the number of wrong guesses, so a game is over only after at least as many wrong guesses as it had lives |
| LegacyScript.ScriptGame.SubmitGuess | script.js:385-410 | no round, or a negative guess (flagged), changes nothing; otherwise records the error, keeps the mean exact, moves lives by `LivesAfter`, and keeps the round and dots |
| LegacyScript.ScriptGame.NextRound | script.js:416-420 | nothing changes once the game is over; otherwise `NewRound`: dots drawn from the given draws at a non-zero distance, and only dots, distance and round number change |
| LegacyScript.ScriptPage.SetGameState | script.js:166-177 | asking for the current state changes nothing; otherwise the state changes, renders once, and the line is removed unless the new state is SHOWING_FEEDBACK |
| LegacyScript.ScriptPage.RemoveDistanceLine | script.js:67-74 | removes the line, if any; the state is unchanged |
| LegacyScript.ScriptPage.constructor | script.js:197-211 | a new game object with round 1 drawn, on the start screen |
| LegacyScript.ScriptPage.HandleStart | script.js:217-226 | only on the start screen: the page is rendered once in ACTIVE_GAME with no line, without touching the game |
| LegacyScript.ScriptPage.HandleSubmitGuess | script.js:228-297 | outside ACTIVE_GAME nothing happens; otherwise `SubmitEffect`: empty, NaN and negative input are rejected with game and page unchanged; any other guess records the error and the exact mean, moves lives by `LivesAfter`, keeps round and dots, and renders GAME_OVER exactly when no life is left, else SHOWING_FEEDBACK with the verdict's line |
| LegacyScript.ScriptPage.HandleEnterKey | script.js:304-318 | Enter has the whole `SubmitEffect` in ACTIVE_GAME, the whole `NextEffect` while feedback is shown, and does nothing otherwise |
| LegacyScript.ScriptPage.HandleNext | script.js:320-337 | only while feedback is shown: `NextEffect`, a new round on the game object (only dots, distance and round number change), ACTIVE_GAME rendered once with the line gone |
| LegacyScript.ScriptPage.HandleRestart | script.js:339-354 | only from GAME_OVER or SHOWING_FEEDBACK: the game becomes `FreshGame` (round 1 drawn from the given draws) and the page is rendered once in ACTIVE_GAME with no line |
| Comparison.AcceptanceRulesAgree | js/coreGameLogic.js:92-100 | for non-negative inputs, Classic, game_logic.py and script.js accept exactly the same guesses |
| Comparison.NegativeGuessHandling | game_logic.py:60-61 | a negative guess raises in Python, while the script.js rule and the Classic rule judge it incorrect |
| Comparison.LegacyLivesRulesAgree | script.js:401-407 | script.js's lives rule gives the same lives as game_logic.py's after any run of guesses |
| Comparison.ClassicNeverAheadOfLegacy | js/coreGameLogic.js:117-126 | given the same guesses from no more lives, a Classic game never has more lives than a legacy one, so it ends no later |
| Comparison.LivesPoliciesDiffer | game_logic.py:117-121 | three correct guesses from three lives leave Classic at 3 and the legacy games at 5 |

## Left out

- Everything the page draws beyond the distance line: dots, text, feedback messages,
  colours, animations, and focus handling. The Weber-mode feedback text is left out too.
  `View` keeps only what is shown and enabled.
- Floating point. Reals are exact, so the running mean can never drift from the mean of
  the history, and a zero distance comes only from identical dots.
- Parsing the guess field (`trim`, `parseFloat`, `isNaN`). The handlers receive the field
  already classified as blank, not a number, or a number. The two pages classify some text
  differently, and the model does not show it: script.js applies `isNaN` to the whole
  string, so it rejects "1.5abc", while js/eventListeners.js takes `parseFloat`'s prefix and
  accepts it as 1.5.
- Scheduling. `setInterval`, `requestAnimationFrame` and `setTimeout` become plain
  sequential calls: `OnTimerTick` is one firing of the interval, and the rendering
  deferred to the next frame happens at once.
- Geometry.CalculateDistance: it does not prove that two different dots are a positive
  distance apart. The solver cannot close the non-linear step from a non-zero difference
  to a positive square. The redraw loops therefore stop on the distance test the source
  itself uses, and `ProblemReady` records the positive distance that the loop's exit
  establishes.
- Termination of the random redraw loops. Each loop stops only if some draw succeeds. The
  model takes that draw sequence as a precondition (`RandomSource`, `TwoDotSource`,
  `RoundSource`) and does not reason about probabilities.
- The early returns of the handlers and of js/graphics.js when a DOM element is missing.
  The page is assumed complete.
- js/domUtils.js: the element lookups (`uiElements`), `updateTextContent` and
  `focusElement` are left out. The visibility and enabled state that `showElement`,
  `hideElement` and `setInputDisabled` set is abstracted as `GameStateMachine.View`.
- `MAX_POSSIBLE_DISTANCE`: it is only used in commented-out code.
- In game_logic.py, `get_game_state` (a read-only dictionary of fields) and the
  `__main__` demonstration block.
- In script.js, `renderDot` and `clearProblemElements`'s removal of dots. Only the
  distance line is tracked.
- LegacyScript.ScriptPage.HandleStart: `setupNewProblem` re-renders the dots and resets
  the guess field. Only its removal of the distance line is modelled.
- EventListeners.App.HandleSubmitGuess: it requires ACTIVE_GAME because the Submit button
  is disabled in every other state (`View`). Enter checks the state itself
  (`HandleEnterKey`).
- CoreGameLogic.Game.StartGameTimer: the `onTickCallback`/`onEndCallback` functions are
  not parameters. Their effect is reported as the returned `TimerEvent`s.
