/** js/gameState.js: the current game state, the transition function setGameState, and
    the visibility of the page's controls that updateUIForState derives from the state and
    the selected mode. The distance lines on the plane (js/graphics.js), which
    setGameState clears, are kept here as the list of lines drawn, each with the
    correctness flag it was drawn with. */
module GameStateMachine {
  import opened Wrappers
  import opened Config

  /** Which parts of the page updateUIForState shows, and which inputs it enables. */
  datatype UiView = UiView(
    startScreen: bool,
    gameActiveArea: bool,
    gameOverScreen: bool,
    livesDisplay: bool,
    timerDisplay: bool,
    scoreDisplay: bool,
    durationSelection: bool,
    guessInputShown: bool,
    guessInputEnabled: bool,
    submitShown: bool,
    submitEnabled: bool,
    nextShown: bool,
    feedbackShown: bool)

  /** Everything hidden and disabled except the score, as updateUIForState starts. */
  const HiddenView: UiView :=
    UiView(false, false, false, false, false, true, false, false, false, false, false, false, false)

  predicate InRound(state: Option<GameState>)
  {
    state == Some(ActiveGame) || state == Some(ShowingFeedback)
  }

  /** updateUIForState, reduced to visibility and enabledness. An unknown (undefined)
      state leaves everything hidden. */
  function View(state: Option<GameState>, mode: GameMode): (v: UiView)
    ensures state.Some? ==>
              (if v.startScreen then 1 else 0) + (if v.gameActiveArea then 1 else 0)
              + (if v.gameOverScreen then 1 else 0) == 1
    ensures v.startScreen <==> state == Some(StartScreen)
    ensures v.gameOverScreen <==> state == Some(GameOver)
    ensures v.gameActiveArea <==> InRound(state)
    ensures v.guessInputEnabled <==> state == Some(ActiveGame)
    ensures v.submitEnabled <==> state == Some(ActiveGame)
    ensures v.submitShown <==> state == Some(ActiveGame)
    ensures v.nextShown <==> state == Some(ShowingFeedback)
    ensures v.guessInputShown <==> InRound(state)
    ensures v.timerDisplay <==> InRound(state) && Settings(mode).hasTimer
    ensures v.livesDisplay <==> InRound(state) && !Settings(mode).hasTimer
    ensures v.durationSelection <==> state == Some(StartScreen) && mode == TimeTrial
    ensures v.scoreDisplay
  {
    var base := HiddenView;
    match state
    case None => base
    case Some(StartScreen) =>
      base.(startScreen := true, durationSelection := mode == TimeTrial)
    case Some(GameOver) =>
      base.(gameOverScreen := true)
    case Some(s) =>
      var hasTimer := Settings(mode).hasTimer;
      var inGame := base.(gameActiveArea := true, timerDisplay := hasTimer, livesDisplay := !hasTimer,
                          feedbackShown := true, guessInputShown := true);
      if s == ActiveGame then inGame.(guessInputEnabled := true, submitShown := true, submitEnabled := true)
      else inGame.(nextShown := true)
  }

  /** clearDistanceLine removes the first distance line on the plane, if there is one. */
  function ClearFirst(lines: seq<bool>): (r: seq<bool>)
    ensures |r| == if lines == [] then 0 else |lines| - 1
    ensures forall i :: 0 <= i < |r| ==> r[i] == lines[i + 1]
  {
    if lines == [] then [] else lines[1..]
  }

  /** All fields of the state machine at one moment. */
  datatype PageRecord = PageRecord(
    currentGameState: Option<GameState>,
    renderedMode: GameMode,
    distanceLines: seq<bool>,
    renderCount: nat)

  class StateMachine {
    /** currentGameState; undefined until main.js sets the start screen. */
    var currentGameState: Option<GameState>
    /** The mode updateUIForState last rendered for. */
    var renderedMode: GameMode
    /** The distance lines on the plane, oldest first, each with its correctness flag. */
    var distanceLines: seq<bool>
    /** How many times updateUIForState has run. */
    var renderCount: nat

    /** getCurrentGameState */
    function GetCurrentGameState(): Option<GameState>
      reads this
    {
      currentGameState
    }

    function Record(): PageRecord
      reads this
    {
      PageRecord(currentGameState, renderedMode, distanceLines, renderCount)
    }

    constructor()
      ensures currentGameState.None? && distanceLines == [] && renderCount == 0
    {
      currentGameState := None;
      renderedMode := DefaultGameMode;
      distanceLines := [];
      renderCount := 0;
    }

    /** setGameState: without `force`, asking for the current state does nothing; otherwise
        the state changes, every state but SHOWING_FEEDBACK clears the distance line, and
        the page is rendered for the new state and the given mode. */
    method SetGameState(newState: GameState, force: bool, mode: GameMode) returns (transitioned: bool)
      modifies this
      ensures transitioned <==> force || old(currentGameState) != Some(newState)
      ensures transitioned ==> currentGameState == Some(newState) && renderedMode == mode
      ensures transitioned ==> renderCount == old(renderCount) + 1
      ensures transitioned ==>
                distanceLines == if newState != ShowingFeedback then ClearFirst(old(distanceLines))
                                 else old(distanceLines)
      ensures !transitioned ==> unchanged(this)
    {
      if !force && currentGameState == Some(newState) {
        return false;
      }
      currentGameState := Some(newState);
      if newState != ShowingFeedback {
        ClearDistanceLine();
      }
      renderedMode := mode;
      renderCount := renderCount + 1;
      return true;
    }

    /** clearDistanceLine (js/graphics.js) */
    method ClearDistanceLine()
      modifies this
      ensures distanceLines == ClearFirst(old(distanceLines))
      ensures currentGameState == old(currentGameState) && renderedMode == old(renderedMode)
      ensures renderCount == old(renderCount)
    {
      if distanceLines != [] {
        distanceLines := distanceLines[1..];
      }
    }

    /** renderDistanceLine (js/graphics.js): adds one more line; it does not remove any. */
    method RenderDistanceLine(isCorrectGuess: bool)
      modifies this
      ensures distanceLines == old(distanceLines) + [isCorrectGuess]
      ensures currentGameState == old(currentGameState) && renderedMode == old(renderedMode)
      ensures renderCount == old(renderCount)
    {
      distanceLines := distanceLines + [isCorrectGuess];
    }
  }
}
