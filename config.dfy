/** The constant table of js/config.js: game states, game modes and the settings of each mode. */
module Config {

  /** GAME_STATES */
  datatype GameState = StartScreen | ActiveGame | ShowingFeedback | GameOver

  /** GAME_MODES */
  datatype GameMode = Classic | TimeTrial

  const CoordinateSystemMax: real := 1.0
  const CorrectEnoughPercentage: real := 0.15
  const InitialLives: int := 3
  const MaxLives: int := 5
  const DotSpawnMargin: real := 0.05

  /** Number of consecutive correct Classic guesses that earns a bonus life. */
  const StreakForBonusLife: int := 3

  const DefaultGameMode: GameMode := Classic

  datatype ScoringParams = ScoringParams(a: real, b: real, usesWeberScoring: bool)

  /** One entry of GAME_MODE_SETTINGS. Classic has no duration fields; they read as
      an empty list and 0 here, the value `|| 0` gives them in the source. */
  datatype ModeSettings = ModeSettings(
    initialLives: int,
    hasTimer: bool,
    availableDurations: seq<int>,
    defaultDuration: int,
    scoringParams: ScoringParams)

  function Settings(mode: GameMode): ModeSettings
  {
    match mode
    case Classic => ModeSettings(InitialLives, false, [], 0, ScoringParams(0.015, 0.10, false))
    case TimeTrial => ModeSettings(0, true, [15, 30], 15, ScoringParams(0.015, 0.10, true))
  }

  predicate UsesWeber(mode: GameMode)
  {
    Settings(mode).scoringParams.usesWeberScoring
  }
}
