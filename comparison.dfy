/** How the modular game (js/) and the two legacy versions (game_logic.py, script.js) relate:
    where their rules agree and where they part. */
module Comparison {
  import opened Wrappers
  import opened Config
  import CoreGameLogic
  import LegacyPython
  import LegacyScript

  /** For every non-negative actual distance and guess, Classic mode, game_logic.py and
      script.js accept exactly the same guesses (the same 15% band, and only an exact zero
      guess when the dots coincide). */
  lemma AcceptanceRulesAgree(actual: real, guess: real)
    requires 0.0 <= actual && 0.0 <= guess
    ensures LegacyPython.IsGuessCorrect(actual, guess, LegacyPython.CorrectEnoughPercentage).Success?
    ensures CoreGameLogic.IsGuessCorrect(Classic, actual, guess)
            == LegacyPython.IsGuessCorrect(actual, guess, LegacyPython.CorrectEnoughPercentage).value
            == LegacyScript.IsGuessCorrectJS(actual, guess, LegacyScript.ScriptCorrectEnoughPercentage)
  {
  }

  /** A negative guess at a positive distance: game_logic.py raises, while the script.js
      rule and the Classic rule both judge it incorrect. (script.js's page rejects such a
      guess before judging; the modular page accepts it, records the error, and in Classic
      mode takes a life.) */
  lemma NegativeGuessHandling(actual: real, guess: real)
    requires 0.0 < actual && guess < 0.0
    ensures LegacyPython.IsGuessCorrect(actual, guess, LegacyPython.CorrectEnoughPercentage)
            == Failure(LegacyPython.NegativeDistance)
    ensures !LegacyScript.IsGuessCorrectJS(actual, guess, LegacyScript.ScriptCorrectEnoughPercentage)
    ensures !CoreGameLogic.IsGuessCorrect(Classic, actual, guess)
  {
  }

  /** script.js copies the lives rule of game_logic.py: the same count after any run. */
  lemma {:induction false} LegacyLivesRulesAgree(lives: int, outcomes: seq<bool>)
    ensures LegacyScript.LivesAfterGuesses(lives, outcomes) == LegacyPython.LivesAfterGuesses(lives, outcomes)
    decreases |outcomes|
  {
    if outcomes != [] {
      LegacyLivesRulesAgree(LegacyScript.LivesAfter(lives, outcomes[0]), outcomes[1..]);
    }
  }

  /** The legacy game still has a life before each of the guesses. */
  predicate LegacyInPlay(lives: int, outcomes: seq<bool>)
    decreases |outcomes|
  {
    outcomes == [] ||
    (1 <= lives && LegacyInPlay(LegacyPython.LivesAfterGuess(lives, LegacyPython.MaxLives, outcomes[0]), outcomes[1..]))
  }

  /** Playing the same guesses from no more lives, a Classic game never has more lives than
      a legacy one: a legacy life is won on every correct guess (up to five), a Classic one
      only every third in a row (up to three), and both lose one per wrong guess. So the
      Classic game is over no later than the legacy game. */
  lemma {:induction false} ClassicNeverAheadOfLegacy(s: CoreGameLogic.Standing, lives: int, outcomes: seq<bool>)
    requires CoreGameLogic.ValidStanding(s) && s.lives <= lives <= LegacyPython.MaxLives
    requires LegacyInPlay(lives, outcomes)
    ensures CoreGameLogic.AfterRounds(Classic, s, outcomes).lives <= LegacyPython.LivesAfterGuesses(lives, outcomes)
    decreases |outcomes|
  {
    if outcomes != [] {
      var next := CoreGameLogic.AfterRound(Classic, s, outcomes[0]);
      var nextLives := LegacyPython.LivesAfterGuess(lives, LegacyPython.MaxLives, outcomes[0]);
      assert next.lives <= nextLives;
      ClassicNeverAheadOfLegacy(next, nextLives, outcomes[1..]);
    }
  }

  /** The policies part on the first correct guesses: three in a row from three lives leave
      a Classic game at three and a legacy game at five. */
  lemma LivesPoliciesDiffer()
    ensures CoreGameLogic.AfterRounds(Classic, CoreGameLogic.Standing(3, 0), [true, true, true]).lives == 3
    ensures LegacyPython.LivesAfterGuesses(3, [true, true, true]) == 5
  {
  }
}
