/** Rounds played through the `Game` handlers, showing what a caller can
    conclude from their contracts alone. */
module Scenarios {
  import opened Wrappers
  import opened JsText
  import opened BoxScore
  import opened Feedback
  import opened GameStats
  import opened GuessDate

  /** Fields the form lets through: none empty. */
  predicate Typable(month: string, day: string, year: string)
  {
    month != [] && day != [] && year != []
  }

  /** The counters of `stats`, the win counts aside. */
  predicate Counters(s: Stats, wins: nat, losses: nat, streak: nat, totalGuesses: nat, gamesPlayed: nat)
  {
    s.wins == wins && s.losses == losses && s.streak == streak
    && s.totalGuesses == totalGuesses && s.gamesPlayed == gamesPlayed
  }

  /** Typing the target's own fields on the first try wins a round of one
      guess. */
  method WinOnFirstGuess(box: string, parseDate: string -> CalendarDate)
    requires DateLine(box).Some?
  {
    var game := new Game();
    game.NewRound(box, parseDate);
    var date := parseDate(DateLine(box).value);
    var m := PadStart(IntToString(date.month), 2, '0');
    var d := PadStart(IntToString(date.day), 2, '0');
    var y := IntToString(date.year);
    assert game.gameDate == Some(FormatDate(date));
    assert FormatDate(date) == GuessText(m, d, y);
    game.Submit(m, d, y);
    assert Counters(game.stats, 1, 0, 1, 1, 1) && game.stats.guessesPerWin == [1];
    assert game.guesses == [GuessText(m, d, y)];
  }

  /** After that win the stored guess shows all green; submitting the same
      fields again is accepted and counted as another win, of two guesses. */
  method SubmitAgainAfterWin(game: Game, m: string, d: string, y: string)
    requires game.Valid() && Typable(m, d, y)
    requires game.gameDate == Some(GuessText(m, d, y)) && game.guesses == [GuessText(m, d, y)]
    requires Counters(game.stats, 1, 0, 1, 1, 1) && game.stats.guessesPerWin == [1]
    modifies game
  {
    assert game.Rows()[0] == AllCorrect;
    game.Submit(m, d, y);
    assert Counters(game.stats, 2, 0, 2, 3, 2) && game.stats.guessesPerWin == [1, 2];
    assert |game.guesses| == 2;
  }

  /** Five misses lose the round, a loss of five guesses. */
  method LoseRound(box: string, parseDate: string -> CalendarDate, m: string, d: string, y: string)
    requires Typable(m, d, y)
    requires Some(GuessText(m, d, y)) != TargetDate(box, parseDate)
  {
    var game := new Game();
    game.NewRound(box, parseDate);
    game.Submit(m, d, y);
    game.Submit(m, d, y);
    game.Submit(m, d, y);
    game.Submit(m, d, y);
    assert game.stats == Initial && |game.guesses| == 4;
    game.Submit(m, d, y);
    assert Counters(game.stats, 0, 1, 0, 5, 1) && |game.guesses| == 5;
  }

  /** After that loss, a sixth submission stores nothing and records a second
      loss, of six guesses; changing mode then records nothing. */
  method SubmitAgainAfterLoss(game: Game, m: string, d: string, y: string)
    requires game.Valid() && Typable(m, d, y) && |game.guesses| == 5
    requires Counters(game.stats, 0, 1, 0, 5, 1) && game.stats.guessesPerWin == []
    modifies game
  {
    ghost var before := game.guesses;
    game.Submit(m, d, y);
    assert Counters(game.stats, 0, 2, 0, 11, 2) && game.guesses == before;
    assert game.stats.guessesPerWin == [];
    game.ChangeMode(Expert);
    assert game.guesses == [] && game.gameDate == None && game.stats.gamesPlayed == 2;
  }
}
