/** The state of the `GuessDate` component (frontend/src/guessDate.js) and
    the handlers that change it: loading a new box score, switching
    difficulty mode, submitting a guess, and recording a finished round. */
module GuessDate {
  import opened Wrappers
  import opened JsText
  import opened BoxScore
  import opened Feedback
  import opened GameStats

  /** The number of guesses a round allows. */
  const MaxGuesses: nat := 5

  /** The largest count a recorded round can carry: a submission after the
      fifth guess records a loss with `guesses.length + 1` = 6. */
  const MaxRecorded: nat := MaxGuesses + 1

  datatype Mode = Beginner | Intermediate | Expert

  /** Whether a submission ends the round, and how. */
  datatype Verdict = Pending | Won | Lost

  /** What `handleGuessSubmit` does given the guesses before it and whether
      the new guess equals the target date. */
  datatype Judgement = Judgement(appends: bool, verdict: Verdict)

  /** The decision of `handleGuessSubmit`: with 5 guesses already made the
      guess is dropped and a loss recorded; otherwise it is stored, and it wins
      if it matches, loses if it is the fifth, and else leaves the round open. */
  function Judge(prior: nat, isMatch: bool): (j: Judgement)
    ensures j.appends <==> prior < MaxGuesses
    ensures j.verdict == Won <==> prior < MaxGuesses && isMatch
    ensures j.verdict == Lost <==> prior >= MaxGuesses || (prior == MaxGuesses - 1 && !isMatch)
  {
    if prior >= MaxGuesses then Judgement(false, Lost)
    else if isMatch then Judgement(true, Won)
    else if prior == MaxGuesses - 1 then Judgement(true, Lost)
    else Judgement(true, Pending)
  }

  class Game {
    var mode: Mode
    /** The box score text; None when no game is shown. */
    var gameData: Option<string>
    /** The target date `MM-DD-YYYY`; None for `null`. */
    var gameDate: Option<string>
    /** The stored guesses of the current round, oldest first. */
    var guesses: seq<string>
    var stats: Stats

    ghost predicate Valid()
      reads this
    {
      && |guesses| <= MaxGuesses
      && (forall g :: g in guesses ==> |Split(g, '-')| >= 3)
      && |ActualParts(gameDate)| >= 3
      && StatsValid(stats, MaxRecorded)
    }

    /** The component's initial state. */
    constructor ()
      ensures Valid()
      ensures mode == Beginner && gameData == None && gameDate == None
      ensures guesses == [] && stats == Initial
    {
      mode := Beginner;
      gameData := None;
      gameDate := None;
      guesses := [];
      stats := Initial;
    }

    /** The colours shown for the stored guesses. */
    function Rows(): (rows: seq<Row>)
      reads this
      requires Valid()
      ensures |rows| == |guesses|
      ensures forall i :: 0 <= i < |rows| && gameDate == Some(guesses[i]) ==> rows[i] == AllCorrect
    {
      var gs, target := guesses, gameDate;
      seq(|gs|, i requires 0 <= i < |gs| && |Split(gs[i], '-')| >= 3 && |ActualParts(target)| >= 3 =>
        RowFeedback(gs[i], target))
    }

    /** The box score as shown, with its date cut off; None when none is
        shown.  The page tests `gameData` for truthiness, so an empty box
        score shows nothing, like no box score at all. */
    function Shown(): (r: Option<string>)
      reads this
      ensures r.Some? <==> gameData.Some? && gameData.value != []
      ensures r.Some? ==> var lines := Split(gameData.value, '\n');
        |lines| >= 3 ==> Split(r.value, '\n') == lines[..|lines| - 3] + [Mask]
    {
      match gameData
      case None => None
      case Some(box) => if box == [] then None else Some(Redact(box))
    }

    /** `updateStats(isWin)`: records the round with the guess count the
        handler sees, `guesses.length + 1`. */
    method UpdateStats(isWin: bool)
      requires Valid()
      requires |guesses| < MaxRecorded
      modifies this`stats
      ensures Valid()
      ensures stats == Record(old(stats), isWin, |guesses| + 1)
    {
      RecordKeepsValid(stats, isWin, |guesses| + 1, MaxRecorded);
      stats := Record(stats, isWin, |guesses| + 1);
    }

    /** `handleGuessSubmit` for the typed fields.  The form does not submit an
        empty field (its inputs are `required`).  The stored guess
        is `GuessText(month, day, year)`; `Judge` decides what happens. */
    method Submit(month: string, day: string, year: string)
      requires Valid()
      requires month != [] && day != [] && year != []
      modifies this`guesses, this`stats
      ensures Valid()
      // with five guesses made: nothing is stored, one more loss is recorded
      ensures |old(guesses)| >= MaxGuesses ==>
        && guesses == old(guesses)
        && stats == Record(old(stats), false, |old(guesses)| + 1)
      // otherwise the guess is stored after the earlier ones
      ensures |old(guesses)| < MaxGuesses ==> guesses == old(guesses) + [GuessText(month, day, year)]
      // a match is a win, whatever came before it
      ensures |old(guesses)| < MaxGuesses && old(gameDate) == Some(GuessText(month, day, year)) ==>
        stats == Record(old(stats), true, |old(guesses)| + 1)
      // a fifth guess that does not match is a loss (of 4 + 1 guesses)
      ensures |old(guesses)| == MaxGuesses - 1 && old(gameDate) != Some(GuessText(month, day, year)) ==>
        stats == Record(old(stats), false, |old(guesses)| + 1)
      // guesses one to four that do not match leave the statistics alone
      ensures |old(guesses)| < MaxGuesses - 1 && old(gameDate) != Some(GuessText(month, day, year)) ==>
        stats == old(stats)
    {
      var newGuess := GuessText(month, day, year);
      var j := Judge(|guesses|, gameDate == Some(newGuess));
      // updateStats reads the guess list of the render that handled the
      // event, from before the append takes effect: record first.
      if j.verdict != Pending {
        UpdateStats(j.verdict == Won);
      }
      if j.appends {
        ghost var before := guesses;
        guesses := guesses + [newGuess];
        assert forall g :: g in guesses ==> g in before || g == newGuess;
      }
    }

    /** The success path of `fetchRandomGame`: shows the new box score, takes
        the date from its third-from-last line (`parseDate` stands for the
        `Date` built from that line) and starts a round with no guesses. */
    method NewRound(boxScore: string, parseDate: string -> CalendarDate)
      requires Valid()
      modifies this`gameData, this`gameDate, this`guesses
      ensures Valid()
      ensures gameData == Some(boxScore)
      ensures gameDate == TargetDate(boxScore, parseDate)
      ensures guesses == []
      ensures stats == old(stats) && mode == old(mode)
    {
      gameData := Some(boxScore);
      gameDate := TargetDate(boxScore, parseDate);
      guesses := [];
    }

    /** `handleModeChange`: selects the mode and drops the shown game and the
        round without recording it. */
    method ChangeMode(m: Mode)
      requires Valid()
      modifies this`mode, this`gameData, this`gameDate, this`guesses
      ensures Valid()
      ensures mode == m && gameData == None && gameDate == None && guesses == []
      ensures stats == old(stats)
    {
      mode := m;
      gameData := None;
      gameDate := None;
      guesses := [];
    }
  }
}
