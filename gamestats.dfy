/** The session statistics of the game (`stats` and `updateStats`,
    frontend/src/guessDate.js). */
module GameStats {

  datatype Stats = Stats(
    wins: nat, losses: nat, streak: nat, totalGuesses: nat, gamesPlayed: nat,
    guessesPerWin: seq<nat>)

  /** The statistics a session starts with. */
  const Initial := Stats(0, 0, 0, 0, 0, [])

  function Sum(s: seq<nat>): nat
  {
    if s == [] then 0 else Sum(s[..|s| - 1]) + s[|s| - 1]
  }

  /** The counter invariant when no round contributes more than `cap`
      guesses: every game is a win or a loss, one guess count per win, the
      streak never exceeds the wins, and the total is at least the winning
      counts plus one guess per loss. */
  ghost predicate StatsValid(s: Stats, cap: nat)
  {
    && s.wins + s.losses == s.gamesPlayed
    && |s.guessesPerWin| == s.wins
    && s.streak <= s.wins
    && (forall i :: 0 <= i < |s.guessesPerWin| ==> 1 <= s.guessesPerWin[i] <= cap)
    && Sum(s.guessesPerWin) + s.losses <= s.totalGuesses
  }

  /** `updateStats(isWin)` with `count` = `guesses.length + 1`: one more game
      and `count` more guesses; a win adds to wins and streak and records
      `count`, a loss adds to losses and ends the streak. */
  function Record(s: Stats, isWin: bool, count: nat): (r: Stats)
    ensures r.gamesPlayed == s.gamesPlayed + 1 && r.totalGuesses == s.totalGuesses + count
    ensures isWin ==> r.wins == s.wins + 1 && r.streak == s.streak + 1 && r.losses == s.losses
                      && r.guessesPerWin == s.guessesPerWin + [count]
    ensures !isWin ==> r.losses == s.losses + 1 && r.streak == 0 && r.wins == s.wins
                       && r.guessesPerWin == s.guessesPerWin
  {
    Stats(if isWin then s.wins + 1 else s.wins,
          if isWin then s.losses else s.losses + 1,
          if isWin then s.streak + 1 else 0,
          s.totalGuesses + count,
          s.gamesPlayed + 1,
          if isWin then s.guessesPerWin + [count] else s.guessesPerWin)
  }

  /** Recording a round of at most `cap` guesses keeps the counter invariant. */
  lemma {:induction false} RecordKeepsValid(s: Stats, isWin: bool, count: nat, cap: nat)
    requires StatsValid(s, cap) && 1 <= count <= cap
    ensures StatsValid(Record(s, isWin, count), cap)
  {
    var r := Record(s, isWin, count);
    if isWin {
      assert r.guessesPerWin[..|r.guessesPerWin| - 1] == s.guessesPerWin;
    }
  }

  /** The result of one completed round as `updateStats` sees it. */
  datatype Outcome = Outcome(isWin: bool, count: nat)

  /** The statistics after recording `history` from the start of the session. */
  function Replay(history: seq<Outcome>): Stats
  {
    if history == [] then Initial
    else
      var last := history[|history| - 1];
      Record(Replay(history[..|history| - 1]), last.isWin, last.count)
  }

  /** The number of wins at the end of `history` (the current streak). */
  function TrailingWins(history: seq<Outcome>): nat
  {
    if history == [] || !history[|history| - 1].isWin then 0
    else TrailingWins(history[..|history| - 1]) + 1
  }

  /** The guess counts of the won rounds, in order. */
  function WinCounts(history: seq<Outcome>): seq<nat>
  {
    if history == [] then []
    else
      var last := history[|history| - 1];
      WinCounts(history[..|history| - 1]) + (if last.isWin then [last.count] else [])
  }

  /** The guess counts of all recorded rounds, won or lost, added up. */
  function TotalCount(history: seq<Outcome>): nat
  {
    if history == [] then 0 else TotalCount(history[..|history| - 1]) + history[|history| - 1].count
  }

  /** What the statistics of a session mean: one game per recorded round,
      the total adds up every round's count (lost rounds included), the
      streak is the run of wins at the end, `guessesPerWin` lists the
      winning rounds' counts in order, and the counter invariant holds. */
  lemma {:induction false} ReplayMeaning(history: seq<Outcome>, cap: nat)
    requires forall i :: 0 <= i < |history| ==> 1 <= history[i].count <= cap
    ensures var s := Replay(history);
      && s.gamesPlayed == |history|
      && s.totalGuesses == TotalCount(history)
      && s.streak == TrailingWins(history)
      && s.guessesPerWin == WinCounts(history)
      && StatsValid(s, cap)
  {
    if history != [] {
      var prefix := history[..|history| - 1];
      assert forall i :: 0 <= i < |prefix| ==> prefix[i] == history[i];
      ReplayMeaning(prefix, cap);
      var last := history[|history| - 1];
      RecordKeepsValid(Replay(prefix), last.isWin, last.count, cap);
    }
  }
}
