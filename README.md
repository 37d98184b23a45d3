# MLB Wordle: the date-guessing game

This Dafny project models the game logic of the `GuessDate` React component
(`frontend/src/guessDate.js`). The player is shown a baseball box score with
its date cut off. They have five tries to guess the date as `MM-DD-YYYY`.
Each try is graded field by field: correct, very close, close or incorrect.
Statistics are kept across rounds.

The project has these modules:

- `Wrappers`: the `Option` type. `None` stands for JavaScript's `null` or `NaN`.
- `JsText`: the JavaScript string operations the game relies on:
  - `split` and `join` on one separator character, and their round trips;
  - `Number#toString` and `padStart`;
  - the numeric coercion that `a - b` applies to two strings (`ToNumber`).
- `BoxScore`: how the date is taken and formatted from the box score, and
  the redacted text the page shows.
- `Feedback`: `getFeedback` (`FieldFeedback`) and the colours of one
  guess row (`RowFeedback`).
- `GameStats`: the statistics record and `updateStats` as a function
  (`Record`). Also the meaning of a whole session of recorded rounds
  (`Replay`, `ReplayMeaning`).
- `GuessDate`: the class `Game`. Its fields are the component state (`mode`,
  `gameData`, `gameDate`, `guesses`, `stats`). Its methods are the handlers
  that change that state:
  - `Submit` for `handleGuessSubmit`;
  - `UpdateStats` for `updateStats`;
  - `NewRound` for the success path of `fetchRandomGame`;
  - `ChangeMode` for `handleModeChange`.

  `Valid()` is the class invariant:
  - at most five stored guesses;
  - every stored guess and the target split into at least three pieces;
  - the statistics keep their counter invariant: wins plus losses equals
    games, there is one guess count per win, and each count is between 1 and 6.
- `Scenarios`: rounds played through the handlers, using only their
  contracts:
  - a win on the first guess, then the same guess submitted again;
  - five misses, then a sixth submission and a mode change.

Each property is proved for every input.

Where the source behaves unexpectedly, the model follows the code:

- A field is *correct* only when the typed text equals the stored text. So
  `4` against the stored `04` is not correct (`PaddingOnlyDifference`).
- Once five guesses are stored, every further submission stores nothing. It
  records one more loss, counted as six guesses (`Game.Submit`, first case).
- Nothing stops submissions after a win. The same correct guess wins again,
  counted with the longer guess list (`Scenarios.SubmitAgainAfterWin`).
- `updateStats` reads the guess list from before the new guess is added. The
  count it records is the number of guesses made with the current one
  included. The total adds up that count for lost rounds as well.
- The help text says "Very Close (within 3 days)", but the code tests
  `diff <= 2`. The model follows the code.

## Model

| member | source | states |
|---|---|---|
| JsText.Join | frontend/src/guessDate.js:224 | `join` starts with the first piece, followed by the separator when more pieces follow; its round trips with `split` are `JoinSplit` and `SplitJoin` |
| JsText.Split | frontend/src/guessDate.js:63 | `split` on one character always yields at least one piece, and no piece contains the separator |
| JsText.JoinSplit | frontend/src/guessDate.js:224 | joining the pieces of a split with the same separator gives back the original string |
| JsText.SplitJoin | frontend/src/guessDate.js:224 | splitting a join of pieces that hold no separator gives back exactly those pieces |
| JsText.NatToString | frontend/src/guessDate.js:66 | `toString` of a non-negative integer is a digit string with no leading zero that denotes the number; it has one digit exactly below 10 and two exactly from 10 to 99 |
| JsText.IntToString | frontend/src/guessDate.js:66 | `toString` of an integer: for n >= 0, digits denoting n with no leading zero; for n < 0, '-' followed by such digits denoting -n |
| JsText.PadStart | frontend/src/guessDate.js:66 | `padStart(width, fill)` keeps the string as its suffix, fills only in front, and has length max(width, original length) |
| JsText.Trim | frontend/src/guessDate.js:119 | the white space trimmed before coercion: the result is a piece of the string with no white space at either end, and everything cut off before and after it is white space; a string without white space at its ends is unchanged, and an all-white-space string becomes empty |
| JsText.TrimSurroundingSpace | frontend/src/guessDate.js:119 | white space added around a string does not change what it trims to |
| JsText.ToNumber | frontend/src/guessDate.js:119 | string-to-number coercion: a digit string denotes its value, a blank string is 0, and without a '-' the value is never negative |
| JsText.NumeralValue | frontend/src/guessDate.js:119 | the value of a trimmed field: blank is 0, a digit string is its value, and only a leading '-' gives a negative value |
| JsText.SpaceAroundIsIgnored | frontend/src/guessDate.js:119 | white space around any field leaves the number it coerces to unchanged |
| JsText.StrayCharIsNaN | frontend/src/guessDate.js:119 | a field holding any character that is not a digit, a sign or white space coerces to NaN |
| BoxScore.DateLine | frontend/src/guessDate.js:63-64 | the date line is present only for a box score of at least three lines; when present it is non-empty and a single line |
| BoxScore.DateLineOfLines | frontend/src/guessDate.js:63-64 | for a box score made of lines: with fewer than three lines there is no date; otherwise the date is line n-3, or none if that line is empty |
| BoxScore.FormatDate | frontend/src/guessDate.js:66 | the formatted date always splits on '-' into at least three pieces |
| BoxScore.FormatDateParts | frontend/src/guessDate.js:66-67 | splitting the formatted date on '-' (line 267) gives exactly the padded month, the padded day and the year. Each piece coerces back to its number, and for month 1-12 and day 1-31 each padded piece has two characters |
| BoxScore.TargetDate | frontend/src/guessDate.js:63-71 | the stored target is present exactly when there is a date line (else `null`), and then splits into at least three pieces |
| BoxScore.Redact | frontend/src/guessDate.js:224 | the shown text is lines 0 to n-4 of the box score followed by one mask line, so it has n-2 lines and never the date line; with fewer than three lines it is the mask alone |
| Feedback.Distance | frontend/src/guessDate.js:119 | the difference of two fields is a number exactly when both fields coerce to numbers |
| Feedback.FieldFeedback | frontend/src/guessDate.js:116-125 | correct exactly when the two strings are identical; very close only for a day; close or very close only when both fields are numeric |
| Feedback.DayFeedback | frontend/src/guessDate.js:118-124 | a wrong day is graded by distance alone: within 2 very close, within 7 close, otherwise (or NaN) incorrect. The `=== 1` test never changes a day |
| Feedback.MonthYearFeedback | frontend/src/guessDate.js:123-124 | a wrong month or year is close exactly when its distance is 1, and incorrect otherwise, NaN included |
| Feedback.DistanceOfNumbers | frontend/src/guessDate.js:119 | two fields that coerce to numbers are the absolute difference of those numbers apart |
| Feedback.NonNumericIsIncorrect | frontend/src/guessDate.js:116-124 | a field with a character that is not a digit, a sign or white space has NaN distance and shows incorrect, as day, month or year, unless it is the very same text |
| Feedback.PaddingOnlyDifference | frontend/src/guessDate.js:116-123 | a one-digit field against the same digit with a leading zero has distance 0; it is very close as a day and incorrect as a month or year |
| Feedback.GuessText | frontend/src/guessDate.js:97 | the stored guess always splits on '-' into at least three pieces, so the row can read month, day and year from it |
| Feedback.GuessTextParts | frontend/src/guessDate.js:97 | fields typed without '-' come back unchanged when the stored guess is split (line 266) |
| Feedback.ActualParts | frontend/src/guessDate.js:267 | with no target date the target pieces are three blank strings |
| Feedback.RowFeedback | frontend/src/guessDate.js:265-273 | a guess equal to the target shows all three fields correct |
| Feedback.RowOfGuess | frontend/src/guessDate.js:265-273 | against a formatted target, each typed field is graded against the padded month, the padded day or the year |
| Feedback.AllCorrectIffMatch | frontend/src/guessDate.js:100 | for fields without '-', the row is all correct exactly when the guess text equals the target, the winning test of line 100 |
| Feedback.AgainstBlank | frontend/src/guessDate.js:267 | a digit field against a blank target field is graded by its own value, the blank coercing to 0 |
| Feedback.RowWithoutDate | frontend/src/guessDate.js:267-272 | with a `null` target, the row of digit fields is graded by their values, day scale for the day and month/year scale for the others |
| GameStats.Record | frontend/src/guessDate.js:164-179 | one more game and `count` more guesses. A win adds one to wins and streak and appends `count` to the win counts; a loss adds one to losses, resets the streak and keeps the win counts |
| GameStats.RecordKeepsValid | frontend/src/guessDate.js:164-179 | recording a round of 1 to cap guesses keeps wins + losses = games, one count per win, streak at most wins, every count in 1..cap, and the total at least the win counts plus one per loss |
| GameStats.ReplayMeaning | frontend/src/guessDate.js:21-28 | the statistics after a session, starting from the initial zeros (lines 21-28), show one game per round and a total that adds up every round's count. The streak is the number of wins at the end, and the win counts list the winning rounds' counts in order |
| GuessDate.Judge | frontend/src/guessDate.js:92-106 | the guess is stored exactly when fewer than 5 precede it. It wins exactly when it is stored and matches. It loses exactly when 5 or more precede it, or it is the fifth and does not match |
| GuessDate.Game.constructor | frontend/src/guessDate.js:11-29 | the initial state: no game, no target, no guesses, zero statistics, Beginner mode |
| GuessDate.Game.Rows | frontend/src/guessDate.js:265-273 | one row per stored guess; a guess equal to the target shows all correct |
| GuessDate.Game.Shown | frontend/src/guessDate.js:221-224 | a box score is shown exactly when a non-empty one is loaded (line 221 tests `gameData` for truthiness), and then as the redacted lines |
| GuessDate.Game.UpdateStats | frontend/src/guessDate.js:164-179 | the statistics become `Record` of the old ones with the pre-append guess count + 1, and the class invariant holds |
| GuessDate.Game.Submit | frontend/src/guessDate.js:90-110 | with 5 guesses stored, nothing is stored and a loss of 6 is recorded. Otherwise the guess is appended after the earlier ones, and: a match records a win counted as the stored guesses + 1; a fifth miss records a loss of 5; misses 1-4 leave the statistics alone |
| GuessDate.Game.NewRound | frontend/src/guessDate.js:60-73 | the new box score is shown, the target comes from its date line (or is `null`), the guesses are cleared, and the statistics and mode are unchanged |
| GuessDate.Game.ChangeMode | frontend/src/guessDate.js:188-194 | the mode is set, the game, target and guesses are cleared, and the statistics are unchanged |

## Left out

- Network I/O (`fetch` of game ids and of a random game), the loading and
  error flags, and the failure path of `fetchRandomGame`. These are I/O.
  `NewRound` is the success path, with the box score as a parameter.
- `new Date(line)` is a parameter `parseDate: string -> CalendarDate`. Its
  result is the month, day and year of `getMonth() + 1`, `getDate()` and
  `getFullYear()`. An unparsable line gives `NaN` fields in JavaScript; that
  case is not modelled.
- `BoxScore.FormatDateParts`: stated for a non-negative month, day and year
  only. A negative year's '-' would make the split yield four pieces.
- `JsText.ToNumber` does not model every form of string-to-number coercion.
  Covered: surrounding white space (the ASCII spaces, NBSP, BOM and the
  line and paragraph separators), a blank string as 0, and a sign followed
  by decimal digits. Decimal points, exponents, hex, `Infinity` and the
  other Unicode space characters all give `None` (NaN) in the model. These
  strings cannot be a stored target, but a player could type them.
- `Feedback.Distance`: its own contract says only when the distance is a
  number. Its value, the absolute difference, is stated by
  `DistanceOfNumbers`.
- Floating point: the average shown in the statistics panel,
  `totalGuesses / wins` behind the `wins > 0` guard, is not modelled. Its
  total includes the guesses of lost rounds (`ReplayMeaning`).
- The message texts, scrolling, the info and statistics popups and their
  click-outside listeners, CSS classes and the other rendering.
- `maxLength` on the inputs is not modelled. A guess field can be any
  non-empty string, which is what `required` guarantees.
- `updateStats` pushes onto the shared `guessesPerWin` array in place.
  Without a double-invoking updater this matches a fresh list with the
  count appended, which is how `Record` is written. Aliasing is not modelled.
- Several events handled before React re-renders are not modelled. Each
  `Submit` sees the state the previous one left.
- The backend (`backend/mlb_stats.py`, `backend/setup_mongodb.py`,
  `backend/query_mongodb.py`, `backend/index.js`) is not part of this
  model. It is database access and server wiring. So is the player search
  in `frontend/src/App.js`.
