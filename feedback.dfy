/** The colour each guessed field gets (`getFeedback`, frontend/src/guessDate.js)
    and the row of three colours the render shows for one stored guess. */
module Feedback {
  import opened Wrappers
  import opened JsText
  import opened BoxScore

  datatype Level = Correct | VeryClose | Close | Incorrect

  /** `Math.abs(guessPart - actualPart)` on two strings; None stands for NaN,
      which fails every comparison the feedback makes. */
  function Distance(guessPart: string, actualPart: string): (r: Option<nat>)
    ensures r.Some? <==> ToNumber(guessPart).Some? && ToNumber(actualPart).Some?
  {
    var g := ToNumber(guessPart);
    var a := ToNumber(actualPart);
    if g.Some? && a.Some? then Some(if g.value >= a.value then g.value - a.value else a.value - g.value)
    else None
  }

  /** `getFeedback(guessPart, actualPart, isDay)`: identical strings are
      correct; otherwise a day within 2 is very close and within 7 close, and
      any field exactly 1 away is close. */
  function FieldFeedback(guessPart: string, actualPart: string, isDay: bool): (r: Level)
    ensures r == Correct <==> guessPart == actualPart
    ensures r == VeryClose ==> isDay
    ensures r != Correct && r != Incorrect ==> Distance(guessPart, actualPart).Some?
  {
    var diff := Distance(guessPart, actualPart);
    if guessPart == actualPart then Correct
    else if isDay && diff.Some? && diff.value <= 2 then VeryClose
    else if isDay && diff.Some? && diff.value <= 7 then Close
    else if diff == Some(1) then Close
    else Incorrect
  }

  /** The day scale on its own: within 2 very close, within 7 close. */
  function DayScale(diff: Option<nat>): Level
  {
    match diff
    case Some(d) => if d <= 2 then VeryClose else if d <= 7 then Close else Incorrect
    case None => Incorrect
  }

  /** The month and year scale on its own: exactly 1 away is close. */
  function MonthYearScale(diff: Option<nat>): Level
  {
    if diff == Some(1) then Close else Incorrect
  }

  /** A wrong day is graded by the day scale alone: the final `=== 1` test of
      `getFeedback` never changes a day's colour. */
  lemma {:induction false} DayFeedback(guessPart: string, actualPart: string)
    requires guessPart != actualPart
    ensures FieldFeedback(guessPart, actualPart, true) == DayScale(Distance(guessPart, actualPart))
  {
  }

  /** A wrong month or year is close exactly when it is 1 away. */
  lemma {:induction false} MonthYearFeedback(guessPart: string, actualPart: string)
    requires guessPart != actualPart
    ensures FieldFeedback(guessPart, actualPart, false) == MonthYearScale(Distance(guessPart, actualPart))
  {
  }

  /** A field holding a character that is neither a digit, a sign nor white
      space is NaN, and unless it is the very same text it shows incorrect,
      as a day, a month or a year. */
  lemma {:induction false} NonNumericIsIncorrect(guessPart: string, actualPart: string, isDay: bool, i: int)
    requires guessPart != actualPart
    requires 0 <= i < |guessPart|
    requires !IsDigit(guessPart[i]) && guessPart[i] != '+' && guessPart[i] != '-' && !IsJsSpace(guessPart[i])
    ensures Distance(guessPart, actualPart) == None
    ensures FieldFeedback(guessPart, actualPart, isDay) == Incorrect
  {
    StrayCharIsNaN(guessPart, i);
  }

  /** Typing `4` against a stored `04` is never correct: the strings differ
      while the numbers agree, so the day shows very close and the month or
      year incorrect. */
  lemma {:induction false} PaddingOnlyDifference(digit: string)
    requires |digit| == 1 && IsDigits(digit)
    ensures Distance(digit, ['0'] + digit) == Some(0)
    ensures FieldFeedback(digit, ['0'] + digit, true) == VeryClose
    ensures FieldFeedback(digit, ['0'] + digit, false) == Incorrect
  {
    LeadingZero(digit);
  }

  /** The colours of one guess row. */
  datatype Row = Row(month: Level, day: Level, year: Level)

  const AllCorrect := Row(Correct, Correct, Correct)

  /** The stored guess `${month}-${day}-${year}`. */
  function GuessText(month: string, day: string, year: string): (r: string)
    ensures |Split(r, '-')| >= 3
  {
    ThreeFields(month, day, year);
    month + ['-'] + day + ['-'] + year
  }

  /** The fields of a guess typed without '-' come back out of the stored text. */
  lemma {:induction false} GuessTextParts(month: string, day: string, year: string)
    requires '-' !in month && '-' !in day && '-' !in year
    ensures Split(GuessText(month, day, year), '-') == [month, day, year]
  {
    SplitNoSeparator(month, '-');
    SplitNoSeparator(day, '-');
    SplitNoSeparator(year, '-');
    SplitAroundSeparator(day, year, '-');
    SplitAroundSeparator(month, day + ['-'] + year, '-');
    assert GuessText(month, day, year) == month + ['-'] + (day + ['-'] + year);
  }

  /** `gameDate ? gameDate.split('-') : ['', '', '']`. */
  function ActualParts(gameDate: Option<string>): (parts: seq<string>)
    ensures |parts| >= 1
    ensures gameDate == None ==> parts == [[], [], []]
  {
    match gameDate
    case None => [[], [], []]
    case Some(date) => Split(date, '-')
  }

  /** The row the render shows for a stored guess: the first three pieces of
      the guess, each graded against the same piece of the target date. */
  function RowFeedback(guess: string, gameDate: Option<string>): (r: Row)
    requires |Split(guess, '-')| >= 3 && |ActualParts(gameDate)| >= 3
    ensures gameDate == Some(guess) ==> r == AllCorrect
  {
    var g := Split(guess, '-');
    var a := ActualParts(gameDate);
    Row(FieldFeedback(g[0], a[0], false), FieldFeedback(g[1], a[1], true), FieldFeedback(g[2], a[2], false))
  }

  /** Against a formatted target, a guess's row grades each typed field
      against the padded month, the padded day and the year. */
  lemma {:induction false} RowOfGuess(month: string, day: string, year: string, date: CalendarDate)
    requires '-' !in month && '-' !in day && '-' !in year
    requires date.month >= 0 && date.day >= 0 && date.year >= 0
    ensures RowFeedback(GuessText(month, day, year), Some(FormatDate(date))) ==
      Row(FieldFeedback(month, PadStart(NatToString(date.month), 2, '0'), false),
          FieldFeedback(day, PadStart(NatToString(date.day), 2, '0'), true),
          FieldFeedback(year, NatToString(date.year), false))
  {
    GuessTextParts(month, day, year);
    FormatDateParts(date);
  }

  /** For fields typed without '-', the row is all correct exactly when the
      guess is the winning one (`newGuess === gameDate`). */
  lemma {:induction false} AllCorrectIffMatch(month: string, day: string, year: string, date: CalendarDate)
    requires '-' !in month && '-' !in day && '-' !in year
    requires date.month >= 0 && date.day >= 0 && date.year >= 0
    ensures RowFeedback(GuessText(month, day, year), Some(FormatDate(date))) == AllCorrect
        <==> GuessText(month, day, year) == FormatDate(date)
  {
    RowOfGuess(month, day, year, date);
    assert FormatDate(date) == GuessText(PadStart(NatToString(date.month), 2, '0'),
                                         PadStart(NatToString(date.day), 2, '0'),
                                         NatToString(date.year));
  }

  /** A numeral graded against a blank field, which coerces to 0. */
  lemma {:induction false} AgainstBlank(guessPart: string)
    requires IsDigits(guessPart) && guessPart != []
    ensures FieldFeedback(guessPart, [], true) == DayScale(Some(DigitsValue(guessPart)))
    ensures FieldFeedback(guessPart, [], false) == MonthYearScale(Some(DigitsValue(guessPart)))
  {
    DistanceToBlank(guessPart);
    DayFeedback(guessPart, []);
    MonthYearFeedback(guessPart, []);
  }

  lemma {:induction false} DistanceToBlank(guessPart: string)
    requires IsDigits(guessPart) && guessPart != []
    ensures Distance(guessPart, []).Some? && Distance(guessPart, []).value == DigitsValue(guessPart)
  {
    var blank: string := [];
    assert forall i :: 0 <= i < |blank| ==> IsJsSpace(blank[i]);
    assert ToNumber(blank) == Some(0);
    assert ToNumber(guessPart) == Some(DigitsValue(guessPart));
    DistanceOfNumbers(guessPart, blank, DigitsValue(guessPart), 0);
  }

  /** Two fields that coerce to numbers are as far apart as the numbers. */
  lemma {:induction false} DistanceOfNumbers(guessPart: string, actualPart: string, g: int, a: int)
    requires ToNumber(guessPart) == Some(g) && ToNumber(actualPart) == Some(a)
    ensures Distance(guessPart, actualPart).Some?
    ensures Distance(guessPart, actualPart).value == if g >= a then g - a else a - g
  {
  }

  /** With no target date (an empty date line) every target field is blank:
      a numeral's colour then depends on its value alone. */
  lemma {:induction false} RowWithoutDate(month: string, day: string, year: string)
    requires IsDigits(month) && IsDigits(day) && IsDigits(year)
    requires month != [] && day != [] && year != []
    ensures RowFeedback(GuessText(month, day, year), None) ==
      Row(MonthYearScale(Some(DigitsValue(month))), DayScale(Some(DigitsValue(day))),
          MonthYearScale(Some(DigitsValue(year))))
  {
    DigitsHaveNoSeparator(month);
    DigitsHaveNoSeparator(day);
    DigitsHaveNoSeparator(year);
    GuessTextParts(month, day, year);
    AgainstBlank(month);
    AgainstBlank(day);
    AgainstBlank(year);
  }
}
