/** The box score the backend sends: the date the player must guess is read
    from it (frontend/src/guessDate.js, fetchRandomGame) and the text shown
    to the player has that date cut off (the `<pre>` of the render). */
module BoxScore {
  import opened Wrappers
  import opened JsText

  /** The line that replaces the cut-off tail of the box score. */
  const Mask: string := "**********"

  /** What the `Date` object built from the date line reports:
      `getMonth() + 1`, `getDate()` and `getFullYear()`. */
  datatype CalendarDate = CalendarDate(month: int, day: int, year: int)

  /** The date line: the last element of `lines.slice(0, -2)`, i.e. line
      n - 3 of n, when it exists and is not empty (`if (date)`). */
  function DateLine(box: string): (r: Option<string>)
    ensures r.Some? ==> r.value != [] && '\n' !in r.value
    ensures r.Some? ==> |Split(box, '\n')| >= 3
  {
    var lines := Split(box, '\n');
    if |lines| >= 3 && lines[|lines| - 3] != [] then Some(lines[|lines| - 3]) else None
  }

  /** For a box score put together from lines, the date is the third line
      from the end, and there is none with fewer than three lines or an
      empty one there. */
  lemma {:induction false} DateLineOfLines(lines: seq<string>)
    requires |lines| >= 1
    requires forall i :: 0 <= i < |lines| ==> '\n' !in lines[i]
    ensures |lines| < 3 ==> DateLine(Join(lines, '\n')) == None
    ensures |lines| >= 3 ==>
      DateLine(Join(lines, '\n')) == if lines[|lines| - 3] == [] then None else Some(lines[|lines| - 3])
  {
    SplitJoin(lines, '\n');
    assert DateLine(Join(lines, '\n')) ==
      if |lines| >= 3 && lines[|lines| - 3] != [] then Some(lines[|lines| - 3]) else None;
  }

  /** The target date as the game stores it: `MM-DD-YYYY`, month and day
      left-padded with '0' to two characters, the year as `toString` gives it. */
  function FormatDate(date: CalendarDate): (r: string)
    ensures |Split(r, '-')| >= 3
  {
    var mm := PadStart(IntToString(date.month), 2, '0');
    var dd := PadStart(IntToString(date.day), 2, '0');
    var yyyy := IntToString(date.year);
    ThreeFields(mm, dd, yyyy);
    mm + ['-'] + dd + ['-'] + yyyy
  }

  lemma {:induction false} ThreeFields(a: string, b: string, c: string)
    ensures |Split(a + ['-'] + b + ['-'] + c, '-')| >= 3
  {
    var tail := b + ['-'] + c;
    SplitAroundSeparator(b, c, '-');
    SplitAroundSeparator(a, tail, '-');
    assert a + ['-'] + b + ['-'] + c == a + ['-'] + tail;
  }

  /** The stored target of a box score: the date line, read as a date by
      `parseDate` and formatted, or None (`null`) when there is no date line. */
  function TargetDate(box: string, parseDate: string -> CalendarDate): (r: Option<string>)
    ensures r.Some? <==> DateLine(box).Some?
    ensures r.Some? ==> |Split(r.value, '-')| >= 3
  {
    match DateLine(box)
    case None => None
    case Some(line) => Some(FormatDate(parseDate(line)))
  }

  /** A padded two-digit field still denotes its number. */
  lemma {:induction false} PaddedValue(n: nat)
    ensures IsDigits(PadStart(NatToString(n), 2, '0'))
    ensures ToNumber(PadStart(NatToString(n), 2, '0')) == Some(n)
    ensures n < 100 ==> |PadStart(NatToString(n), 2, '0')| == 2
  {
    var s := NatToString(n);
    if |s| < 2 {
      assert PadStart(s, 2, '0') == ['0'] + s;
      LeadingZero(s);
    }
  }

  /** Splitting the stored date on '-' (the render's `gameDate.split('-')`)
      gives back the three formatted fields, each denoting the number it was
      made from; for a real month and day both fields are two characters. */
  lemma {:induction false} FormatDateParts(date: CalendarDate)
    requires date.month >= 0 && date.day >= 0 && date.year >= 0
    ensures var parts := Split(FormatDate(date), '-');
      && parts == [PadStart(NatToString(date.month), 2, '0'),
                   PadStart(NatToString(date.day), 2, '0'),
                   NatToString(date.year)]
      && ToNumber(parts[0]) == Some(date.month)
      && ToNumber(parts[1]) == Some(date.day)
      && ToNumber(parts[2]) == Some(date.year)
      && (1 <= date.month <= 12 ==> |parts[0]| == 2)
      && (1 <= date.day <= 31 ==> |parts[1]| == 2)
  {
    var mm := PadStart(NatToString(date.month), 2, '0');
    var dd := PadStart(NatToString(date.day), 2, '0');
    var yyyy := NatToString(date.year);
    assert FormatDate(date) == mm + ['-'] + dd + ['-'] + yyyy;
    PaddedValue(date.month);
    PaddedValue(date.day);
    FormatDateSplit(mm, dd, yyyy);
  }

  lemma {:induction false} FormatDateSplit(mm: string, dd: string, yyyy: string)
    requires IsDigits(mm) && IsDigits(dd) && IsDigits(yyyy)
    ensures Split(mm + ['-'] + dd + ['-'] + yyyy, '-') == [mm, dd, yyyy]
  {
    DigitsHaveNoSeparator(mm);
    DigitsHaveNoSeparator(dd);
    DigitsHaveNoSeparator(yyyy);
    SplitNoSeparator(mm, '-');
    SplitNoSeparator(dd, '-');
    SplitNoSeparator(yyyy, '-');
    SplitAroundSeparator(dd, yyyy, '-');
    SplitAroundSeparator(mm, dd + ['-'] + yyyy, '-');
    assert mm + ['-'] + dd + ['-'] + yyyy == mm + ['-'] + (dd + ['-'] + yyyy);
  }

  /** The text shown to the player, `lines.slice(0, -3).concat(Mask).join('\n')`:
      as lines, every line before the date line followed by the mask, so n - 2
      lines for an n-line box score, and the mask alone for fewer than three. */
  function Redact(box: string): (r: string)
    ensures var lines := Split(box, '\n');
      && Split(r, '\n') == (if |lines| >= 3 then lines[..|lines| - 3] else []) + [Mask]
      && (|lines| >= 3 ==> |Split(r, '\n')| == |lines| - 2)
  {
    var lines := Split(box, '\n');
    var kept := if |lines| >= 3 then lines[..|lines| - 3] else [];
    var shown := kept + [Mask];
    assert forall i :: 0 <= i < |shown| ==> '\n' !in shown[i] by {
      assert forall i :: 0 <= i < |kept| ==> kept[i] == lines[i];
    }
    SplitJoin(shown, '\n');
    Join(shown, '\n')
  }
}
