/** The JavaScript string and number primitives the game is built from:
    `String.prototype.split` and `Array.prototype.join` on one separator
    character, `Number.prototype.toString` on integers, `padStart`, and the
    coercion of a string to a number that `a - b` performs on two strings. */
module JsText {
  import opened Wrappers

  // ---------------------------------------------------------------------
  // split / join
  // ---------------------------------------------------------------------

  /** `parts.join(sep)`: the parts with one separator between neighbours.
      The text starts with the first part, followed by the separator when
      more parts follow. */
  function Join(parts: seq<string>, sep: char): (r: string)
    ensures parts == [] ==> r == []
    ensures |parts| >= 1 ==> parts[0] <= r
    ensures |parts| >= 2 ==> |parts[0]| < |r| && r[|parts[0]|] == sep
  {
    if parts == [] then []
    else if |parts| == 1 then parts[0]
    else parts[0] + [sep] + Join(parts[1..], sep)
  }

  /** `s.split(sep)`: the maximal separator-free pieces of `s`, in order.
      Like JavaScript, the empty string splits into one empty piece. */
  function Split(s: string, sep: char): (parts: seq<string>)
    ensures |parts| >= 1
    ensures forall i :: 0 <= i < |parts| ==> sep !in parts[i]
    decreases |s|
  {
    if s == [] then [[]]
    else
      var rest := Split(s[1..], sep);
      if s[0] == sep then [[]] + rest
      else [[s[0]] + rest[0]] + rest[1..]
  }

  /** Splitting loses nothing: joining the pieces restores the text. */
  lemma {:induction false} JoinSplit(s: string, sep: char)
    ensures Join(Split(s, sep), sep) == s
    decreases |s|
  {
    if s != [] {
      JoinSplit(s[1..], sep);
      var rest := Split(s[1..], sep);
      if s[0] == sep {
        assert Join([[]] + rest, sep) == [sep] + Join(rest, sep);
      } else {
        var parts := [[s[0]] + rest[0]] + rest[1..];
        if |rest| > 1 {
          assert parts[1..] == rest[1..];
          assert Join(rest, sep) == rest[0] + [sep] + Join(rest[1..], sep);
          assert Join(parts, sep) == [s[0]] + rest[0] + [sep] + Join(rest[1..], sep);
        }
        assert Join(parts, sep) == [s[0]] + Join(rest, sep);
      }
      assert s == [s[0]] + s[1..];
    }
  }

  /** A piece without the separator splits into itself. */
  lemma {:induction false} SplitNoSeparator(s: string, sep: char)
    requires sep !in s
    ensures Split(s, sep) == [s]
    decreases |s|
  {
    if s != [] {
      SplitNoSeparator(s[1..], sep);
      assert s == [s[0]] + s[1..];
    }
  }

  /** Splitting text that contains a separator splits each side on its own. */
  lemma {:induction false} SplitAroundSeparator(a: string, b: string, sep: char)
    ensures Split(a + [sep] + b, sep) == Split(a, sep) + Split(b, sep)
    decreases |a|
  {
    var x := a + [sep] + b;
    if a == [] {
      assert x[0] == sep && x[1..] == b;
    } else {
      assert x[0] == a[0] && x[1..] == a[1..] + [sep] + b;
      SplitAroundSeparator(a[1..], b, sep);
      var ra := Split(a[1..], sep);
      var rest := Split(x[1..], sep);
      assert rest == ra + Split(b, sep);
      if a[0] != sep {
        assert rest[0] == ra[0];
        assert rest[1..] == ra[1..] + Split(b, sep);
      }
    }
  }

  /** Joining separator-free pieces and splitting the result gives the pieces back. */
  lemma {:induction false} SplitJoin(parts: seq<string>, sep: char)
    requires |parts| >= 1
    requires forall i :: 0 <= i < |parts| ==> sep !in parts[i]
    ensures Split(Join(parts, sep), sep) == parts
    decreases |parts|
  {
    SplitNoSeparator(parts[0], sep);
    if |parts| > 1 {
      SplitJoin(parts[1..], sep);
      SplitAroundSeparator(parts[0], Join(parts[1..], sep), sep);
      assert parts == [parts[0]] + parts[1..];
    }
  }

  // ---------------------------------------------------------------------
  // decimal digits, toString, padStart
  // ---------------------------------------------------------------------

  predicate IsDigit(c: char) { '0' <= c <= '9' }

  predicate IsDigits(s: string) { forall i :: 0 <= i < |s| ==> IsDigit(s[i]) }

  /** A numeral of digits holds neither of the separators the game splits on. */
  lemma {:induction false} DigitsHaveNoSeparator(s: string)
    requires IsDigits(s)
    ensures '-' !in s && '\n' !in s
  {
  }

  /** The number a string of decimal digits denotes (leading zeros allowed). */
  function DigitsValue(s: string): nat
    requires IsDigits(s)
  {
    if s == [] then 0
    else DigitsValue(s[..|s| - 1]) * 10 + (s[|s| - 1] as int - '0' as int)
  }

  /** Leading zeros do not change the value: `Number("07") === 7`. */
  lemma {:induction false} LeadingZero(s: string)
    requires IsDigits(s)
    ensures IsDigits(['0'] + s) && DigitsValue(['0'] + s) == DigitsValue(s)
    decreases |s|
  {
    if s != [] {
      LeadingZero(s[..|s| - 1]);
      assert (['0'] + s)[..|s|] == ['0'] + s[..|s| - 1];
    }
  }

  function DigitChar(d: nat): (c: char)
    requires d < 10
    ensures IsDigit(c) && c as int - '0' as int == d
  {
    ('0' as int + d) as char
  }

  /** `n.toString()` for a non-negative integer: canonical decimal digits. */
  function NatToString(n: nat): (s: string)
    ensures |s| >= 1 && IsDigits(s)
    ensures DigitsValue(s) == n
    ensures |s| > 1 ==> s[0] != '0'
    ensures |s| == 1 <==> n < 10
    ensures |s| == 2 <==> 10 <= n < 100
    decreases n
  {
    if n < 10 then [DigitChar(n)]
    else
      var s := NatToString(n / 10) + [DigitChar(n % 10)];
      assert s[..|s| - 1] == NatToString(n / 10);
      s
  }

  /** `n.toString()` for any integer: canonical decimal digits, with a minus
      sign before negative numbers. */
  function IntToString(n: int): (s: string)
    ensures n >= 0 ==> s == NatToString(n)
    ensures n >= 0 ==> |s| >= 1 && IsDigits(s) && DigitsValue(s) == n && (|s| > 1 ==> s[0] != '0')
    ensures n < 0 ==> |s| >= 2 && s[0] == '-' && IsDigits(s[1..]) && DigitsValue(s[1..]) == -n
                      && (|s| > 2 ==> s[1] != '0')
  {
    if n < 0 then
      var s := ['-'] + NatToString(-n);
      assert s[1..] == NatToString(-n);
      s
    else NatToString(n)
  }

  /** `s.padStart(width, fill)` with a one-character fill string. */
  function PadStart(s: string, width: nat, fill: char): (r: string)
    ensures |r| == if |s| >= width then |s| else width
    ensures r[|r| - |s|..] == s
    ensures forall i :: 0 <= i < |r| - |s| ==> r[i] == fill
  {
    if |s| >= width then s else seq(width - |s|, _ => fill) + s
  }

  // ---------------------------------------------------------------------
  // string-to-number coercion
  // ---------------------------------------------------------------------

  /** The white space and line terminators that JavaScript's string-to-number
      conversion ignores around a numeral (the space separators beyond
      U+00A0 are not modelled). */
  predicate IsJsSpace(c: char)
  {
    c == ' ' || c == '\t' || c == '\n' || c == '\r' || c == '\U{000B}' || c == '\U{000C}'
    || c == '\U{00A0}' || c == '\U{FEFF}' || c == '\U{2028}' || c == '\U{2029}'
  }

  function TrimStart(s: string): (r: string)
    ensures r == [] || !IsJsSpace(r[0])
    ensures |r| <= |s| && r == s[|s| - |r|..]
    ensures forall i :: 0 <= i < |s| - |r| ==> IsJsSpace(s[i])
    decreases |s|
  {
    if s != [] && IsJsSpace(s[0]) then TrimStart(s[1..]) else s
  }

  function TrimEnd(s: string): (r: string)
    ensures r == [] || !IsJsSpace(r[|r| - 1])
    ensures |r| <= |s| && r == s[..|r|]
    ensures forall i :: |r| <= i < |s| ==> IsJsSpace(s[i])
    decreases |s|
  {
    if s != [] && IsJsSpace(s[|s| - 1]) then TrimEnd(s[..|s| - 1]) else s
  }

  /** `r` is the piece of `s` starting at `lo`, and everything of `s`
      before and after that piece is white space. */
  ghost predicate TrimmedAt(s: string, r: string, lo: int)
  {
    && 0 <= lo && lo + |r| <= |s|
    && s[lo..lo + |r|] == r
    && (forall i :: 0 <= i < lo ==> IsJsSpace(s[i]))
    && (forall i :: lo + |r| <= i < |s| ==> IsJsSpace(s[i]))
  }

  /** `s.trim()` as the numeric conversion applies it: the piece of `s` left
      when its leading and trailing white space is cut off. */
  function Trim(s: string): (r: string)
    ensures r == [] || (!IsJsSpace(r[0]) && !IsJsSpace(r[|r| - 1]))
    ensures exists lo :: TrimmedAt(s, r, lo)
    ensures (s == [] || (!IsJsSpace(s[0]) && !IsJsSpace(s[|s| - 1]))) ==> r == s
    ensures (forall i :: 0 <= i < |s| ==> IsJsSpace(s[i])) ==> r == []
  {
    var u := TrimStart(s);
    var r := TrimEnd(u);
    CutBothEnds(s, u, r);
    r
  }

  /** Cutting white space off the front of `s` (giving `u`) and then off the
      back of `u` (giving `r`) leaves `r` trimmed out of `s`. */
  lemma {:induction false} CutBothEnds(s: string, u: string, r: string)
    requires |u| <= |s| && u == s[|s| - |u|..] && (forall i :: 0 <= i < |s| - |u| ==> IsJsSpace(s[i]))
    requires |r| <= |u| && r == u[..|r|] && (forall i :: |r| <= i < |u| ==> IsJsSpace(u[i]))
    ensures TrimmedAt(s, r, |s| - |u|)
  {
    var lo := |s| - |u|;
    assert s[lo..lo + |r|] == r;
    forall i | lo + |r| <= i < |s|
      ensures IsJsSpace(s[i])
    {
      assert s[i] == u[i - lo];
    }
  }

  /** Leading white space is cut off whatever follows it. */
  lemma {:induction false} TrimStartSpacePrefix(w: string, x: string)
    requires forall i :: 0 <= i < |w| ==> IsJsSpace(w[i])
    ensures TrimStart(w + x) == TrimStart(x)
    decreases |w|
  {
    if w == [] {
      assert w + x == x;
    } else {
      assert (w + x)[0] == w[0];
      assert (w + x)[1..] == w[1..] + x;
      TrimStartSpacePrefix(w[1..], x);
    }
  }

  /** Trailing white space is cut off whatever precedes it. */
  lemma {:induction false} TrimEndSpaceSuffix(x: string, w: string)
    requires forall i :: 0 <= i < |w| ==> IsJsSpace(w[i])
    ensures TrimEnd(x + w) == TrimEnd(x)
    decreases |w|
  {
    if w == [] {
      assert x + w == x;
    } else {
      var xw := x + w;
      assert xw[|xw| - 1] == w[|w| - 1];
      assert xw[..|xw| - 1] == x + w[..|w| - 1];
      TrimEndSpaceSuffix(x, w[..|w| - 1]);
    }
  }

  /** Cutting leading white space off `t + w`: once `t` holds something else,
      `w` is kept whole; otherwise the cut goes on into `w`. */
  lemma {:induction false} TrimStartAppend(t: string, w: string)
    ensures TrimStart(t + w) == if TrimStart(t) == [] then TrimStart(w) else TrimStart(t) + w
    decreases |t|
  {
    if t == [] {
      assert t + w == w;
    } else if IsJsSpace(t[0]) {
      assert (t + w)[0] == t[0];
      assert (t + w)[1..] == t[1..] + w;
      TrimStartAppend(t[1..], w);
    } else {
      assert (t + w)[0] == t[0];
    }
  }

  /** White space around a string does not change what it trims to. */
  lemma {:induction false} TrimSurroundingSpace(w1: string, t: string, w2: string)
    requires forall i :: 0 <= i < |w1| ==> IsJsSpace(w1[i])
    requires forall i :: 0 <= i < |w2| ==> IsJsSpace(w2[i])
    ensures Trim(w1 + t + w2) == Trim(t)
  {
    assert w1 + t + w2 == w1 + (t + w2);
    TrimStartSpacePrefix(w1, t + w2);
    TrimStartAppend(t, w2);
    if TrimStart(t) != [] {
      TrimEndSpaceSuffix(TrimStart(t), w2);
    }
  }

  lemma {:induction false} DigitIsNotSpace(c: char)
    ensures IsDigit(c) ==> !IsJsSpace(c)
  {
  }

  /** A numeral has no white space to trim. */
  lemma {:induction false} TrimDigits(s: string)
    ensures IsDigits(s) && s != [] ==> Trim(s) == s
  {
    if IsDigits(s) && s != [] {
      DigitIsNotSpace(s[0]);
      DigitIsNotSpace(s[|s| - 1]);
    }
  }

  /** White space around a field never changes the number it coerces to:
      `" 5 " - 0 === 5`. */
  lemma {:induction false} SpaceAroundIsIgnored(w1: string, t: string, w2: string)
    requires forall i :: 0 <= i < |w1| ==> IsJsSpace(w1[i])
    requires forall i :: 0 <= i < |w2| ==> IsJsSpace(w2[i])
    ensures ToNumber(w1 + t + w2) == ToNumber(t)
  {
    TrimSurroundingSpace(w1, t, w2);
  }

  /** A character that is neither a digit, a sign nor white space makes the
      whole field NaN, wherever it stands. */
  lemma {:induction false} StrayCharIsNaN(s: string, i: int)
    requires 0 <= i < |s|
    requires !IsDigit(s[i]) && s[i] != '+' && s[i] != '-' && !IsJsSpace(s[i])
    ensures ToNumber(s) == None
  {
    var t := Trim(s);
    var lo :| TrimmedAt(s, t, lo);
    TrimKeepsNonSpace(s, t, lo, i);
    StrayCharInNumeral(t, i - lo);
  }

  /** A character that is not white space survives trimming. */
  lemma {:induction false} TrimKeepsNonSpace(s: string, r: string, lo: int, i: int)
    requires TrimmedAt(s, r, lo) && 0 <= i < |s| && !IsJsSpace(s[i])
    ensures lo <= i < lo + |r| && r[i - lo] == s[i]
  {
    assert s[lo..lo + |r|][i - lo] == s[i];
  }

  lemma {:induction false} StrayCharInNumeral(t: string, k: int)
    requires 0 <= k < |t|
    requires !IsDigit(t[k]) && t[k] != '+' && t[k] != '-'
    ensures NumeralValue(t) == None
  {
    assert !IsDigit(t[k]);
    if |t| >= 2 && (t[0] == '+' || t[0] == '-') {
      assert t[1..][k - 1] == t[k];
      assert !IsDigits(t[1..]);
    }
  }

  /** The number a string coerces to under `-`, or None for NaN.  Modelled:
      surrounding white space is ignored, a blank string is 0, and a decimal
      integer numeral with an optional sign gives its value; every other
      string is NaN here. */
  function ToNumber(s: string): (r: Option<int>)
    ensures IsDigits(s) && s != [] ==> r == Some(DigitsValue(s))
    ensures (forall i :: 0 <= i < |s| ==> IsJsSpace(s[i])) ==> r == Some(0)
    ensures r.Some? && '-' !in s ==> r.value >= 0
  {
    var t := Trim(s);
    TrimDigits(s);
    assert t != [] ==> t[0] == s[|s| - |TrimStart(s)|];
    NumeralValue(t)
  }

  /** The value of a trimmed field: blank is 0, and an optional sign followed
      by decimal digits gives the signed value of the digits. */
  function NumeralValue(t: string): (r: Option<int>)
    ensures t == [] ==> r == Some(0)
    ensures IsDigits(t) && t != [] ==> r == Some(DigitsValue(t))
    ensures r.Some? && t != [] && t[0] != '-' ==> r.value >= 0
  {
    if t == [] then Some(0)
    else if IsDigits(t) then Some(DigitsValue(t))
    else if |t| >= 2 && t[0] == '+' && IsDigits(t[1..]) then Some(DigitsValue(t[1..]))
    else if |t| >= 2 && t[0] == '-' && IsDigits(t[1..]) then Some(-(DigitsValue(t[1..]) as int))
    else None
  }
}
