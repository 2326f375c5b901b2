/**
 * Capture dates and the date-folder names derived from them.
 *
 * A bucket's date folder is `date.strftime('%d-%m-%y')`: two zero-padded digits each for the
 * day, the month and the year modulo 100.  The unification pass recognises date folders with
 * the regular expression `^\d{2}-\d{2}-\d{2}$` applied with `re.match`.
 */
module Dates {

  import opened Wrappers

  /** The calendar part of a Python `datetime` (the time of day is never used by the engine). */
  datatype Date = Date(year: int, month: int, day: int)

  /** A `datetime` always holds a year in 1..9999, a month in 1..12 and a day in 1..31. */
  type CalendarDate = d: Date | 1 <= d.year <= 9999 && 1 <= d.month <= 12 && 1 <= d.day <= 31
    witness Date(1970, 1, 1)

  predicate IsDigit(c: char) {
    '0' <= c <= '9'
  }

  function DigitValue(c: char): nat
    requires IsDigit(c)
  {
    c as int - '0' as int
  }

  /** The character of a decimal digit. */
  function DigitChar(n: nat): (c: char)
    requires n < 10
    ensures IsDigit(c) && DigitValue(c) == n
  {
    ('0' as int + n) as char
  }

  /** `n` written with two zero-padded decimal digits, as strftime writes `%d`, `%m` and `%y`. */
  function Pad2(n: nat): (s: string)
    requires n < 100
    ensures |s| == 2 && IsDigit(s[0]) && IsDigit(s[1])
    ensures 10 * DigitValue(s[0]) + DigitValue(s[1]) == n
  {
    [DigitChar(n / 10), DigitChar(n % 10)]
  }

  /** The date folder of a capture date: `DD-MM-YY`. */
  function DateFolder(d: CalendarDate): (s: string)
    ensures |s| == 8 && s[2] == '-' && s[5] == '-'
  {
    Pad2(d.day) + "-" + Pad2(d.month) + "-" + Pad2(d.year % 100)
  }

  /** The folder name a file's date leads to, or the variant's "no date" sentinel. */
  function DateFolderOr(date: Option<CalendarDate>, noDate: string): (s: string)
    ensures date.Some? ==> MatchesDatePattern(s) && s == DateFolder(date.value)
    ensures date.None? ==> s == noDate
  {
    match date
    case Some(d) =>
      DateFolderMatchesPattern(d);
      DateFolder(d)
    case None => noDate
  }

  /**
   * `re.match(r'^\d{2}-\d{2}-\d{2}$', s)`: two digits, a dash, two digits, a dash, two digits,
   * and then the end of the name -- where, as Python's `$` allows, a single final newline may
   * still follow.
   */
  predicate MatchesDatePattern(s: string) {
    && (|s| == 8 || (|s| == 9 && s[8] == '\n'))
    && IsDigit(s[0]) && IsDigit(s[1]) && s[2] == '-'
    && IsDigit(s[3]) && IsDigit(s[4]) && s[5] == '-'
    && IsDigit(s[6]) && IsDigit(s[7])
  }

  /** The three two-digit numbers a matching folder name spells. */
  function FolderNumbers(s: string): (r: (nat, nat, nat))
    requires MatchesDatePattern(s)
    ensures r.0 < 100 && r.1 < 100 && r.2 < 100
  {
    (10 * DigitValue(s[0]) + DigitValue(s[1]),
     10 * DigitValue(s[3]) + DigitValue(s[4]),
     10 * DigitValue(s[6]) + DigitValue(s[7]))
  }

  /** Every date folder the placement engine creates is recognised by the unification pass. */
  lemma DateFolderMatchesPattern(d: CalendarDate)
    ensures MatchesDatePattern(DateFolder(d)) && |DateFolder(d)| == 8
  {
    var s := DateFolder(d);
    assert s[0..2] == Pad2(d.day) && s[3..5] == Pad2(d.month) && s[6..8] == Pad2(d.year % 100);
  }

  /** Reading a date folder back gives the day, the month and the two-digit year. */
  lemma {:induction false} DateFolderRoundTrip(d: CalendarDate)
    ensures MatchesDatePattern(DateFolder(d))
    ensures FolderNumbers(DateFolder(d)) == (d.day, d.month, d.year % 100)
  {
    DateFolderMatchesPattern(d);
    var s := DateFolder(d);
    assert s[0] == Pad2(d.day)[0] && s[1] == Pad2(d.day)[1];
    assert s[3] == Pad2(d.month)[0] && s[4] == Pad2(d.month)[1];
    assert s[6] == Pad2(d.year % 100)[0] && s[7] == Pad2(d.year % 100)[1];
  }

  /** Two capture dates share a date folder exactly when they agree on day, month and year mod 100. */
  lemma DateFolderInjective(a: CalendarDate, b: CalendarDate)
    ensures DateFolder(a) == DateFolder(b) <==>
            (a.day == b.day && a.month == b.month && a.year % 100 == b.year % 100)
  {
    DateFolderRoundTrip(a);
    DateFolderRoundTrip(b);
  }

  /** Every eight-character name the pattern accepts is the `DD-MM-YY` spelling of its numbers. */
  lemma MatchingNameIsPadded(s: string)
    requires MatchesDatePattern(s) && |s| == 8
    ensures var (x, y, z) := FolderNumbers(s);
            s == Pad2(x) + "-" + Pad2(y) + "-" + Pad2(z)
  {
    var (x, y, z) := FolderNumbers(s);
    var t := Pad2(x) + "-" + Pad2(y) + "-" + Pad2(z);
    DigitsDetermined(s[0], s[1], Pad2(x)[0], Pad2(x)[1]);
    DigitsDetermined(s[3], s[4], Pad2(y)[0], Pad2(y)[1]);
    DigitsDetermined(s[6], s[7], Pad2(z)[0], Pad2(z)[1]);
    assert forall i | 0 <= i < 8 :: s[i] == t[i];
  }

  /** Two digit pairs with the same value are the same characters. */
  lemma DigitsDetermined(a: char, b: char, c: char, e: char)
    requires IsDigit(a) && IsDigit(b) && IsDigit(c) && IsDigit(e)
    requires 10 * DigitValue(a) + DigitValue(b) == 10 * DigitValue(c) + DigitValue(e)
    ensures a == c && b == e
  {
  }

  /** The sentinels the two variants use for a missing date are never taken for a date folder. */
  lemma NoDateSentinelsDoNotMatch()
    ensures !MatchesDatePattern("No_Date") && !MatchesDatePattern("Sin_Fecha")
  {
  }

  /** The pattern is anchored: a name with anything but a single newline after the six digits fails. */
  lemma PatternIsAnchored()
    ensures MatchesDatePattern("21-05-23")
    ensures MatchesDatePattern("21-05-23\n")
    ensures !MatchesDatePattern("21-05-234")
    ensures !MatchesDatePattern("21-05-23 ")
    ensures !MatchesDatePattern("2-05-23")
    ensures !MatchesDatePattern("21/05/23")
  {
  }
}
