/**
 * The two ways main.py renders a date as text: the request date
 * `f"{year}-{month:02d}-{day:02d}"` sent to the archive, and the
 * `strftime("%m-%d")` label stored for each day of the week. Each
 * formatter has a parser as its partner, and the lemmas prove that the
 * parser recovers the numbers that were formatted.
 */
module DateFormat {
  import opened Options
  import opened Calendar

  predicate IsDigit(c: char) {
    '0' <= c <= '9'
  }

  predicate AllDigits(s: string) {
    forall i :: 0 <= i < |s| ==> IsDigit(s[i])
  }

  function DigitChar(n: nat): (c: char)
    requires n < 10
    ensures IsDigit(c) && c as int - '0' as int == n
  {
    ('0' as int + n) as char
  }

  function DigitValue(c: char): nat
    requires IsDigit(c)
  {
    c as int - '0' as int
  }

  /** The value of a string of decimal digits, most significant first. */
  function DecimalValue(s: string): nat
    requires AllDigits(s)
  {
    if s == [] then 0 else DecimalValue(s[..|s| - 1]) * 10 + DigitValue(s[|s| - 1])
  }

  /** Python's `str(n)` for a natural number: decimal digits without leading zeros. */
  function NatToDecimal(n: nat): string
    decreases n
  {
    if n < 10 then [DigitChar(n)] else NatToDecimal(n / 10) + [DigitChar(n % 10)]
  }

  /** Python's `str(x)` / `f"{x}"` for an integer. */
  function IntToDecimal(x: int): string {
    if x < 0 then "-" + NatToDecimal(-x) else NatToDecimal(x)
  }

  /**
   * Python's `f"{x:02d}"`: the decimal form, zero-padded to width two after
   * the sign (so -5 gives "-5" and 123 gives "123").
   */
  function TwoDigits(x: int): string {
    if 0 <= x < 10 then "0" + NatToDecimal(x) else IntToDecimal(x)
  }

  /** The request date of main.py:58, `f"{year}-{month:02d}-{day:02d}"`. */
  function RequestDate(year: int, month: int, day: int): string {
    IntToDecimal(year) + "-" + TwoDigits(month) + "-" + TwoDigits(day)
  }

  /** Reads back "<digits>-<2 digits>-<2 digits>" as (year, month, day). */
  function ParseRequestDate(s: string): Option<(int, int, int)> {
    if |s| >= 7 && s[|s| - 6] == '-' && s[|s| - 3] == '-'
       && AllDigits(s[..|s| - 6]) && AllDigits(s[|s| - 5..|s| - 3]) && AllDigits(s[|s| - 2..])
    then Some((DecimalValue(s[..|s| - 6]), DecimalValue(s[|s| - 5..|s| - 3]), DecimalValue(s[|s| - 2..])))
    else None
  }

  /** The "%m-%d" label of main.py:133: month and day, two digits each. */
  function DateLabel(d: Date): string {
    TwoDigits(d.month) + "-" + TwoDigits(d.day)
  }

  /** Reads back "MM-DD" as (month, day). */
  function ParseLabel(s: string): Option<(int, int)> {
    if |s| == 5 && s[2] == '-' && AllDigits(s[..2]) && AllDigits(s[3..])
    then Some((DecimalValue(s[..2]), DecimalValue(s[3..])))
    else None
  }

  // ---------------------------------------------------------------------------
  // Lemmas

  /** The decimal form is a non-empty string of digits with no leading zero. */
  lemma {:induction false} DecimalDigits(n: nat)
    ensures |NatToDecimal(n)| >= 1 && AllDigits(NatToDecimal(n))
    ensures |NatToDecimal(n)| > 1 ==> NatToDecimal(n)[0] != '0'
    decreases n
  {
    if n >= 10 {
      DecimalDigits(n / 10);
    }
  }

  /** `:02d` of 0..99 is exactly two digits that read back as the number. */
  lemma TwoDigitsRoundTrip(x: int)
    requires 0 <= x < 100
    ensures |TwoDigits(x)| == 2 && AllDigits(TwoDigits(x)) && DecimalValue(TwoDigits(x)) == x
  {
    DecimalLength(x);
    DecimalDigits(x);
    if x < 10 {
      assert DecimalValue("0") == 0;
      assert TwoDigits(x)[..1] == "0";
    } else {
      DecimalRoundTrip(x);
    }
  }

  /** Reading the decimal form of n gives back n. */
  lemma {:induction false} DecimalRoundTrip(n: nat)
    ensures AllDigits(NatToDecimal(n)) && DecimalValue(NatToDecimal(n)) == n
    decreases n
  {
    var s := NatToDecimal(n);
    DecimalDigits(n);
    if n >= 10 {
      DecimalDigits(n / 10);
      DecimalRoundTrip(n / 10);
      assert s[..|s| - 1] == NatToDecimal(n / 10);
    }
  }

  /** The number of decimal digits of n, for n below 10000. */
  lemma {:induction false} DecimalLength(n: nat)
    ensures n < 10 ==> |NatToDecimal(n)| == 1
    ensures 10 <= n < 100 ==> |NatToDecimal(n)| == 2
    ensures 100 <= n < 1000 ==> |NatToDecimal(n)| == 3
    ensures 1000 <= n < 10000 ==> |NatToDecimal(n)| == 4
    decreases n
  {
    if n >= 10 {
      DecimalLength(n / 10);
    }
  }

  /** The request date is read back as the year, month and day it was made from. */
  lemma RequestDateRoundTrip(year: int, month: int, day: int)
    requires year >= 0 && 0 <= month < 100 && 0 <= day < 100
    ensures ParseRequestDate(RequestDate(year, month, day)) == Some((year, month, day))
  {
    var y := IntToDecimal(year);
    var s := RequestDate(year, month, day);
    DecimalDigits(year);
    TwoDigitsRoundTrip(month);
    TwoDigitsRoundTrip(day);
    assert s[..|s| - 6] == y;
    assert s[|s| - 5..|s| - 3] == TwoDigits(month);
    assert s[|s| - 2..] == TwoDigits(day);
    DecimalRoundTrip(year);
  }

  /**
   * For years 1000..9999 the request date is the ISO 8601 extended calendar
   * date YYYY-MM-DD (section 4.1.2.2 of ISO 8601:2004): ten characters,
   * hyphens at positions 4 and 7, digits everywhere else.
   */
  lemma RequestDateIsIsoCalendarDate(year: int, month: int, day: int)
    requires 1000 <= year <= 9999 && 1 <= month <= 12 && 1 <= day <= 31
    ensures var s := RequestDate(year, month, day);
      && |s| == 10 && s[4] == '-' && s[7] == '-'
      && AllDigits(s[..4]) && AllDigits(s[5..7]) && AllDigits(s[8..])
      && DecimalValue(s[..4]) == year && DecimalValue(s[5..7]) == month && DecimalValue(s[8..]) == day
  {
    DecimalLength(year);
    TwoDigitsRoundTrip(month);
    TwoDigitsRoundTrip(day);
    RequestDateRoundTrip(year, month, day);
  }

  /**
   * The year is not padded: a year below 1000 yields fewer than ten
   * characters, so the ISO form holds only for four-digit years.
   */
  lemma ShortYearNotPadded(year: int, month: int, day: int)
    requires 0 <= year < 1000 && 1 <= month <= 12 && 1 <= day <= 31
    ensures |RequestDate(year, month, day)| < 10
  {
    DecimalLength(year);
    TwoDigitsRoundTrip(month);
    TwoDigitsRoundTrip(day);
  }

  /** The label of a calendar date is "MM-DD" and reads back as its month and day. */
  lemma LabelRoundTrip(d: Date)
    requires IsCalendarDate(d)
    ensures |DateLabel(d)| == 5
    ensures ParseLabel(DateLabel(d)) == Some((d.month, d.day))
  {
    var s := DateLabel(d);
    TwoDigitsRoundTrip(d.month);
    TwoDigitsRoundTrip(d.day);
    assert s[..2] == TwoDigits(d.month);
    assert s[3..] == TwoDigits(d.day);
  }

  /** Two calendar dates have the same label exactly when month and day agree. */
  lemma LabelInjective(a: Date, b: Date)
    requires IsCalendarDate(a) && IsCalendarDate(b)
    ensures DateLabel(a) == DateLabel(b) <==> a.month == b.month && a.day == b.day
  {
    LabelRoundTrip(a);
    LabelRoundTrip(b);
  }
}
