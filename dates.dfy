/**
 * Calendar dates and the `DD/MM/YYYY` date parser (core/utils.py `parse_date`,
 * and the same `strptime(..., '%d/%m/%Y')` call inside `upload_csv`).
 *
 * Python's `strptime` turns the format into a regular expression, matches it at
 * the start of the input and then rejects any unconverted trailing text, so the
 * whole string must match.  The three directives accept:
 *   %d  ::= "3"[01] | [12]D | "0"[1-9] | [1-9] | " "[1-9]
 *   %m  ::= "1"[0-2] | "0"[1-9] | [1-9]
 *   %Y  ::= D D D D
 * and the parsed fields must then name a real date in years 1 to 9999.
 */
module Dates {
  import opened Wrappers

  /** A calendar date, proleptic Gregorian, without time zone. */
  datatype Date = Date(year: int, month: int, day: int)

  predicate IsLeapYear(y: int) {
    y % 4 == 0 && (y % 100 != 0 || y % 400 == 0)
  }

  function DaysInMonth(y: int, m: int): (n: int)
    requires 1 <= m <= 12
    ensures 28 <= n <= 31
    ensures n == 29 <==> m == 2 && IsLeapYear(y)
  {
    if m == 2 then (if IsLeapYear(y) then 29 else 28)
    else if m == 4 || m == 6 || m == 9 || m == 11 then 30
    else 31
  }

  /** The dates Python's `datetime.date` can represent. */
  predicate ValidDate(d: Date) {
    1 <= d.year <= 9999 && 1 <= d.month <= 12 && 1 <= d.day <= DaysInMonth(d.year, d.month)
  }

  /** Strict chronological order, as Python compares `date` objects. */
  predicate Before(a: Date, b: Date) {
    a.year < b.year
    || (a.year == b.year && (a.month < b.month || (a.month == b.month && a.day < b.day)))
  }

  // ---------------------------------------------------------------------
  // Lexical level: the text accepted by each directive
  // ---------------------------------------------------------------------

  predicate IsDigit(c: char) {
    '0' <= c <= '9'
  }

  function DigitValue(c: char): (v: int)
    requires IsDigit(c)
    ensures 0 <= v <= 9
  {
    c as int - '0' as int
  }

  /** The text matched by `%d`. */
  predicate IsDayText(t: string) {
    || (|t| == 2 && t[0] == '3' && '0' <= t[1] <= '1')
    || (|t| == 2 && '1' <= t[0] <= '2' && IsDigit(t[1]))
    || (|t| == 2 && t[0] == '0' && '1' <= t[1] <= '9')
    || (|t| == 1 && '1' <= t[0] <= '9')
    || (|t| == 2 && t[0] == ' ' && '1' <= t[1] <= '9')
  }

  /** The text matched by `%m`. */
  predicate IsMonthText(t: string) {
    || (|t| == 2 && t[0] == '1' && '0' <= t[1] <= '2')
    || (|t| == 2 && t[0] == '0' && '1' <= t[1] <= '9')
    || (|t| == 1 && '1' <= t[0] <= '9')
  }

  /** The text matched by `%Y`. */
  predicate IsYearText(t: string) {
    |t| == 4 && forall i :: 0 <= i < 4 ==> IsDigit(t[i])
  }

  function DayValue(t: string): (v: int)
    requires IsDayText(t)
    ensures 1 <= v <= 31
  {
    if |t| == 1 then DigitValue(t[0])
    else if t[0] == ' ' then DigitValue(t[1])
    else 10 * DigitValue(t[0]) + DigitValue(t[1])
  }

  function MonthValue(t: string): (v: int)
    requires IsMonthText(t)
    ensures 1 <= v <= 12
  {
    if |t| == 1 then DigitValue(t[0]) else 10 * DigitValue(t[0]) + DigitValue(t[1])
  }

  function YearValue(t: string): (v: int)
    requires IsYearText(t)
    ensures 0 <= v <= 9999
  {
    1000 * DigitValue(t[0]) + 100 * DigitValue(t[1]) + 10 * DigitValue(t[2]) + DigitValue(t[3])
  }

  /** Three fields that together match `%d/%m/%Y`. */
  predicate IsDateText(dayText: string, monthText: string, yearText: string) {
    IsDayText(dayText) && IsMonthText(monthText) && IsYearText(yearText)
  }

  /** The date the three fields name (not necessarily a valid one). */
  function DateOf(dayText: string, monthText: string, yearText: string): Date
    requires IsDateText(dayText, monthText, yearText)
  {
    Date(YearValue(yearText), MonthValue(monthText), DayValue(dayText))
  }

  function Join(dayText: string, monthText: string, yearText: string): string {
    dayText + "/" + monthText + "/" + yearText
  }

  // ---------------------------------------------------------------------
  // The parser
  // ---------------------------------------------------------------------

  /** Index of the first '/' in `s`, if any. */
  function FirstSlash(s: string): (r: Option<nat>)
    ensures r.Some? ==> r.value < |s| && s[r.value] == '/' && '/' !in s[..r.value]
    ensures r.None? ==> '/' !in s
  {
    if |s| == 0 then None
    else if s[0] == '/' then Some(0)
    else
      match FirstSlash(s[1..])
      case None => None
      case Some(k) =>
        assert s[..k + 1] == [s[0]] + s[1..][..k];
        Some(k + 1)
  }

  /**
   * `datetime.strptime(s, '%d/%m/%Y').date()`, with the `ValueError` it raises
   * on malformed text, trailing text or an impossible date mapped to `None`.
   */
  function ParseDate(s: string): (r: Option<Date>)
    ensures r.Some? ==> ValidDate(r.value)
  {
    match FirstSlash(s)
    case None => None
    case Some(i) =>
      var rest := s[i + 1..];
      match FirstSlash(rest)
      case None => None
      case Some(j) =>
        var dayText, monthText, yearText := s[..i], rest[..j], rest[j + 1..];
        if IsDateText(dayText, monthText, yearText) && ValidDate(DateOf(dayText, monthText, yearText))
        then Some(DateOf(dayText, monthText, yearText))
        else None
  }

  /**
   * core/utils.py `parse_date`: an absent or empty string is `None` without a
   * parse; anything else is the `strptime` result, `None` on `ValueError`.
   */
  function ParseDateOrNone(s: Option<string>): (r: Option<Date>)
    ensures r.Some? <==> s.Some? && ParseDate(s.value).Some?
    ensures r.Some? ==> r == ParseDate(s.value) && ValidDate(r.value)
  {
    if s.None? || s.value == "" then None else ParseDate(s.value)
  }

  lemma {:induction false} FirstSlashAfter(a: string, b: string)
    requires '/' !in a
    ensures FirstSlash(a + "/" + b) == Some(|a|)
  {
    if |a| > 0 {
      assert (a + "/" + b)[1..] == a[1..] + "/" + b;
      FirstSlashAfter(a[1..], b);
    } else {
      assert (a + "/" + b)[0] == '/';
    }
  }

  /** Every string matching `%d/%m/%Y` parses to the date it names when that date exists, and to `None` otherwise. */
  lemma ParseDateComplete(dayText: string, monthText: string, yearText: string)
    requires IsDateText(dayText, monthText, yearText)
    ensures ParseDate(Join(dayText, monthText, yearText)) ==
            if ValidDate(DateOf(dayText, monthText, yearText))
            then Some(DateOf(dayText, monthText, yearText)) else None
  {
    var s := Join(dayText, monthText, yearText);
    var rest := monthText + "/" + yearText;
    assert s == dayText + "/" + rest;
    assert '/' !in dayText;
    assert '/' !in monthText;
    FirstSlashAfter(dayText, rest);
    assert s[|dayText| + 1..] == rest;
    assert s[..|dayText|] == dayText;
    FirstSlashAfter(monthText, yearText);
    assert rest[..|monthText|] == monthText;
    assert rest[|monthText| + 1..] == yearText;
  }

  /** Every successful parse comes from a string matching `%d/%m/%Y` that names the returned date. */
  lemma ParseDateSound(s: string, d: Date)
    requires ParseDate(s) == Some(d)
    ensures exists dayText, monthText, yearText ::
              IsDateText(dayText, monthText, yearText) && s == Join(dayText, monthText, yearText)
              && d == DateOf(dayText, monthText, yearText)
  {
    var i := FirstSlash(s).value;
    var rest := s[i + 1..];
    var j := FirstSlash(rest).value;
    var dayText, monthText, yearText := s[..i], rest[..j], rest[j + 1..];
    assert rest == monthText + "/" + yearText;
    assert s == Join(dayText, monthText, yearText);
  }

  // ---------------------------------------------------------------------
  // Formatting and the round trip
  // ---------------------------------------------------------------------

  function DigitChar(k: int): (c: char)
    requires 0 <= k <= 9
    ensures IsDigit(c) && DigitValue(c) == k
  {
    ('0' as int + k) as char
  }

  /** `n` as two decimal digits, zero-padded. */
  function Pad2(n: int): (t: string)
    requires 0 <= n <= 99
    ensures |t| == 2 && IsDigit(t[0]) && IsDigit(t[1]) && 10 * DigitValue(t[0]) + DigitValue(t[1]) == n
  {
    [DigitChar(n / 10), DigitChar(n % 10)]
  }

  /** `n` as four decimal digits, zero-padded. */
  function Pad4(n: int): (t: string)
    requires 0 <= n <= 9999
    ensures IsYearText(t) && YearValue(t) == n
  {
    Pad2(n / 100) + Pad2(n % 100)
  }

  /** Zero-padded `DD/MM/YYYY` rendering of a date. */
  function FormatDate(d: Date): (s: string)
    requires ValidDate(d)
  {
    Join(Pad2(d.day), Pad2(d.month), Pad4(d.year))
  }

  lemma DayPad(n: int)
    requires 1 <= n <= 31
    ensures IsDayText(Pad2(n)) && DayValue(Pad2(n)) == n
  {
  }

  lemma MonthPad(n: int)
    requires 1 <= n <= 12
    ensures IsMonthText(Pad2(n)) && MonthValue(Pad2(n)) == n
  {
  }

  /** Formatting a valid date and parsing it back gives the same date. */
  lemma RoundTrip(d: Date)
    requires ValidDate(d)
    ensures ParseDate(FormatDate(d)) == Some(d)
  {
    DayPad(d.day);
    MonthPad(d.month);
    assert DateOf(Pad2(d.day), Pad2(d.month), Pad4(d.year)) == d;
    ParseDateComplete(Pad2(d.day), Pad2(d.month), Pad4(d.year));
  }

  /** ISO-formatted dates, as the upload tests feed them, do not parse. */
  lemma IsoDatesRejected()
    ensures ParseDate("2025-01-01") == None && ParseDate("1990-01-01") == None
  {
  }

  /** Trailing text and an out-of-range month do not parse. */
  lemma MalformedDatesRejected()
    ensures ParseDate("01/01/2020x") == None && ParseDate("01/13/2020") == None
  {
  }
}
