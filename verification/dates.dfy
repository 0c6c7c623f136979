/** Calendar dates and the `YYYY/MM/DD/` key partition they name.  Both
    programs turn a date into a listing prefix with
    fmt.Sprintf("%04d/%02d/%02d/", ...) and into a label with
    "%s-%s-%s"; the notifier also steps one day back with
    time.AddDate(0, 0, -1). */
module Dates {
  import opened Strings

  /** A date as time.Time reports it through Year(), Month() and Day(). */
  datatype Date = Date(year: int, month: int, day: int)

  /** The proleptic Gregorian leap-year rule that Go's time package uses. */
  predicate LeapYear(y: int) {
    y % 4 == 0 && (y % 100 != 0 || y % 400 == 0)
  }

  function DaysIn(year: int, month: int): (n: int)
    requires 1 <= month <= 12
    ensures 28 <= n <= 31
  {
    if month == 2 then (if LeapYear(year) then 29 else 28)
    else if month == 4 || month == 6 || month == 9 || month == 11 then 30
    else 31
  }

  predicate Valid(d: Date) {
    1 <= d.month <= 12 && 1 <= d.day <= DaysIn(d.year, d.month)
  }

  /** The calendar successor of a date. */
  function NextDay(d: Date): (r: Date)
    requires Valid(d)
    ensures Valid(r)
  {
    if d.day < DaysIn(d.year, d.month) then Date(d.year, d.month, d.day + 1)
    else if d.month < 12 then Date(d.year, d.month + 1, 1)
    else Date(d.year + 1, 1, 1)
  }

  /** now.AddDate(0, 0, -1): Go normalises day 0 of a month to the last day
      of the month before, and month 0 to December of the year before. */
  function PreviousDay(d: Date): (r: Date)
    requires Valid(d)
    ensures Valid(r)
    ensures NextDay(r) == d
    ensures r.year == d.year || (r.year == d.year - 1 && d.month == 1 && d.day == 1)
  {
    if d.day > 1 then Date(d.year, d.month, d.day - 1)
    else if d.month > 1 then Date(d.year, d.month - 1, DaysIn(d.year, d.month - 1))
    else Date(d.year - 1, 12, 31)
  }

  /** fmt.Sprintf("%04d/%02d/%02d/", year, month, day): the prefix under
      which the objects of one day are stored. */
  function ScanPrefix(d: Date): string {
    Padded(d.year, 4) + "/" + Padded(d.month, 2) + "/" + Padded(d.day, 2) + "/"
  }

  /** The `YYYY-MM-DD` label both programs report for a day. */
  function DateLabel(d: Date): string {
    Padded(d.year, 4) + "-" + Padded(d.month, 2) + "-" + Padded(d.day, 2)
  }

  /** A year of four digits or fewer. */
  predicate FourDigitYear(d: Date) {
    0 <= d.year <= 9999
  }

  /** Reads the date back out of a `YYYY/MM/DD/` prefix. */
  function ParsePrefix(p: string): Date
    requires |p| >= 10
  {
    Date(ParseDigits(p[0..4]), ParseDigits(p[5..7]), ParseDigits(p[8..10]))
  }

  /** The prefix of a date with a four-digit year is 11 characters long,
      has '/' exactly at offsets 4, 7 and 10 and digits elsewhere, and its
      label is the same digits joined by '-'. */
  lemma PrefixLayout(d: Date)
    requires Valid(d) && FourDigitYear(d)
    ensures var p := ScanPrefix(d);
      |p| == 11 && p[4] == '/' && p[7] == '/' && p[10] == '/'
      && AllDigits(p[0..4]) && AllDigits(p[5..7]) && AllDigits(p[8..10])
      && p[0..4] == Padded(d.year, 4) && p[5..7] == Padded(d.month, 2)
      && p[8..10] == Padded(d.day, 2)
      && DateLabel(d) == p[0..4] + "-" + p[5..7] + "-" + p[8..10]
  {
    PaddedWidth(d.year, 4);
    PaddedWidth(d.month, 2);
    PaddedWidth(d.day, 2);
    var y, m, dd := Padded(d.year, 4), Padded(d.month, 2), Padded(d.day, 2);
    var p := ScanPrefix(d);
    assert p == y + "/" + m + "/" + dd + "/";
    assert p[0..4] == y;
    assert p[5..7] == m;
    assert p[8..10] == dd;
  }

  /** Round trip: the date can be read back from its prefix, so distinct
      dates are listed under distinct prefixes. */
  lemma {:induction false} ParsePrefixOfScanPrefix(d: Date)
    requires Valid(d) && FourDigitYear(d)
    ensures ParsePrefix(ScanPrefix(d)) == d
  {
    PrefixLayout(d);
    ParseZeroPad(d.year, 4);
    ParseZeroPad(d.month, 2);
    ParseZeroPad(d.day, 2);
  }

  /** The two partitions the notifier scans, today's and yesterday's, are
      different prefixes. */
  lemma TodayAndYesterdayDiffer(d: Date)
    requires Valid(d) && 1 <= d.year <= 9999
    ensures ScanPrefix(d) != ScanPrefix(PreviousDay(d))
  {
    var y := PreviousDay(d);
    ParsePrefixOfScanPrefix(d);
    ParsePrefixOfScanPrefix(y);
  }
}
