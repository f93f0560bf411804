/**
 * Calendar dates as the bot prints them with Go's `time.Time.Format`:
 * layout "02.01.2006" (DD.MM.YYYY) in notifications and captions and
 * "02.01" (DD.MM) on the reservation buttons. Time of day and time zone
 * play no part in either layout and are not modelled.
 */
module Dates {
  import opened Text

  datatype Date = Date(year: nat, month: nat, day: nat)

  /** A calendar date whose year fits the four digits of the layout. */
  predicate Valid(d: Date) {
    1 <= d.month <= 12 && 1 <= d.day <= 31 && d.year <= 9999
  }

  /** Layout "02.01.2006". */
  function FormatDate(d: Date): string {
    ZeroPad(d.day, 2) + "." + ZeroPad(d.month, 2) + "." + ZeroPad(d.year, 4)
  }

  /** Layout "02.01". */
  function FormatDayMonth(d: Date): string {
    ZeroPad(d.day, 2) + "." + ZeroPad(d.month, 2)
  }

  lemma FieldWidths(d: Date)
    requires Valid(d)
    ensures |ZeroPad(d.day, 2)| == 2 && |ZeroPad(d.month, 2)| == 2 && |ZeroPad(d.year, 4)| == 4
  {
    assert Pow10(2) == 100 && Pow10(4) == 10000;
    NatToStringLength(d.day, 2);
    NatToStringLength(d.month, 2);
    NatToStringLength(d.year, 4);
  }

  /**
   * "DD.MM.YYYY" has ten characters, dots at positions 2 and 5, digits
   * elsewhere, and the three digit groups read back as day, month and year.
   */
  lemma FormatDateFields(d: Date)
    requires Valid(d)
    ensures var r := FormatDate(d);
      && |r| == 10 && r[2] == '.' && r[5] == '.'
      && AllDigits(r[..2]) && AllDigits(r[3..5]) && AllDigits(r[6..])
      && DigitsValue(r[..2]) == d.day
      && DigitsValue(r[3..5]) == d.month
      && DigitsValue(r[6..]) == d.year
  {
    FieldWidths(d);
    var dd, mm, yyyy := ZeroPad(d.day, 2), ZeroPad(d.month, 2), ZeroPad(d.year, 4);
    var r := FormatDate(d);
    assert r == dd + "." + mm + "." + yyyy;
    assert r[..2] == dd && r[3..5] == mm && r[6..] == yyyy;
    ZeroPadValue(d.day, 2);
    ZeroPadValue(d.month, 2);
    ZeroPadValue(d.year, 4);
  }

  /** The button layout "DD.MM" is the first five characters of "DD.MM.YYYY". */
  lemma DayMonthIsPrefix(d: Date)
    requires Valid(d)
    ensures FormatDayMonth(d) == FormatDate(d)[..5]
  {
    FieldWidths(d);
    assert FormatDate(d) == FormatDayMonth(d) + "." + ZeroPad(d.year, 4);
  }

  /** Both layouts stay on one line. */
  lemma FormatsOnOneLine(d: Date)
    ensures NoNewline(FormatDate(d)) && NoNewline(FormatDayMonth(d))
  {
    var r := FormatDate(d);
    assert forall i :: 0 <= i < |r| ==> r[i] == '.' || IsDigit(r[i]);
    var s := FormatDayMonth(d);
    assert forall i :: 0 <= i < |s| ==> s[i] == '.' || IsDigit(s[i]);
  }
}
