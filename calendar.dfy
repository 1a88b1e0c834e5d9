/*
 * java.time.LocalDate as far as SIE 4 needs it: the proleptic Gregorian
 * calendar from year 1, the yyyyMMdd pattern with the default (smart)
 * resolver, and adding a year or taking away a day.
 */
module Calendar {
  import opened Wrappers
  import opened Numbers

  /** The largest year LocalDate represents. */
  const MAX_YEAR: int := 999_999_999

  datatype Date = Date(year: int, month: int, day: int)

  predicate IsLeapYear(year: int) {
    year % 4 == 0 && (year % 100 != 0 || year % 400 == 0)
  }

  function MonthLength(year: int, month: int): int {
    if month == 2 then (if IsLeapYear(year) then 29 else 28)
    else if month == 4 || month == 6 || month == 9 || month == 11 then 30
    else 31
  }

  predicate ValidDate(d: Date) {
    1 <= d.year <= MAX_YEAR && 1 <= d.month <= 12 && 1 <= d.day <= MonthLength(d.year, d.month)
  }

  /** A LocalDate of the common era. */
  type LocalDate = d: Date | ValidDate(d) witness Date(1970, 1, 1)

  /** LocalDate.isBefore: calendar order. */
  predicate IsBefore(a: Date, b: Date) {
    a.year < b.year
    || (a.year == b.year && a.month < b.month)
    || (a.year == b.year && a.month == b.month && a.day < b.day)
  }

  function Min(a: int, b: int): int {
    if a <= b then a else b
  }

  /**
   * LocalDate.parse with the pattern yyyyMMdd and the smart resolver: eight
   * digits, a year of era from 1, a month from 1 to 12 and a day from 1 to
   * 31, where a day past the end of its month is moved back to the last
   * day of that month.
   */
  function ParseDate(s: string): Result<LocalDate> {
    if |s| != 8 || !AllDigits(s) then Err(DateFormat(s))
    else
      var year := DigitsValue(s[..4]);
      var month := DigitsValue(s[4..6]);
      var day := DigitsValue(s[6..]);
      AllDigitsSplit(s, 4);
      DigitsValueBound(s[..4]);
      assert Pow10(4) == 10000;
      if year < 1 || month < 1 || month > 12 || day < 1 || day > 31 then Err(DateFormat(s))
      else Ok(Date(year, month, Min(day, MonthLength(year, month))))
  }

  /** `digits` padded on the left with zeros to `width` characters. */
  function PadZeros(digits: string, width: nat): string {
    if |digits| < width then Zeros(width - |digits|) + digits else digits
  }

  /** The yyyy field: four digits, and a plus sign before longer years. */
  function FormatYear(year: nat): string {
    if year <= 9999 then PadZeros(NatDigits(year), 4) else "+" + NatDigits(year)
  }

  /** LocalDate.format with the pattern yyyyMMdd. */
  function FormatDate(d: LocalDate): string {
    FormatYear(d.year) + PadZeros(NatDigits(d.month), 2) + PadZeros(NatDigits(d.day), 2)
  }

  lemma {:induction false} NatDigitsWidth(n: nat, width: nat)
    requires 1 <= width && n < Pow10(width)
    ensures |NatDigits(n)| <= width
  {
    if n >= 10 {
      NatDigitsWidth(n / 10, width - 1);
    }
  }

  /** A number below 10^width, padded to width, is `width` digits reading back as the number. */
  lemma {:induction false} PadZerosValue(n: nat, width: nat)
    requires 1 <= width && n < Pow10(width)
    ensures |PadZeros(NatDigits(n), width)| == width
    ensures AllDigits(PadZeros(NatDigits(n), width))
    ensures DigitsValue(PadZeros(NatDigits(n), width)) == n
  {
    var digits := NatDigits(n);
    NatDigitsWidth(n, width);
    if |digits| < width {
      LeadingZeros(width - |digits|, digits);
      AllDigitsConcat(Zeros(width - |digits|), digits);
    }
  }

  /** The yyyyMMdd text of a year, a month and a day that fit their fields, each padded with zeros. */
  function DigitFields(year: nat, month: nat, day: nat): string {
    PadZeros(NatDigits(year), 4) + PadZeros(NatDigits(month), 2) + PadZeros(NatDigits(day), 2)
  }

  /** The three fields of the text read back as the year, the month and the day. */
  lemma {:induction false} DigitFieldsValues(year: nat, month: nat, day: nat)
    requires year <= 9999 && month <= 99 && day <= 99
    ensures var s := DigitFields(year, month, day);
      |s| == 8 && AllDigits(s)
      && DigitsValue(s[..4]) == year && DigitsValue(s[4..6]) == month && DigitsValue(s[6..]) == day
  {
    var y := PadZeros(NatDigits(year), 4);
    var m := PadZeros(NatDigits(month), 2);
    var dd := PadZeros(NatDigits(day), 2);
    assert Pow10(4) == 10000 && Pow10(2) == 100;
    PadZerosValue(year, 4);
    PadZerosValue(month, 2);
    PadZerosValue(day, 2);
    var s := y + m + dd;
    AllDigitsConcat(y, m);
    AllDigitsConcat(y + m, dd);
    assert s[..4] == y;
    assert s[4..6] == m;
    assert s[6..] == dd;
  }

  /** A date whose year has at most four digits is printed as its three padded fields. */
  lemma {:induction false} FormatDateDigits(d: LocalDate)
    requires d.year <= 9999
    ensures FormatDate(d) == DigitFields(d.year, d.month, d.day)
  {
  }

  /**
   * The smart resolver: a year from 1, a month from 1 to 12 and a day from
   * 1 to 31 make a date, and a day past the end of its month becomes the
   * month's last day.
   */
  lemma {:induction false} ParseDateClampsDay(year: nat, month: nat, day: nat)
    requires 1 <= year <= 9999 && 1 <= month <= 12 && 1 <= day <= 31
    ensures ParseDate(DigitFields(year, month, day)) == Ok(Date(year, month, Min(day, MonthLength(year, month))))
  {
    DigitFieldsValues(year, month, day);
  }

  /** A year zero, a month outside 1 to 12 or a day outside 1 to 31 is refused. */
  lemma {:induction false} ParseDateRejects(year: nat, month: nat, day: nat)
    requires year <= 9999 && month <= 99 && day <= 99
    requires year < 1 || month < 1 || month > 12 || day < 1 || day > 31
    ensures ParseDate(DigitFields(year, month, day)).Err?
  {
    DigitFieldsValues(year, month, day);
  }

  /** Parsing reads back every printed date whose year has at most four digits. */
  lemma {:induction false} ParseDateFormatDate(d: LocalDate)
    requires d.year <= 9999
    ensures ParseDate(FormatDate(d)) == Ok(d)
  {
    FormatDateDigits(d);
    ParseDateClampsDay(d.year, d.month, d.day);
  }

  /** LocalDate.plusYears: the same month and day a number of years later, the day moved back when the month is shorter. */
  function PlusYears(d: LocalDate, years: nat): Result<LocalDate> {
    var year := d.year + years;
    if year > MAX_YEAR then Err(DateOutOfRange)
    else Ok(Date(year, d.month, Min(d.day, MonthLength(year, d.month))))
  }

  /** LocalDate.minusDays(1). */
  function MinusOneDay(d: LocalDate): Result<LocalDate> {
    if d.day > 1 then Ok(Date(d.year, d.month, d.day - 1))
    else if d.month > 1 then Ok(Date(d.year, d.month - 1, MonthLength(d.year, d.month - 1)))
    else if d.year > 1 then Ok(Date(d.year - 1, 12, 31))
    else Err(DateOutOfRange)
  }
}
