/*
 * The small value records of SIE 4: year numbers, periods, object
 * references and financial years, with the checks their constructors make.
 */
module Values {
  import opened Wrappers
  import opened Text
  import opened Numbers
  import opened Calendar

  /** A year number: 0 for the current financial year, -1 for the one before, and so on. */
  type YearNumber = n: Int32 | n <= 0

  /** YearNumber.of and its constructor: a positive number is refused. */
  function YearNumberOf(n: Int32): (r: Result<YearNumber>)
    ensures r.Ok? <==> n <= 0
    ensures r.Ok? ==> r.value == n
  {
    if n > 0 then Err(InvalidValue(FormatInt(n))) else Ok(n)
  }

  datatype YearMonth = YearMonth(year: int, month: int)

  /** The ranges ChronoField.YEAR and ChronoField.MONTH_OF_YEAR accept. */
  predicate InPeriodRange(p: YearMonth) {
    -MAX_YEAR <= p.year <= MAX_YEAR && 1 <= p.month <= 12
  }

  /** A period: a year and a month of that year. */
  type Period = p: YearMonth | InPeriodRange(p) witness YearMonth(1970, 1)

  /** Period.of(int, int) and the record's constructor checks. */
  function PeriodOf(year: Int32, month: Int32): (r: Result<Period>)
    ensures r.Ok? <==> -MAX_YEAR <= year <= MAX_YEAR && 1 <= month <= 12
    ensures r.Ok? ==> r.value.year == year && r.value.month == month
  {
    if year < -MAX_YEAR || year > MAX_YEAR then Err(InvalidValue(FormatInt(year)))
    else if month < 1 || month > 12 then Err(InvalidValue(FormatInt(month)))
    else Ok(YearMonth(year, month))
  }

  /**
   * Period.of(String): a blank text is refused; otherwise the pattern
   * yyyyMM, six digits with a year of era from 1 and a month from 1 to 12.
   */
  function ParsePeriod(s: string): Result<Period> {
    if IsBlank(s) then Err(InvalidValue(s))
    else if |s| != 6 || !AllDigits(s) then Err(PeriodFormat(s))
    else
      var year := DigitsValue(s[..4]);
      var month := DigitsValue(s[4..]);
      AllDigitsSplit(s, 4);
      DigitsValueBound(s[..4]);
      assert Pow10(4) == 10000;
      if year < 1 || month < 1 || month > 12 then Err(PeriodFormat(s))
      else PeriodOf(year, month)
  }

  /** The text a period takes in a file: yyyyMM. */
  function FormatPeriod(p: Period): string {
    (if 0 <= p.year <= 9999 then PadZeros(NatDigits(p.year), 4) else FormatInt(p.year))
    + PadZeros(NatDigits(p.month), 2)
  }

  /** The text the record's generated toString gives a period, which the writer's %s would print. */
  function RecordPeriodText(p: Period): string {
    "Period[year=" + FormatInt(p.year) + ", month=" + FormatInt(p.month) + "]"
  }

  /** Reading a period back from the record's own text always fails. */
  lemma {:induction false} RecordPeriodTextUnreadable(p: Period)
    ensures ParsePeriod(RecordPeriodText(p)).Err?
  {
    var s := RecordPeriodText(p);
    assert s[0] == 'P' && !IsDigit(s[0]) && !IsWhitespace(s[0]);
  }

  /** The yyyyMM text of a year and a month that fit their fields, each padded with zeros. */
  function PeriodFields(year: nat, month: nat): string {
    PadZeros(NatDigits(year), 4) + PadZeros(NatDigits(month), 2)
  }

  /** The two fields of the text read back as the year and the month. */
  lemma {:induction false} PeriodFieldsValues(year: nat, month: nat)
    requires year <= 9999 && month <= 99
    ensures var s := PeriodFields(year, month);
      |s| == 6 && AllDigits(s) && DigitsValue(s[..4]) == year && DigitsValue(s[4..]) == month
  {
    var y := PadZeros(NatDigits(year), 4);
    var m := PadZeros(NatDigits(month), 2);
    assert Pow10(4) == 10000 && Pow10(2) == 100;
    PadZerosValue(year, 4);
    PadZerosValue(month, 2);
    AllDigitsConcat(y, m);
    var s := y + m;
    assert s[..4] == y && s[4..] == m;
  }

  /** A period of a four-digit year is printed as its two padded fields. */
  lemma {:induction false} FormatPeriodDigits(p: Period)
    requires 0 <= p.year <= 9999
    ensures FormatPeriod(p) == PeriodFields(p.year, p.month)
  {
  }

  /** Period.of(String) reads a year from 1 and a month from 1 to 12 as that period. */
  lemma {:induction false} ParsePeriodFields(year: nat, month: nat)
    requires 1 <= year <= 9999 && 1 <= month <= 12
    ensures ParsePeriod(PeriodFields(year, month)) == Ok(YearMonth(year, month))
  {
    var s := PeriodFields(year, month);
    PeriodFieldsValues(year, month);
    assert IsDigit(s[0]) && !IsWhitespace(s[0]);
    assert !IsBlank(s);
    assert PeriodOf(year, month) == Ok(YearMonth(year, month));
  }

  /** Period.of(String) refuses year zero and a month outside 1 to 12. */
  lemma {:induction false} ParsePeriodRejects(year: nat, month: nat)
    requires year <= 9999 && month <= 99
    requires year < 1 || month < 1 || month > 12
    ensures ParsePeriod(PeriodFields(year, month)).Err?
  {
    PeriodFieldsValues(year, month);
  }

  /** Period.of(String) refuses blank text. */
  lemma {:induction false} ParsePeriodBlank(s: string)
    requires IsBlank(s)
    ensures ParsePeriod(s).Err?
  {
  }

  /** Period.of(String) reads back every period of a four-digit year printed as yyyyMM. */
  lemma {:induction false} ParsePeriodFormat(p: Period)
    requires 1 <= p.year <= 9999
    ensures ParsePeriod(FormatPeriod(p)) == Ok(p)
  {
    FormatPeriodDigits(p);
    ParsePeriodFields(p.year, p.month);
  }

  /** An object reference: an object of a dimension. */
  datatype ObjectReference = ObjectReference(dimensionNo: Int32, objectNo: string)

  /** ObjectReference.toString: the dimension and the object number in braces. */
  function ObjectReferenceText(r: ObjectReference): string {
    "{" + FormatInt(r.dimensionNo) + " " + r.objectNo + "}"
  }

  /** A financial year from one date to another. */
  datatype FinancialYear = FinancialYear(from: LocalDate, to: LocalDate)

  /** FinancialYear's constructor: the end may equal the start but not come before it. */
  function NewFinancialYear(from: LocalDate, to: LocalDate): (r: Result<FinancialYear>)
    ensures r.Ok? <==> !IsBefore(to, from)
    ensures r.Ok? ==> r.value.from == from && r.value.to == to
  {
    if IsBefore(to, from) then Err(ToBeforeFrom) else Ok(FinancialYear(from, to))
  }

  /** FinancialYear.of: from a date to the day before the same date a year later. */
  function FinancialYearOf(from: LocalDate): Result<FinancialYear> {
    var anniversary :- PlusYears(from, 1);
    var to :- MinusOneDay(anniversary);
    NewFinancialYear(from, to)
  }

  /**
   * FinancialYear.of succeeds for every start date before the last
   * representable year, keeps the start, ends the day before the
   * anniversary, and never ends before it starts.
   */
  lemma {:induction false} FinancialYearOfSpansOneYear(from: LocalDate)
    requires from.year < MAX_YEAR
    ensures FinancialYearOf(from).Ok?
    ensures var fy := FinancialYearOf(from).value;
      fy.from == from && !IsBefore(fy.to, fy.from)
      && PlusYears(from, 1).Ok? && MinusOneDay(PlusYears(from, 1).value) == Ok(fy.to)
  {
    var anniversary := PlusYears(from, 1).value;
    var to := MinusOneDay(anniversary).value;
    assert !IsBefore(to, from);
  }

  /** FinancialYear.of on a calendar year, and on a leap day whose anniversary is moved back to 28 February. */
  lemma {:induction false} FinancialYearOfExamples()
    ensures FinancialYearOf(Date(2024, 1, 1)) == Ok(FinancialYear(Date(2024, 1, 1), Date(2024, 12, 31)))
    ensures FinancialYearOf(Date(2024, 2, 29)) == Ok(FinancialYear(Date(2024, 2, 29), Date(2025, 2, 27)))
    ensures FinancialYearOf(Date(2024, 7, 1)) == Ok(FinancialYear(Date(2024, 7, 1), Date(2025, 6, 30)))
  {
  }
}
