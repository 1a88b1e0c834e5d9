/*
 * OutFieldMapper and AbstractFieldWriter: the text each record is written
 * as.  Every writer fills a "%s %s ..." format with its columns, quoting
 * text columns that hold a space; most then trim the result, so absent
 * trailing optionals leave no trailing blank.  A voucher (VER) is written
 * as several lines: its own fields, a '{' line, one indented line per
 * transaction and a '}' line.
 */
module OutFieldMapper {
  import opened Wrappers
  import opened Text
  import opened Numbers
  import opened Calendar
  import opened Values
  import opened FieldParser
  import opened Items

  /** AbstractFieldWriter.quoted: the text in double quotes when it holds a space, otherwise unchanged. */
  function Quoted(s: string): string {
    if IndexOf(s, ' ') >= 0 then "\"" + s + "\"" else s
  }

  /** AbstractFieldWriter.writeItem: '#', the label, one space and the fields. */
  function WriteItem(t: ItemType, fields: string): string {
    "#" + TagName(t) + " " + fields
  }

  /** quantity().map(Object::toString).orElse("") */
  function DecimalOrEmpty(q: Option<Decimal>): string {
    match q
    case None => ""
    case Some(d) => FormatDecimal(d)
  }

  /** acqNo().map(Object::toString).orElse("") */
  function IntOrEmpty(n: Option<Int32>): string {
    match n
    case None => ""
    case Some(x) => FormatInt(x)
  }

  /** signature().map(AbstractFieldWriter::quoted).orElse("") */
  function QuotedOrEmpty(s: Option<string>): string {
    match s
    case None => ""
    case Some(x) => Quoted(x)
  }

  /** transactionDate().map(SIE4_DATE_FORMATTER::format).orElse("") */
  function DateOrEmpty(d: Option<LocalDate>): string {
    match d
    case None => ""
    case Some(x) => FormatDate(x)
  }

  /** objectReference().map(Object::toString).orElse("{}") */
  function ReferenceOrBraces(r: Option<ObjectReference>): string {
    match r
    case None => "{}"
    case Some(x) => ObjectReferenceText(x)
  }

  /** The "%d %s" text of one reference inside a transaction's brace group. */
  function ReferencePair(r: ObjectReference): string {
    FormatInt(r.dimensionNo) + " " + r.objectNo
  }

  /** A transaction's references: their pairs joined by spaces, in one pair of braces. */
  function ReferencesText(refs: seq<ObjectReference>): string {
    "{" + JoinSpace(seq(|refs|, i requires 0 <= i < |refs| => ReferencePair(refs[i]))) + "}"
  }

  /**
   * The text column of a transaction: the quoted text, or, when there is
   * no text but a quantity or a signature follows, an empty quoted field
   * to hold its place.
   */
  function TransactionText(tx: Transaction): string {
    match tx.text
    case Some(t) => Quoted(t)
    case None => if tx.quantity.Some? || tx.sign.Some? then "\"\"" else ""
  }

  /** writeTransactionFields: the seven columns of TRANS, RTRANS and BTRANS, then stripTrailing. */
  function TransactionFields(tx: Transaction): string {
    StripTrailing(JoinSpace([
      FormatInt(tx.accountNo), ReferencesText(tx.objectReferences), FormatDecimal(tx.amount),
      DateOrEmpty(tx.transactionDate), TransactionText(tx), DecimalOrEmpty(tx.quantity), QuotedOrEmpty(tx.sign)]))
  }

  /** A transaction inside a voucher: three spaces, then the transaction written as an item of its own label. */
  function TransactionLine(tx: Transaction): string {
    "   " + WriteItem(KindType(tx.kind), TransactionFields(tx))
  }

  /** One optional text column of a voucher: a space and the quoted text, or nothing. */
  function SpacedText(o: Option<string>): string {
    match o
    case None => ""
    case Some(t) => " " + Quoted(t)
  }

  /** The optional registration date of a voucher: a space and the date, or nothing. */
  function SpacedDate(o: Option<LocalDate>): string {
    match o
    case None => ""
    case Some(d) => " " + FormatDate(d)
  }

  /**
   * The voucher's own fields: the series with no space before it, then
   * the number, the date, the text, the registration date and the
   * signature, each after one space and each only when present.
   */
  function HeaderText(series: Option<string>, number: Option<string>, date: LocalDate,
                      text: Option<string>, regDate: Option<LocalDate>, sign: Option<string>): string
  {
    QuotedOrEmpty(series) + SpacedText(number) + " " + FormatDate(date)
    + SpacedText(text) + SpacedDate(regDate) + SpacedText(sign)
  }

  function VerHeader(v: Record): string
    requires v.Ver?
  {
    HeaderText(v.series, v.verificationNo, v.date, v.text, v.regDate, v.sign)
  }

  /** Each element rendered, in order. */
  function Rendered<T>(xs: seq<T>, render: T -> string): (r: seq<string>)
    ensures |r| == |xs| && forall i :: 0 <= i < |xs| ==> r[i] == render(xs[i])
  {
    seq(|xs|, i requires 0 <= i < |xs| => render(xs[i]))
  }

  /** A line feed and the rendered line of each element, in order. */
  function PrefixedLines<T>(xs: seq<T>, render: T -> string): string {
    if |xs| == 0 then ""
    else PrefixedLines(xs[..|xs| - 1], render) + "\n" + render(xs[|xs| - 1])
  }

  /** The fields the VER writer returns: the header, "\n{", the transaction lines and "\n}". */
  function VerFields(v: Record): string
    requires v.Ver?
  {
    VerHeader(v) + "\n{" + PrefixedLines(v.transactions, TransactionLine) + "\n}"
  }

  /**
   * The VER writer, appending to a buffer part by part as the
   * StringBuilder does: each ifPresent appends one optional column (or
   * nothing), then each transaction appends its line.
   */
  method WriteVerFields(v: Record) returns (s: string)
    requires v.Ver?
    ensures s == VerFields(v)
  {
    s := QuotedOrEmpty(v.series);
    s := s + SpacedText(v.verificationNo);
    s := s + " " + FormatDate(v.date);
    s := s + SpacedText(v.text);
    s := s + SpacedDate(v.regDate);
    s := s + SpacedText(v.sign);
    s := s + "\n{";
    s := AppendLines(s, v.transactions, TransactionLine);
    s := s + "\n}";
  }

  /** The forEach of the VER writer: a line feed and the line of each element, appended in order. */
  method AppendLines<T>(prefix: string, xs: seq<T>, render: T -> string) returns (s: string)
    ensures s == prefix + PrefixedLines(xs, render)
  {
    s := prefix;
    var i := 0;
    assert xs[..0] == [];
    while i < |xs|
      invariant 0 <= i <= |xs|
      invariant s == prefix + PrefixedLines(xs[..i], render)
    {
      assert xs[..i + 1][..i] == xs[..i];
      s := s + ("\n" + render(xs[i]));
      i := i + 1;
    }
    assert xs[..i] == xs;
  }

  /** ADRESS: contact, distribution address, postal address and telephone, each quoted when it holds a space. */
  function WriteAdress(contact: string, distribution: string, postal: string, tel: string): string {
    JoinSpace([Quoted(contact), Quoted(distribution), Quoted(postal), Quoted(tel)])
  }

  /** DIM, ENHET and KONTO: a number and a text quoted when it holds a space. */
  function WriteNumberedText(n: Int32, text: string): string {
    JoinSpace([FormatInt(n), Quoted(text)])
  }

  /** KTYP: the account and the account type's name. */
  function WriteKtyp(account: Int32, accountType: AccountType): string {
    JoinSpace([FormatInt(account), AccountTypeName(accountType)])
  }

  /** OBJEKT: dimension, object number and object name. */
  function WriteObjekt(dimension: Int32, objectNo: string, name: string): string {
    JoinSpace([FormatInt(dimension), Quoted(objectNo), Quoted(name)])
  }

  /** PROGRAM: program name and version. */
  function WriteProgram(name: string, version: string): string {
    JoinSpace([Quoted(name), Quoted(version)])
  }

  /** RAR: year number, start date and end date. */
  function WriteRar(yearNumber: YearNumber, start: LocalDate, end: LocalDate): string {
    JoinSpace([FormatInt(yearNumber), FormatDate(start), FormatDate(end)])
  }

  /** SRU: account and SRU code. */
  function WriteSru(account: Int32, code: Int32): string {
    JoinSpace([FormatInt(account), FormatInt(code)])
  }

  /** UNDERDIM: dimension, name and the superior dimension. */
  function WriteUnderdim(dimension: Int32, name: string, super: Int32): string {
    JoinSpace([FormatInt(dimension), Quoted(name), FormatInt(super)])
  }

  /** GEN: the date and the optional quoted signature, trimmed. */
  function WriteGen(date: LocalDate, signature: Option<string>): string {
    Trim(JoinSpace([FormatDate(date), QuotedOrEmpty(signature)]))
  }

  /** IB, RES and UB: year number, account, balance and the optional quantity, trimmed. */
  function WriteBalance(yearNumber: YearNumber, account: Int32, balance: Decimal, quantity: Option<Decimal>): string {
    Trim(JoinSpace([FormatInt(yearNumber), FormatInt(account), FormatDecimal(balance), DecimalOrEmpty(quantity)]))
  }

  /** OIB and OUB: year number, account, the reference, balance and the optional quantity, trimmed. */
  function WriteObjectBalance(yearNumber: YearNumber, account: Int32, reference: ObjectReference,
                              balance: Decimal, quantity: Option<Decimal>): string
  {
    Trim(JoinSpace([FormatInt(yearNumber), FormatInt(account), ObjectReferenceText(reference),
      FormatDecimal(balance), DecimalOrEmpty(quantity)]))
  }

  /** OMFATTN: the date, formatted yyyyMMdd. */
  function WriteOmfattn(date: LocalDate): string {
    FormatDate(date)
  }

  /** ORGNR: the quoted organisation number and the optional acquisition and activity numbers, trimmed. */
  function WriteOrgNr(orgNr: string, acqNo: Option<Int32>, actNo: Option<Int32>): string {
    Trim(JoinSpace([Quoted(orgNr), IntOrEmpty(acqNo), IntOrEmpty(actNo)]))
  }

  /**
   * PBUDGET and PSALDO: year number, period, account, the reference or
   * "{}", balance and the optional quantity, trimmed.  The period is
   * written as yyyyMM.
   */
  function WritePeriodBalance(yearNumber: YearNumber, period: Period, account: Int32,
                              reference: Option<ObjectReference>, balance: Decimal, quantity: Option<Decimal>): string
  {
    Trim(JoinSpace([FormatInt(yearNumber), FormatPeriod(period), FormatInt(account),
      ReferenceOrBraces(reference), FormatDecimal(balance), DecimalOrEmpty(quantity)]))
  }

  /**
   * The PBUDGET and PSALDO writers as the Java code has them: the period
   * goes through %s, that is through the toString the Period record
   * generates, which is not the yyyyMM form the reader expects.
   */
  function WritePeriodBalanceAsWritten(yearNumber: YearNumber, period: Period, account: Int32,
                                       reference: Option<ObjectReference>, balance: Decimal, quantity: Option<Decimal>): string
  {
    Trim(JoinSpace([FormatInt(yearNumber), RecordPeriodText(period), FormatInt(account),
      ReferenceOrBraces(reference), FormatDecimal(balance), DecimalOrEmpty(quantity)]))
  }

  /** The writer registry: the fields text of every record. */
  function WriteFields(r: Record): string {
    match r
    case Adress(contact, distribution, postal, tel) => WriteAdress(contact, distribution, postal, tel)
    case Bkod(code) => FormatInt(code)
    case Dim(dimension, name) => WriteNumberedText(dimension, name)
    case Enhet(account, unit) => WriteNumberedText(account, unit)
    case Flagga(flag) => FormatInt(flag)
    case Fnamn(name) => Quoted(name)
    case Fnr(id) => Quoted(id)
    case Format(format) => Quoted(format)
    case Ftyp(companyType) => CompanyTypeName(companyType)
    case Gen(date, signature) => WriteGen(date, signature)
    case Ib(year, account, balance, quantity) => WriteBalance(year, account, balance, quantity)
    case Konto(account, name) => WriteNumberedText(account, name)
    case Kptyp(kind) => Quoted(kind)
    case Ktyp(account, accountType) => WriteKtyp(account, accountType)
    case Objekt(dimension, objectNo, name) => WriteObjekt(dimension, objectNo, name)
    case Oib(year, account, reference, balance, quantity) => WriteObjectBalance(year, account, reference, balance, quantity)
    case Omfattn(date) => WriteOmfattn(date)
    case OrgNr(orgNr, acq, act) => WriteOrgNr(orgNr, acq, act)
    case Oub(year, account, reference, balance, quantity) => WriteObjectBalance(year, account, reference, balance, quantity)
    case Pbudget(year, period, account, reference, balance, quantity) =>
      WritePeriodBalance(year, period, account, reference, balance, quantity)
    case Program(name, version) => WriteProgram(name, version)
    case Prosa(comment) => Quoted(comment)
    case Psaldo(year, period, account, reference, balance, quantity) =>
      WritePeriodBalance(year, period, account, reference, balance, quantity)
    case Rar(year, start, end) => WriteRar(year, start, end)
    case Res(year, account, balance, quantity) => WriteBalance(year, account, balance, quantity)
    case Sietyp(typeNo) => FormatInt(typeNo)
    case Sru(account, code) => WriteSru(account, code)
    case Taxar(year) => FormatInt(year)
    case Ub(year, account, balance, quantity) => WriteBalance(year, account, balance, quantity)
    case Underdim(dimension, name, super) => WriteUnderdim(dimension, name, super)
    case Valuta(code) => Quoted(code)
    case Ver(_, _, _, _, _, _, _) => VerFields(r)
    case Tx(tx) => TransactionFields(tx)
  }

  /** toFileString: the record written under the label of its own type. */
  function FileString(r: Record): string {
    WriteItem(TypeOf(r), WriteFields(r))
  }

  /** The lines toFileString's text is made of: one for most records, the whole block for a voucher. */
  function FileLines(r: Record): seq<string> {
    if r.Ver? then
      ["#VER " + VerHeader(r), "{"] + Rendered(r.transactions, TransactionLine) + ["}"]
    else [FileString(r)]
  }
}
