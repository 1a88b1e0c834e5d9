/*
 * The line parser: splitting an item line into its label and its fields,
 * one parser per label turning the tokens of the fields into a record,
 * and the two entry points, one for a single line and one for a VER
 * block (the VER line followed by its transaction lines).
 *
 * InFieldMapper (producing SIE4Item) and FieldMapper (producing FileItem)
 * apply the same rules and differ only in the exception class they throw;
 * both are modelled by this module.
 */
module InFieldMapper {
  import opened Wrappers
  import opened Text
  import opened Numbers
  import opened Calendar
  import opened Values
  import opened FieldParser
  import opened Items

  /*
   * Field readers shared by the parsers.
   */

  /** fields.get(i): the field, or an index error past the end. */
  function FieldAt(f: seq<string>, i: nat): (r: Result<string>)
    ensures r.Ok? <==> i < |f|
    ensures r.Ok? ==> r.value == f[i]
  {
    if i < |f| then Ok(f[i]) else Err(MissingField(i))
  }

  /** YearNumber.of(Integer.parseInt(text)). */
  function ParseYearNumber(text: string): (r: Result<YearNumber>)
    ensures r.Ok? ==> ParseInt(text) == Ok(r.value)
  {
    var n :- ParseInt(text);
    YearNumberOf(n)
  }

  /** The trailing quantity of a balance: read with new BigDecimal when the column is there. */
  function TrailingQuantity(f: seq<string>, i: nat): (r: Result<Option<Decimal>>)
    ensures i >= |f| ==> r == Ok(None)
    ensures i < |f| ==> (r.Ok? <==> ParseDecimal(f[i]).Ok?)
    ensures i < |f| && r.Ok? ==> r.value == Some(ParseDecimal(f[i]).value)
  {
    if i < |f| then
      var q :- ParseDecimal(f[i]);
      Ok(Some(q))
    else Ok(None)
  }

  /** parseOptionalField(text).map(LocalDate::parse) */
  function OptionalDate(text: string): (r: Result<Option<LocalDate>>)
    ensures text == "" ==> r == Ok(None)
    ensures text != "" ==> (r.Ok? <==> ParseDate(text).Ok?)
    ensures text != "" && r.Ok? ==> r.value == Some(ParseDate(text).value)
  {
    match ParseOptionalField(text)
    case None => Ok(None)
    case Some(v) =>
      var d :- ParseDate(v);
      Ok(Some(d))
  }

  /** parseOptionalField(text).map(BigDecimal::new) */
  function OptionalDecimal(text: string): (r: Result<Option<Decimal>>)
    ensures text == "" ==> r == Ok(None)
    ensures text != "" ==> (r.Ok? <==> ParseDecimal(text).Ok?)
    ensures text != "" && r.Ok? ==> r.value == Some(ParseDecimal(text).value)
  {
    match ParseOptionalField(text)
    case None => Ok(None)
    case Some(v) =>
      var d :- ParseDecimal(v);
      Ok(Some(d))
  }

  /** A column read with parseOptionalField only when it is there. */
  function OptionalColumn(f: seq<string>, i: nat): (r: Option<string>)
    ensures r.Some? <==> i < |f| && f[i] != ""
    ensures r.Some? ==> r.value == f[i]
  {
    if i < |f| then ParseOptionalField(f[i]) else None
  }

  /** AccountType.valueOf(text.toUpperCase()) */
  function AccountTypeOf(text: string): Result<AccountType> {
    var u := ToUpper(text);
    if u == "T" then Ok(T)
    else if u == "S" then Ok(S)
    else if u == "K" then Ok(K)
    else if u == "I" then Ok(I)
    else Err(InvalidValue(text))
  }

  /** CompanyType.valueOf(text.toUpperCase()) */
  function CompanyTypeOf(text: string): Result<CompanyType> {
    if ToUpper(text) == "AB" then Ok(AB) else Err(InvalidValue(text))
  }

  /** An account type is read from its name in any mix of upper and lower case, and from nothing else. */
  lemma {:induction false} AccountTypeOfName(text: string, a: AccountType)
    ensures AccountTypeOf(text) == Ok(a) <==> ToUpper(text) == AccountTypeName(a)
  {
  }

  /** A company type is read from its name in any mix of upper and lower case, and from nothing else. */
  lemma {:induction false} CompanyTypeOfName(text: string, c: CompanyType)
    ensures CompanyTypeOf(text) == Ok(c) <==> ToUpper(text) == CompanyTypeName(c)
  {
  }

  /*
   * One parser per label.  Each checks its own field count first, as the
   * Java parsers do, and then reads its columns in the order the Java
   * code evaluates them, so the first failing column decides the error.
   */

  /** ADRESS: contact, distribution address, postal address and telephone, taken as they are. */
  function ParseAdress(f: seq<string>): (r: Result<Record>)
    ensures r.Ok? <==> |f| == 4
    ensures r.Ok? ==> r.value.Adress? && r.value == Adress(f[0], f[1], f[2], f[3])
  {
    if |f| != 4 then Err(FieldCount("ADRESS"))
    else Ok(Adress(f[0], f[1], f[2], f[3]))
  }

  /** BKOD, FLAGGA, SIETYP and TAXAR: one int field. */
  function ParseIntItem(t: ItemType, f: seq<string>): (r: Result<Record>)
    requires t == BKOD || t == FLAGGA || t == SIETYP || t == TAXAR
    ensures r.Ok? <==> |f| == 1 && ParseInt(f[0]).Ok?
    ensures r.Ok? ==> (t == BKOD ==> r.value.Bkod?) && (t == FLAGGA ==> r.value.Flagga?)
    ensures r.Ok? ==> (t == SIETYP ==> r.value.Sietyp?) && (t == TAXAR ==> r.value.Taxar?)
  {
    if |f| != 1 then Err(FieldCount(TagName(t)))
    else
      var n :- ParseInt(f[0]);
      if t == BKOD then Ok(Bkod(n))
      else if t == FLAGGA then Ok(Flagga(n))
      else if t == SIETYP then Ok(Sietyp(n))
      else Ok(Taxar(n))
  }

  /** FNAMN, FNR, KPTYP, PROSA and VALUTA: one text field, taken as it is. */
  function ParseTextItem(t: ItemType, f: seq<string>): (r: Result<Record>)
    requires t == FNAMN || t == FNR || t == KPTYP || t == PROSA || t == VALUTA
    ensures r.Ok? <==> |f| == 1
    ensures r.Ok? ==> (t == FNAMN ==> r.value == Fnamn(f[0])) && (t == FNR ==> r.value == Fnr(f[0]))
    ensures r.Ok? ==> (t == KPTYP ==> r.value == Kptyp(f[0])) && (t == PROSA ==> r.value == Prosa(f[0]))
    ensures r.Ok? ==> (t == VALUTA ==> r.value == Valuta(f[0]))
  {
    if |f| != 1 then Err(FieldCount(TagName(t)))
    else if t == FNAMN then Ok(Fnamn(f[0]))
    else if t == FNR then Ok(Fnr(f[0]))
    else if t == KPTYP then Ok(Kptyp(f[0]))
    else if t == PROSA then Ok(Prosa(f[0]))
    else Ok(Valuta(f[0]))
  }

  /** DIM, ENHET and KONTO: an int and a text. */
  function ParseNumberedItem(t: ItemType, f: seq<string>): (r: Result<Record>)
    requires t == DIM || t == ENHET || t == KONTO
    ensures r.Ok? <==> |f| == 2 && ParseInt(f[0]).Ok?
    ensures r.Ok? ==> (t == DIM ==> r.value.Dim?) && (t == ENHET ==> r.value.Enhet?) && (t == KONTO ==> r.value.Konto?)
  {
    if |f| != 2 then Err(FieldCount(TagName(t)))
    else
      var n :- ParseInt(f[0]);
      if t == DIM then Ok(Dim(n, f[1]))
      else if t == ENHET then Ok(Enhet(n, f[1]))
      else Ok(Konto(n, f[1]))
  }

  /** FORMAT: one field, which must read PC8 in some mix of cases, and is kept as written. */
  function ParseFormat(f: seq<string>): (r: Result<Record>)
    ensures r.Ok? <==> |f| == 1 && EqualsIgnoreCase(f[0], "PC8")
    ensures r.Ok? ==> r.value == Format(f[0])
  {
    if |f| != 1 then Err(FieldCount("FORMAT"))
    else if !EqualsIgnoreCase(f[0], "PC8") then Err(InvalidValue(f[0]))
    else Ok(Format(f[0]))
  }

  /** FTYP: one company type. */
  function ParseFtyp(f: seq<string>): (r: Result<Record>)
    ensures r.Ok? <==> |f| == 1 && CompanyTypeOf(f[0]).Ok?
    ensures r.Ok? ==> r.value.Ftyp?
  {
    if |f| != 1 then Err(FieldCount("FTYP"))
    else
      var c :- CompanyTypeOf(f[0]);
      Ok(Ftyp(c))
  }

  /** GEN: a date and, optionally, a signature. */
  function ParseGen(f: seq<string>): (r: Result<Record>)
    ensures r.Ok? ==> 1 <= |f| <= 2 && r.value.Gen?
    ensures r.Ok? ==> ParseDate(f[0]) == Ok(r.value.date)
    ensures r.Ok? ==> r.value.signature == OptionalColumn(f, 1)
  {
    if |f| < 1 || |f| > 2 then Err(FieldCount("GEN"))
    else
      var date :- ParseDate(f[0]);
      Ok(Gen(date, OptionalColumn(f, 1)))
  }

  /** IB, RES and UB: year number, account, balance and an optional quantity. */
  function ParseBalance(t: ItemType, f: seq<string>): (r: Result<Record>)
    requires t == IB || t == RES || t == UB
    ensures r.Ok? ==> 3 <= |f| <= 4
    ensures r.Ok? ==> (t == IB ==> r.value.Ib?) && (t == RES ==> r.value.Res?) && (t == UB ==> r.value.Ub?)
    ensures r.Ok? ==> ParseDecimal(f[2]).Ok? && (|f| == 4 ==> ParseDecimal(f[3]).Ok?)
    ensures r.Ok? ==> ParseYearNumber(f[0]) == Ok(r.value.yearNumber)
    ensures r.Ok? ==> ParseInt(f[1]) == Ok(if t == UB then r.value.account else r.value.accountNo)
    ensures r.Ok? ==> ParseDecimal(f[2]) == Ok(r.value.balance)
    ensures r.Ok? ==> r.value.quantity == if |f| == 4 then Some(ParseDecimal(f[3]).value) else None
  {
    if |f| < 3 || |f| > 4 then Err(FieldCount(TagName(t)))
    else if t == IB then
      var quantity :- TrailingQuantity(f, 3);
      var year :- ParseYearNumber(f[0]);
      var account :- ParseInt(f[1]);
      var balance :- ParseDecimal(f[2]);
      Ok(Ib(year, account, balance, quantity))
    else
      var year :- ParseYearNumber(f[0]);
      var account :- ParseInt(f[1]);
      var balance :- ParseDecimal(f[2]);
      var quantity :- TrailingQuantity(f, 3);
      if t == RES then Ok(Res(year, account, balance, quantity))
      else Ok(Ub(year, account, balance, quantity))
  }

  /** KTYP: an account and its account type. */
  function ParseKtyp(f: seq<string>): (r: Result<Record>)
    ensures r.Ok? <==> |f| == 2 && ParseInt(f[0]).Ok? && AccountTypeOf(f[1]).Ok?
    ensures r.Ok? ==> r.value.Ktyp? && AccountTypeOf(f[1]) == Ok(r.value.accountType)
  {
    if |f| != 2 then Err(FieldCount("KTYP"))
    else
      var account :- ParseInt(f[0]);
      var kind :- AccountTypeOf(f[1]);
      Ok(Ktyp(account, kind))
  }

  /** OBJEKT: dimension, object number and object name. */
  function ParseObjekt(f: seq<string>): (r: Result<Record>)
    ensures r.Ok? <==> |f| == 3 && ParseInt(f[0]).Ok?
    ensures r.Ok? ==> r.value.Objekt? && r.value.objectNo == f[1] && r.value.objectName == f[2]
  {
    if |f| != 3 then Err(FieldCount("OBJEKT"))
    else
      var dimension :- ParseInt(f[0]);
      Ok(Objekt(dimension, f[1], f[2]))
  }

  /** parseObjectReferences followed by the check of OIB and OUB that there is exactly one reference. */
  function SingleReference(t: ItemType, text: string): (r: Result<ObjectReference>)
    ensures r.Ok? <==> ParseObjectReferences(text).Ok? && |ParseObjectReferences(text).value| == 1
    ensures r.Ok? ==> ParseObjectReferences(text) == Ok([r.value])
  {
    var references :- ParseObjectReferences(text);
    if |references| != 1 then Err(ObjectReferenceCount(TagName(t)))
    else
      assert references == [references[0]];
      Ok(references[0])
  }

  /** OIB and OUB: year number, account, exactly one object reference, balance and an optional quantity. */
  function ParseObjectBalance(t: ItemType, f: seq<string>): (r: Result<Record>)
    requires t == OIB || t == OUB
    ensures r.Ok? ==> 4 <= |f| <= 5 && (if t == OIB then r.value.Oib? else r.value.Oub?)
    ensures r.Ok? ==> SingleReference(t, f[2]) == Ok(r.value.objectReference)
    ensures r.Ok? ==> ParseDecimal(f[3]).Ok? && (|f| == 5 ==> ParseDecimal(f[4]).Ok?)
    ensures r.Ok? ==> ParseYearNumber(f[0]) == Ok(r.value.yearNumber) && ParseInt(f[1]) == Ok(r.value.accountNo)
    ensures r.Ok? ==> ParseDecimal(f[3]) == Ok(r.value.balance)
    ensures r.Ok? ==> r.value.quantity == if |f| == 5 then Some(ParseDecimal(f[4]).value) else None
  {
    if |f| < 4 || |f| > 5 then Err(FieldCount(TagName(t)))
    else
      var year :- ParseYearNumber(f[0]);
      var account :- ParseInt(f[1]);
      var reference :- SingleReference(t, f[2]);
      var balance :- ParseDecimal(f[3]);
      var quantity :- TrailingQuantity(f, 4);
      if t == OIB then Ok(Oib(year, account, reference, balance, quantity))
      else Ok(Oub(year, account, reference, balance, quantity))
  }

  /** OMFATTN: one date. */
  function ParseOmfattn(f: seq<string>): (r: Result<Record>)
    ensures r.Ok? <==> |f| == 1 && ParseDate(f[0]).Ok?
    ensures r.Ok? ==> r.value == Omfattn(ParseDate(f[0]).value)
  {
    if |f| != 1 then Err(FieldCount("OMFATTN"))
    else
      var date :- ParseDate(f[0]);
      Ok(Omfattn(date))
  }

  /** ORGNR: the organisation number and, when their columns are there, the acquisition and activity numbers. */
  function ParseOrgNr(f: seq<string>): (r: Result<Record>)
    ensures r.Ok? ==> 1 <= |f| <= 3 && r.value.OrgNr? && r.value.orgNr == f[0]
    ensures r.Ok? ==> (r.value.acqNo.Some? <==> |f| > 1) && (r.value.actNo.Some? <==> |f| > 2)
    ensures r.Ok? && |f| > 1 ==> ParseInt(f[1]) == Ok(r.value.acqNo.value)
    ensures r.Ok? && |f| > 2 ==> ParseInt(f[2]) == Ok(r.value.actNo.value)
  {
    if |f| < 1 || |f| > 3 then Err(FieldCount("ORGNR"))
    else
      var acq :- if |f| > 1 then (var n :- ParseInt(f[1]); Ok(Some(n))) else Ok(None);
      var act :- if |f| > 2 then (var n :- ParseInt(f[2]); Ok(Some(n))) else Ok(None);
      Ok(OrgNr(f[0], acq, act))
  }

  /** parseObjectReferences followed by the check of PBUDGET and PSALDO that there is at most one reference, and findFirst. */
  function OptionalReference(t: ItemType, text: string): (r: Result<Option<ObjectReference>>)
    ensures r.Ok? <==> ParseObjectReferences(text).Ok? && |ParseObjectReferences(text).value| <= 1
    ensures r.Ok? && r.value.None? ==> ParseObjectReferences(text) == Ok([])
    ensures r.Ok? && r.value.Some? ==> ParseObjectReferences(text) == Ok([r.value.value])
  {
    var references :- ParseObjectReferences(text);
    if |references| > 1 then Err(ObjectReferenceCount(TagName(t)))
    else if |references| == 0 then Ok(None)
    else
      assert references == [references[0]];
      Ok(Some(references[0]))
  }

  /** PBUDGET and PSALDO: year number, period, account, at most one object reference, balance and an optional quantity. */
  function ParsePeriodBalance(t: ItemType, f: seq<string>): (r: Result<Record>)
    requires t == PBUDGET || t == PSALDO
    ensures r.Ok? ==> 5 <= |f| <= 6 && (if t == PBUDGET then r.value.Pbudget? else r.value.Psaldo?)
    ensures r.Ok? ==> ParsePeriod(f[1]) == Ok(r.value.period)
    ensures r.Ok? ==> OptionalReference(t, f[3]) == Ok(r.value.optionalObjectReference)
    ensures r.Ok? ==> ParseDecimal(f[4]).Ok? && (|f| == 6 ==> ParseDecimal(f[5]).Ok?)
    ensures r.Ok? ==> ParseYearNumber(f[0]) == Ok(r.value.yearNumber) && ParseInt(f[2]) == Ok(r.value.accountNo)
    ensures r.Ok? ==> ParseDecimal(f[4]) == Ok(r.value.balance)
    ensures r.Ok? ==> r.value.quantity == if |f| == 6 then Some(ParseDecimal(f[5]).value) else None
  {
    if |f| < 5 || |f| > 6 then Err(FieldCount(TagName(t)))
    else
      var year :- ParseYearNumber(f[0]);
      var period :- ParsePeriod(f[1]);
      var account :- ParseInt(f[2]);
      var reference :- OptionalReference(t, f[3]);
      var balance :- ParseDecimal(f[4]);
      var quantity :- TrailingQuantity(f, 5);
      if t == PBUDGET then Ok(Pbudget(year, period, account, reference, balance, quantity))
      else Ok(Psaldo(year, period, account, reference, balance, quantity))
  }

  /** PROGRAM: program name and version, taken as they are. */
  function ParseProgram(f: seq<string>): (r: Result<Record>)
    ensures r.Ok? <==> |f| == 2
    ensures r.Ok? ==> r.value == Program(f[0], f[1])
  {
    if |f| != 2 then Err(FieldCount("PROGRAM"))
    else Ok(Program(f[0], f[1]))
  }

  /** RAR: year number, first day and last day. */
  function ParseRar(f: seq<string>): (r: Result<Record>)
    ensures r.Ok? ==> |f| == 3 && r.value.Rar?
    ensures r.Ok? ==> ParseDate(f[1]) == Ok(r.value.start) && ParseDate(f[2]) == Ok(r.value.end)
    ensures r.Ok? ==> ParseYearNumber(f[0]) == Ok(r.value.yearNumber)
  {
    if |f| != 3 then Err(FieldCount("RAR"))
    else
      var year :- ParseYearNumber(f[0]);
      var start :- ParseDate(f[1]);
      var end :- ParseDate(f[2]);
      Ok(Rar(year, start, end))
  }

  /** SRU: an account and its SRU code. */
  function ParseSru(f: seq<string>): (r: Result<Record>)
    ensures r.Ok? <==> |f| == 2 && ParseInt(f[0]).Ok? && ParseInt(f[1]).Ok?
    ensures r.Ok? ==> r.value.Sru?
  {
    if |f| != 2 then Err(FieldCount("SRU"))
    else
      var account :- ParseInt(f[0]);
      var code :- ParseInt(f[1]);
      Ok(Sru(account, code))
  }

  /** UNDERDIM: dimension, name and superior dimension. */
  function ParseUnderdim(f: seq<string>): (r: Result<Record>)
    ensures r.Ok? <==> |f| == 3 && ParseInt(f[0]).Ok? && ParseInt(f[2]).Ok?
    ensures r.Ok? ==> r.value.Underdim? && r.value.name == f[1]
  {
    if |f| != 3 then Err(FieldCount("UNDERDIM"))
    else
      var dimension :- ParseInt(f[0]);
      var super :- ParseInt(f[2]);
      Ok(Underdim(dimension, f[1], super))
  }

  /**
   * TRANS, RTRANS and BTRANS: account, object references and amount, then
   * the optional date, text, quantity and signature, each absent when its
   * column is missing or empty.  The declared minimum is two fields, but
   * the amount column is read unconditionally, so two fields fail.
   */
  function ParseTransaction(kind: TransKind, f: seq<string>): (r: Result<Transaction>)
    ensures r.Ok? ==> 3 <= |f| <= 7 && r.value.kind == kind
    ensures r.Ok? ==> ParseInt(f[0]) == Ok(r.value.accountNo) && ParseDecimal(f[2]) == Ok(r.value.amount)
    ensures r.Ok? ==> ParseObjectReferences(f[1]) == Ok(r.value.objectReferences)
    ensures r.Ok? ==> (r.value.transactionDate.Some? <==> |f| > 3 && f[3] != "")
    ensures r.Ok? ==> r.value.text == OptionalColumn(f, 4)
    ensures r.Ok? ==> (r.value.quantity.Some? <==> |f| > 5 && f[5] != "")
    ensures r.Ok? ==> r.value.sign == OptionalColumn(f, 6)
    ensures r.Ok? && r.value.transactionDate.Some? ==> ParseDate(f[3]) == Ok(r.value.transactionDate.value)
    ensures r.Ok? && r.value.quantity.Some? ==> ParseDecimal(f[5]) == Ok(r.value.quantity.value)
  {
    if |f| < 2 || |f| > 7 then Err(FieldCount(TagName(KindType(kind))))
    else
      var account :- ParseInt(f[0]);
      var references :- ParseObjectReferences(f[1]);
      var amountText :- FieldAt(f, 2);
      var amount :- ParseDecimal(amountText);
      var date :- if |f| > 3 then OptionalDate(f[3]) else Ok(None);
      var text := OptionalColumn(f, 4);
      var quantity :- if |f| > 5 then OptionalDecimal(f[5]) else Ok(None);
      var sign := OptionalColumn(f, 6);
      Ok(Transaction(kind, account, amount, references, date, text, quantity, sign))
  }

  /** Every sub-item of a VER block is a transaction. */
  predicate AllTransactions(subItems: seq<Record>) {
    forall i :: 0 <= i < |subItems| ==> subItems[i].Tx?
  }

  /** The cast of each sub-item to Transaction. */
  function Transactions(subItems: seq<Record>): (r: seq<Transaction>)
    requires AllTransactions(subItems)
    ensures |r| == |subItems| && forall i :: 0 <= i < |r| ==> subItems[i] == Tx(r[i])
  {
    seq(|subItems|, i requires 0 <= i < |subItems| => subItems[i].tx)
  }

  /** The records a voucher's transactions are read as, one per transaction line. */
  function TxRecords(v: Record): (r: seq<Record>)
    requires v.Ver?
    ensures |r| == |v.transactions| && forall i :: 0 <= i < |r| ==> r[i] == Tx(v.transactions[i])
  {
    seq(|v.transactions|, i requires 0 <= i < |v.transactions| => Tx(v.transactions[i]))
  }

  /**
   * VER: series, verification number and date, then the optional text,
   * registration date and signature; the sub-items must all be
   * transactions and become the voucher's transactions in order.  The
   * declared minimum is one field, but the number and date columns are
   * read unconditionally, so fewer than three fields fail.
   */
  function ParseVer(f: seq<string>, subItems: seq<Record>): (r: Result<Record>)
    ensures r.Ok? ==> 3 <= |f| <= 6 && r.value.Ver?
    ensures r.Ok? ==> r.value.series == OptionalColumn(f, 0) && r.value.verificationNo == OptionalColumn(f, 1)
    ensures r.Ok? ==> ParseDate(f[2]) == Ok(r.value.date)
    ensures r.Ok? ==> r.value.text == OptionalColumn(f, 3) && r.value.sign == OptionalColumn(f, 5)
    ensures r.Ok? ==> (r.value.regDate.Some? <==> |f| > 4 && f[4] != "")
    ensures r.Ok? && r.value.regDate.Some? ==> ParseDate(f[4]) == Ok(r.value.regDate.value)
    ensures !AllTransactions(subItems) ==> r.Err?
    ensures r.Ok? ==> |r.value.transactions| == |subItems|
    ensures r.Ok? ==> forall i :: 0 <= i < |subItems| ==> subItems[i] == Tx(r.value.transactions[i])
  {
    if |f| < 1 || |f| > 6 then Err(FieldCount("VER"))
    else
      var series := ParseOptionalField(f[0]);
      var numberText :- FieldAt(f, 1);
      var number := ParseOptionalField(numberText);
      var dateText :- FieldAt(f, 2);
      var date :- ParseDate(dateText);
      var text := OptionalColumn(f, 3);
      var regDate :- if |f| > 4 then OptionalDate(f[4]) else Ok(None);
      var sign := OptionalColumn(f, 5);
      if !AllTransactions(subItems) then Err(NotTransaction)
      else Ok(Ver(date, series, number, text, regDate, sign, Transactions(subItems)))
  }

  /** The field counts each parser accepts, from its own count check. */
  function MinFields(t: ItemType): nat {
    match t
    case ADRESS => 4 case IB => 3 case RES => 3 case UB => 3 case OIB => 4 case OUB => 4
    case PBUDGET => 5 case PSALDO => 5 case DIM => 2 case ENHET => 2 case KONTO => 2 case KTYP => 2
    case PROGRAM => 2 case SRU => 2 case OBJEKT => 3 case RAR => 3 case UNDERDIM => 3
    case TRANS => 2 case RTRANS => 2 case BTRANS => 2
    case _ => 1
  }

  function MaxFields(t: ItemType): nat {
    match t
    case ADRESS => 4 case IB => 4 case RES => 4 case UB => 4 case OIB => 5 case OUB => 5
    case PBUDGET => 6 case PSALDO => 6 case DIM => 2 case ENHET => 2 case KONTO => 2 case KTYP => 2
    case PROGRAM => 2 case SRU => 2 case OBJEKT => 3 case RAR => 3 case UNDERDIM => 3
    case GEN => 2 case ORGNR => 3 case TRANS => 7 case RTRANS => 7 case BTRANS => 7 case VER => 6
    case _ => 1
  }

  /**
   * The parser registry: the parser of each label applied to the tokens
   * of its fields.  Only VER looks at the sub-items.
   */
  function ParseFields(t: ItemType, f: seq<string>, subItems: seq<Record>): Result<Record> {
    match t
    case TRANS => AsRecord(ParseTransaction(Trans, f))
    case RTRANS => AsRecord(ParseTransaction(Rtrans, f))
    case BTRANS => AsRecord(ParseTransaction(Btrans, f))
    case VER => ParseVer(f, subItems)
    case _ => ParseItemFields(t, f)
  }

  /** The registry's parsers of the labels that are neither a transaction nor VER. */
  function ParseItemFields(t: ItemType, f: seq<string>): Result<Record>
    requires t !in {TRANS, RTRANS, BTRANS, VER}
  {
    match t
    case ADRESS => ParseAdress(f)
    case BKOD => ParseIntItem(t, f)
    case FLAGGA => ParseIntItem(t, f)
    case SIETYP => ParseIntItem(t, f)
    case TAXAR => ParseIntItem(t, f)
    case FNAMN => ParseTextItem(t, f)
    case FNR => ParseTextItem(t, f)
    case KPTYP => ParseTextItem(t, f)
    case PROSA => ParseTextItem(t, f)
    case VALUTA => ParseTextItem(t, f)
    case DIM => ParseNumberedItem(t, f)
    case ENHET => ParseNumberedItem(t, f)
    case KONTO => ParseNumberedItem(t, f)
    case FORMAT => ParseFormat(f)
    case FTYP => ParseFtyp(f)
    case GEN => ParseGen(f)
    case KTYP => ParseKtyp(f)
    case OBJEKT => ParseObjekt(f)
    case OMFATTN => ParseOmfattn(f)
    case ORGNR => ParseOrgNr(f)
    case PROGRAM => ParseProgram(f)
    case RAR => ParseRar(f)
    case SRU => ParseSru(f)
    case UNDERDIM => ParseUnderdim(f)
    case IB => ParseBalance(t, f)
    case RES => ParseBalance(t, f)
    case UB => ParseBalance(t, f)
    case OIB => ParseObjectBalance(t, f)
    case OUB => ParseObjectBalance(t, f)
    case PBUDGET => ParsePeriodBalance(t, f)
    case PSALDO => ParsePeriodBalance(t, f)
  }

  /** A label other than the transaction ones and VER goes to the item parsers. */
  lemma {:induction false} ItemFieldsRoute(t: ItemType, f: seq<string>, subItems: seq<Record>)
    requires t !in {TRANS, RTRANS, BTRANS, VER}
    ensures ParseFields(t, f, subItems) == ParseItemFields(t, f)
  {
  }

  /** A parsed transaction as the record it is, a failure passed on. */
  function AsRecord(r: Result<Transaction>): Result<Record> {
    match r
    case Ok(tx) => Ok(Tx(tx))
    case Err(e) => Err(e)
  }

  /** Whatever the registry parses for a label is a record of that label's type. */
  lemma {:induction false} ParseFieldsType(t: ItemType, f: seq<string>, subItems: seq<Record>)
    requires ParseFields(t, f, subItems).Ok?
    ensures TypeOf(ParseFields(t, f, subItems).value) == t
  {
    HasTypeTypeOf(ParseFields(t, f, subItems).value, t);
  }

  /** Every parser refuses a field count outside the range its own check allows. */
  lemma {:induction false} ParseFieldsArity(t: ItemType, f: seq<string>, subItems: seq<Record>)
    requires |f| < MinFields(t) || |f| > MaxFields(t)
    ensures ParseFields(t, f, subItems).Err?
  {
    match t
    case FLAGGA => case PROGRAM => case FORMAT => case GEN => case SIETYP => case PROSA =>
    case FTYP => case FNR => case ORGNR => case BKOD => case ADRESS => case FNAMN =>
    case RAR => case TAXAR => case OMFATTN => case KPTYP => case VALUTA => case KONTO =>
    case KTYP => case ENHET => case SRU => case DIM => case UNDERDIM => case OBJEKT =>
    case IB => case UB => case OIB => case OUB => case RES => case PSALDO =>
    case PBUDGET => case VER => case TRANS => case RTRANS => case BTRANS =>
  }

  /** A transaction line with only two fields fails, and so does a VER line with fewer than three. */
  lemma {:induction false} ShortLinesFail(t: ItemType, f: seq<string>, subItems: seq<Record>)
    requires t in {TRANS, RTRANS, BTRANS, VER} && |f| < 3
    ensures ParseFields(t, f, subItems).Err?
  {
  }

  /** A present quantity column of a balance (IB, RES, UB, OIB, OUB, PBUDGET, PSALDO) must be a number: an empty one is an error, not an absent quantity. */
  lemma {:induction false} BalanceQuantityNotOptional(t: ItemType, f: seq<string>)
    requires || (t in {IB, RES, UB} && |f| == 4 && f[3] == "")
             || (t in {OIB, OUB} && |f| == 5 && f[4] == "")
             || (t in {PBUDGET, PSALDO} && |f| == 6 && f[5] == "")
    ensures ParseFields(t, f, []).Err?
  {
    ItemFieldsRoute(t, f, []);
    if t == IB || t == RES || t == UB {
      EmptyQuantityRefused(f, 3);
      BalanceRoute(t, f);
    } else if t == OIB || t == OUB {
      EmptyQuantityRefused(f, 4);
      ObjectBalanceRoute(t, f);
    } else {
      EmptyQuantityRefused(f, 5);
      PeriodBalanceRoute(t, f);
    }
  }

  /** The quantity column at i, when empty, does not read as a number. */
  lemma {:induction false} EmptyQuantityRefused(f: seq<string>, i: nat)
    requires i < |f| && f[i] == ""
    ensures ParseDecimal(f[i]).Err?
  {
    assert ParseDecimal("").Err?;
  }

  /** IB, RES and UB go to the balance parser. */
  lemma {:induction false} BalanceRoute(t: ItemType, f: seq<string>)
    requires t == IB || t == RES || t == UB
    ensures ParseItemFields(t, f) == ParseBalance(t, f)
  {
  }

  /** OIB and OUB go to the object balance parser. */
  lemma {:induction false} ObjectBalanceRoute(t: ItemType, f: seq<string>)
    requires t == OIB || t == OUB
    ensures ParseItemFields(t, f) == ParseObjectBalance(t, f)
  {
  }

  /** PBUDGET and PSALDO go to the period balance parser. */
  lemma {:induction false} PeriodBalanceRoute(t: ItemType, f: seq<string>)
    requires t == PBUDGET || t == PSALDO
    ensures ParseItemFields(t, f) == ParsePeriodBalance(t, f)
  {
  }

  /** An empty quantity column of a transaction, unlike that of a balance, is an absent quantity. */
  lemma {:induction false} TransactionQuantityOptional(kind: TransKind, f: seq<string>)
    requires 6 <= |f| && f[5] == ""
    ensures ParseTransaction(kind, f).Ok? ==> ParseTransaction(kind, f).value.quantity == None
  {
  }

  /*
   * The line level: splitLine, toModel(String) and toModel(List).
   */

  /** A string with no white space at either end. */
  predicate Framed(s: string) {
    |s| == 0 || (!IsWhitespace(s[0]) && !IsWhitespace(s[|s| - 1]))
  }

  lemma {:induction false} StripIsFramed(s: string)
    ensures Framed(Strip(s))
  {
    var l := StripLeading(s);
    var r := StripTrailing(l);
    StripLeadingShape(s);
    StripTrailingShape(l);
    if |r| > 0 {
      assert r[0] == l[0];
    }
  }

  /**
   * splitLine: a blank line is refused; the line is cut at its first run
   * of \s characters; the part before it, stripped and without its first
   * character (the '#'), is the label in any case; the part after it,
   * stripped, is the fields text.  A line with no \s at all has no fields
   * part and is refused after its label has been read.
   */
  function SplitLine(line: string): (r: Result<(ItemType, string)>)
    ensures IsBlank(line) ==> r == Err(BlankLine)
    ensures r.Ok? ==> Framed(r.value.1)
  {
    if IsBlank(line) then Err(BlankLine)
    else
      var i := FirstRegexSpace(line);
      var head := Strip(if i < 0 then line else line[..i]);
      if |head| == 0 then Err(EmptyLabel)
      else match LabelOf(ToUpper(head[1..]))
        case None => Err(UnknownLabel(head[1..]))
        case Some(t) =>
          if i < 0 then Err(MissingFields)
          else StripIsFramed(line[i..]); Ok((t, Strip(line[i..])))
  }

  /** A non-empty word of ASCII letters. */
  predicate IsWord(name: string) {
    |name| > 0 && forall i :: 0 <= i < |name| ==> ('A' <= name[i] <= 'Z') || ('a' <= name[i] <= 'z')
  }

  /** Strip of a space followed by framed text is that text. */
  lemma {:induction false} StripSpaceFramed(fields: string)
    requires Framed(fields)
    ensures Strip(" " + fields) == fields
  {
    if |fields| == 0 {
      assert StripLeading(" ") == StripLeading("");
    } else {
      StripIndented(" ", fields);
    }
  }

  /**
   * A line made of '#', a label word that upper-cases to a known label,
   * one space and framed fields is split into that label's type and
   * exactly those fields.
   */
  lemma {:induction false} SplitLineOf(name: string, t: ItemType, fields: string)
    requires IsWord(name) && LabelOf(ToUpper(name)) == Some(t)
    requires Framed(fields)
    ensures SplitLine("#" + name + " " + fields) == Ok((t, fields))
  {
    var head := "#" + name;
    var rest := " " + fields;
    var line := head + rest;
    assert line == "#" + name + " " + fields;
    var n := |head|;
    assert line[..n] == head && line[n..] == rest;
    assert forall i :: 1 <= i < n ==> line[i] == name[i - 1];
    FirstRegexSpaceAt(line, n);
    assert !IsBlank(line) by { assert !IsWhitespace(line[0]); }
    StripFramed(head);
    assert head[1..] == name;
    StripSpaceFramed(fields);
  }

  /** In particular a line written the way the writer writes it: '#', the label, a space and the fields. */
  lemma {:induction false} SplitLineOfTag(t: ItemType, fields: string)
    requires Framed(fields)
    ensures SplitLine("#" + TagName(t) + " " + fields) == Ok((t, fields))
  {
    TagNameLetters(t);
    ToUpperOfUpper(TagName(t));
    LabelOfTagName(t);
    SplitLineOf(TagName(t), t, fields);
  }

  /** A label is read in any mix of upper and lower case. */
  lemma {:induction false} SplitLineAnyCase(name: string, t: ItemType, fields: string)
    requires IsWord(name) && ToUpper(name) == TagName(t)
    requires Framed(fields)
    ensures SplitLine("#" + name + " " + fields) == Ok((t, fields))
  {
    LabelOfTagName(t);
    SplitLineOf(name, t, fields);
  }

  /**
   * toModel(String): a single non-VER line.  A failure inside the label's
   * parser (including the tokenizer) is reported as "could not parse
   * fields" around its cause; a failure of splitLine is reported as it is.
   */
  function ToModelLine(line: string): (r: Result<Record>)
    ensures r.Ok? ==> SplitLine(line).Ok? && TypeOf(r.value) == SplitLine(line).value.0
    ensures r.Ok? ==> TypeOf(r.value) != VER
    ensures SplitLine(line).Err? ==> r == Err(SplitLine(line).error)
  {
    var split :- SplitLine(line);
    if split.0 == VER then Err(VerNotAllowed)
    else match ParseFields(split.0, Tokenize(split.1), [])
      case Ok(item) => ParseFieldsType(split.0, Tokenize(split.1), []); Ok(item)
      case Err(e) => Err(CouldNotParseFields(split.1, e))
  }

  /** The parsers' own failures reach the caller of toModel(String) wrapped, never bare. */
  lemma {:induction false} ToModelLineWraps(line: string)
    requires SplitLine(line).Ok? && SplitLine(line).value.0 != VER
    requires ParseFields(SplitLine(line).value.0, Tokenize(SplitLine(line).value.1), []).Err?
    ensures ToModelLine(line).Err? && ToModelLine(line).error.CouldNotParseFields?
  {
  }

  /**
   * stream().map(parse).toList() with a parse that may fail: every result
   * in order, or else the failure of the first line that fails.
   */
  function MapLines(lines: seq<string>, parse: string -> Result<Record>): (r: Result<seq<Record>>)
    ensures r.Ok? <==> forall i :: 0 <= i < |lines| ==> parse(lines[i]).Ok?
    ensures r.Ok? ==> |r.value| == |lines| && forall i :: 0 <= i < |lines| ==> r.value[i] == parse(lines[i]).value
    ensures r.Err? ==> exists i :: 0 <= i < |lines| && parse(lines[i]) == Err(r.error) && (forall j :: 0 <= j < i ==> parse(lines[j]).Ok?)
  {
    if |lines| == 0 then Ok([])
    else
      var first :- parse(lines[0]);
      var rest := MapLines(lines[1..], parse);
      assert forall i :: 1 <= i < |lines| ==> lines[1..][i - 1] == lines[i];
      if rest.Err? then Err(rest.error)
      else Ok([first] + rest.value)
  }

  /**
   * toModel(List): the first line must be a VER line; the following lines
   * are read as single lines and handed to the VER parser as its
   * sub-items.  Failures of the VER parser itself are not wrapped.
   */
  function ToModelBlock(lines: seq<string>): (r: Result<Record>)
    ensures |lines| == 0 ==> r == Err(EmptyBlock)
    ensures r.Ok? ==> r.value.Ver? && SplitLine(lines[0]).Ok? && SplitLine(lines[0]).value.0 == VER
    ensures r.Ok? ==> |r.value.transactions| == |lines| - 1
    ensures r.Ok? ==> forall i :: 1 <= i < |lines| ==> ToModelLine(lines[i]) == Ok(Tx(r.value.transactions[i - 1]))
    ensures r.Ok? ==> ParseVer(Tokenize(SplitLine(lines[0]).value.1), TxRecords(r.value)) == r
  {
    if |lines| == 0 then Err(EmptyBlock)
    else
      var split :- SplitLine(lines[0]);
      if split.0 != VER then Err(NotVer)
      else
        var subItems :- MapLines(lines[1..], ToModelLine);
        var parsed := ParseVer(Tokenize(split.1), subItems);
        BlockTransactions(lines, subItems, parsed);
        parsed
  }

  /** The transactions of a parsed block are the records its lines after the first were read as. */
  lemma {:induction false} BlockTransactions(lines: seq<string>, subItems: seq<Record>, parsed: Result<Record>)
    requires |lines| > 0 && MapLines(lines[1..], ToModelLine) == Ok(subItems)
    requires parsed.Ok? ==> parsed.value.Ver? && |parsed.value.transactions| == |subItems|
    requires parsed.Ok? ==> forall i :: 0 <= i < |subItems| ==> subItems[i] == Tx(parsed.value.transactions[i])
    ensures parsed.Ok? ==> forall i :: 1 <= i < |lines| ==> ToModelLine(lines[i]) == Ok(Tx(parsed.value.transactions[i - 1]))
    ensures parsed.Ok? ==> subItems == TxRecords(parsed.value)
  {
    if parsed.Ok? {
      assert subItems == TxRecords(parsed.value);
      forall i | 1 <= i < |lines|
        ensures ToModelLine(lines[i]) == Ok(Tx(parsed.value.transactions[i - 1]))
      {
        assert lines[1..][i - 1] == lines[i];
      }
    }
  }

  /** A block whose first line is not a VER line is refused, whatever follows. */
  lemma {:induction false} ToModelBlockNeedsVer(lines: seq<string>)
    requires |lines| > 0 && SplitLine(lines[0]).Ok? && SplitLine(lines[0]).value.0 != VER
    ensures ToModelBlock(lines) == Err(NotVer)
  {
  }

  /** A block holding a line that is not a transaction is refused. */
  lemma {:induction false} ToModelBlockOnlyTransactions(lines: seq<string>, k: nat)
    requires 1 <= k < |lines| && ToModelLine(lines[k]).Ok? && !ToModelLine(lines[k]).value.Tx?
    ensures ToModelBlock(lines).Err?
  {
  }
}
