/*
 * Every record but the voucher and the transaction, written by its writer
 * and read back by its label's parser: the tokens of the fields text the
 * writer produces are parsed back into the same record, for every
 * well-formed record.  Each writer has a lemma about its text over plain
 * column values, and each record a lemma that puts that text together
 * with the parser of its label.
 */
module RecordRoundTrip {
  import opened Wrappers
  import opened Text
  import opened Numbers
  import opened Calendar
  import opened Values
  import opened FieldParser
  import opened Items
  import opened InFieldMapper
  import opened OutFieldMapper
  import opened RoundTrip

  /** The fields text of `r` is framed and its label's parser reads `r` back from its tokens. */
  predicate ReadsBack(r: Record) {
    Framed(WriteFields(r)) && ParseFields(TypeOf(r), Tokenize(WriteFields(r)), []) == Ok(r)
  }

  /*
   * The writers' texts.
   */

  /** A safe text on its own, quoted when it holds a space, is read back as the text. */
  lemma {:induction false} QuotedText(s: string)
    requires SafeText(s)
    ensures Framed(Quoted(s)) && Tokenize(Quoted(s)) == [s]
  {
    QuotedRenders(s);
    Single(Quoted(s), s);
  }

  /** An int on its own is read back as its digits. */
  lemma {:induction false} IntText(x: int)
    ensures Framed(FormatInt(x)) && Tokenize(FormatInt(x)) == [FormatInt(x)]
  {
    Single(FormatInt(x), FormatInt(x));
  }

  lemma {:induction false} AdressText(contact: string, distribution: string, postal: string, tel: string)
    requires SafeText(contact) && SafeText(distribution) && SafeText(postal) && SafeText(tel)
    ensures var w := WriteAdress(contact, distribution, postal, tel);
      Framed(w) && Tokenize(w) == [contact, distribution, postal, tel]
  {
    var c, d, p, t := Quoted(contact), Quoted(distribution), Quoted(postal), Quoted(tel);
    QuotedRenders(contact);
    QuotedRenders(distribution);
    QuotedRenders(postal);
    QuotedRenders(tel);
    Row4(c, contact, d, distribution, p, postal, t, tel);
    Plain([c, d, p, t], [contact, distribution, postal, tel]);
  }

  lemma {:induction false} NumberedText(n: Int32, text: string)
    requires SafeText(text)
    ensures Framed(WriteNumberedText(n, text)) && Tokenize(WriteNumberedText(n, text)) == [FormatInt(n), text]
  {
    var i, q := FormatInt(n), Quoted(text);
    IntRenders(n);
    QuotedRenders(text);
    Row2(i, i, q, text);
    Plain([i, q], [i, text]);
  }

  lemma {:induction false} KtypText(account: Int32, accountType: AccountType)
    ensures var w := WriteKtyp(account, accountType);
      Framed(w) && Tokenize(w) == [FormatInt(account), AccountTypeName(accountType)]
  {
    var i, k := FormatInt(account), AccountTypeName(accountType);
    IntRenders(account);
    assert Renders(k, k);
    Row2(i, i, k, k);
    Plain([i, k], [i, k]);
  }

  lemma {:induction false} ObjektText(dimension: Int32, objectNo: string, name: string)
    requires SafeText(objectNo) && SafeText(name)
    ensures var w := WriteObjekt(dimension, objectNo, name);
      Framed(w) && Tokenize(w) == [FormatInt(dimension), objectNo, name]
  {
    var i, o, q := FormatInt(dimension), Quoted(objectNo), Quoted(name);
    IntRenders(dimension);
    QuotedRenders(objectNo);
    QuotedRenders(name);
    Row3(i, i, o, objectNo, q, name);
    Plain([i, o, q], [i, objectNo, name]);
  }

  lemma {:induction false} ProgramText(name: string, version: string)
    requires SafeText(name) && SafeText(version)
    ensures Framed(WriteProgram(name, version)) && Tokenize(WriteProgram(name, version)) == [name, version]
  {
    var n, v := Quoted(name), Quoted(version);
    QuotedRenders(name);
    QuotedRenders(version);
    Row2(n, name, v, version);
    Plain([n, v], [name, version]);
  }

  lemma {:induction false} RarText(yearNumber: YearNumber, start: LocalDate, end: LocalDate)
    requires FourDigitYear(start) && FourDigitYear(end)
    ensures var w := WriteRar(yearNumber, start, end);
      Framed(w) && Tokenize(w) == [FormatInt(yearNumber), FormatDate(start), FormatDate(end)]
  {
    var y, s, e := FormatInt(yearNumber), FormatDate(start), FormatDate(end);
    IntRenders(yearNumber);
    DateRenders(start);
    DateRenders(end);
    Row3(y, y, s, s, e, e);
    Plain([y, s, e], [y, s, e]);
  }

  lemma {:induction false} SruText(account: Int32, code: Int32)
    ensures Framed(WriteSru(account, code)) && Tokenize(WriteSru(account, code)) == [FormatInt(account), FormatInt(code)]
  {
    var a, c := FormatInt(account), FormatInt(code);
    IntRenders(account);
    IntRenders(code);
    Row2(a, a, c, c);
    Plain([a, c], [a, c]);
  }

  lemma {:induction false} UnderdimText(dimension: Int32, name: string, super: Int32)
    requires SafeText(name)
    ensures var w := WriteUnderdim(dimension, name, super);
      Framed(w) && Tokenize(w) == [FormatInt(dimension), name, FormatInt(super)]
  {
    var d, q, u := FormatInt(dimension), Quoted(name), FormatInt(super);
    IntRenders(dimension);
    QuotedRenders(name);
    IntRenders(super);
    Row3(d, d, q, name, u, u);
    Plain([d, q, u], [d, name, u]);
  }

  /** The GEN writer's text with a signature: the date token and the signature token. */
  lemma {:induction false} GenTextSigned(date: LocalDate, signature: string)
    requires FourDigitYear(date) && SafeText(signature)
    ensures Framed(WriteGen(date, Some(signature)))
    ensures Tokenize(WriteGen(date, Some(signature))) == [FormatDate(date), signature]
  {
    DateRenders(date);
    QuotedRenders(signature);
    Trim2of2(FormatDate(date), FormatDate(date), Quoted(signature), signature);
  }

  /** The GEN writer's text without a signature: the date token alone. */
  lemma {:induction false} GenTextUnsigned(date: LocalDate)
    requires FourDigitYear(date)
    ensures Framed(WriteGen(date, None)) && Tokenize(WriteGen(date, None)) == [FormatDate(date)]
  {
    DateRenders(date);
    Trim1of2(FormatDate(date), FormatDate(date));
  }

  /** The tokens ORGNR is read back from: the number, then each present optional. */
  function OrgNrValues(orgNr: string, acq: Option<Int32>, act: Option<Int32>): seq<string> {
    if acq.None? then [orgNr]
    else if act.None? then [orgNr, FormatInt(acq.value)]
    else [orgNr, FormatInt(acq.value), FormatInt(act.value)]
  }

  /** ORGNR with neither optional: the two absent columns are trimmed away. */
  lemma {:induction false} OrgNrTextBare(orgNr: string)
    requires SafeText(orgNr)
    ensures Framed(WriteOrgNr(orgNr, None, None)) && Tokenize(WriteOrgNr(orgNr, None, None)) == [orgNr]
  {
    QuotedRenders(orgNr);
    Trim1of3(Quoted(orgNr), orgNr);
  }

  /** ORGNR with the acquisition number only: the absent activity column is trimmed away. */
  lemma {:induction false} OrgNrTextAcq(orgNr: string, acq: Int32)
    requires SafeText(orgNr)
    ensures var w := WriteOrgNr(orgNr, Some(acq), None);
      Framed(w) && Tokenize(w) == [orgNr, FormatInt(acq)]
  {
    QuotedRenders(orgNr);
    IntRenders(acq);
    Trim2of3(Quoted(orgNr), orgNr, FormatInt(acq), FormatInt(acq));
  }

  /** ORGNR with both numbers. */
  lemma {:induction false} OrgNrTextBoth(orgNr: string, acq: Int32, act: Int32)
    requires SafeText(orgNr)
    ensures var w := WriteOrgNr(orgNr, Some(acq), Some(act));
      Framed(w) && Tokenize(w) == [orgNr, FormatInt(acq), FormatInt(act)]
  {
    QuotedRenders(orgNr);
    IntRenders(acq);
    IntRenders(act);
    Trim3of3(Quoted(orgNr), orgNr, FormatInt(acq), FormatInt(acq), FormatInt(act), FormatInt(act));
  }

  lemma {:induction false} OrgNrText(orgNr: string, acq: Option<Int32>, act: Option<Int32>)
    requires SafeText(orgNr) && (act.Some? ==> acq.Some?)
    ensures var w := WriteOrgNr(orgNr, acq, act);
      Framed(w) && Tokenize(w) == OrgNrValues(orgNr, acq, act)
  {
    if acq.None? {
      OrgNrTextBare(orgNr);
    } else if act.None? {
      OrgNrTextAcq(orgNr, acq.value);
    } else {
      OrgNrTextBoth(orgNr, acq.value, act.value);
    }
  }

  /** The tokens of a balance: year number, account, balance and the quantity when there is one. */
  function BalanceValues(yearNumber: YearNumber, account: Int32, balance: Decimal, quantity: Option<Decimal>): seq<string> {
    if quantity.Some? then [FormatInt(yearNumber), FormatInt(account), FormatDecimal(balance), FormatDecimal(quantity.value)]
    else [FormatInt(yearNumber), FormatInt(account), FormatDecimal(balance)]
  }

  lemma {:induction false} BalanceText(yearNumber: YearNumber, account: Int32, balance: Decimal, quantity: Option<Decimal>)
    ensures var w := WriteBalance(yearNumber, account, balance, quantity);
      Framed(w) && Tokenize(w) == BalanceValues(yearNumber, account, balance, quantity)
  {
    var y, a, b := FormatInt(yearNumber), FormatInt(account), FormatDecimal(balance);
    IntRenders(yearNumber);
    IntRenders(account);
    DecimalRenders(balance);
    if quantity.Some? {
      var q := FormatDecimal(quantity.value);
      DecimalRenders(quantity.value);
      Trim4of4(y, y, a, a, b, b, q, q);
    } else {
      Trim3of4(y, y, a, a, b, b);
    }
  }

  /** The tokens of an object balance: the reference's brace group is read as its interior. */
  function ObjectBalanceValues(yearNumber: YearNumber, account: Int32, reference: ObjectReference,
                               balance: Decimal, quantity: Option<Decimal>): seq<string>
  {
    if quantity.Some? then
      [FormatInt(yearNumber), FormatInt(account), ReferencePair(reference), FormatDecimal(balance), FormatDecimal(quantity.value)]
    else [FormatInt(yearNumber), FormatInt(account), ReferencePair(reference), FormatDecimal(balance)]
  }

  lemma {:induction false} ObjectBalanceText(yearNumber: YearNumber, account: Int32, reference: ObjectReference,
                                             balance: Decimal, quantity: Option<Decimal>)
    requires SafeId(reference.objectNo)
    ensures var w := WriteObjectBalance(yearNumber, account, reference, balance, quantity);
      Framed(w) && Tokenize(w) == ObjectBalanceValues(yearNumber, account, reference, balance, quantity)
  {
    var y, a, o, b := FormatInt(yearNumber), FormatInt(account), ObjectReferenceText(reference), FormatDecimal(balance);
    var p := ReferencePair(reference);
    IntRenders(yearNumber);
    IntRenders(account);
    ReferenceRenders(reference);
    DecimalRenders(balance);
    if quantity.Some? {
      var q := FormatDecimal(quantity.value);
      DecimalRenders(quantity.value);
      Trim5of5(y, y, a, a, o, p, b, b, q, q);
    } else {
      Trim4of5(y, y, a, a, o, p, b, b);
    }
  }

  /** The token a period balance's reference column is read as: the pair, or nothing for "{}". */
  function OptionalReferenceValue(reference: Option<ObjectReference>): string {
    match reference
    case None => ""
    case Some(x) => ReferencePair(x)
  }

  /** The reference column of a period balance renders as its token. */
  lemma {:induction false} OptionalReferenceRenders(reference: Option<ObjectReference>)
    requires reference.Some? ==> SafeId(reference.value.objectNo)
    ensures Renders(ReferenceOrBraces(reference), OptionalReferenceValue(reference))
  {
    if reference.Some? {
      ReferenceRenders(reference.value);
    } else {
      assert "{}"[1..1] == "";
    }
  }

  /** The token of the reference column parses back as the reference, and "{}" as none. */
  lemma {:induction false} OptionalReferenceReads(t: ItemType, reference: Option<ObjectReference>)
    requires reference.Some? ==> SafeId(reference.value.objectNo)
    ensures OptionalReference(t, OptionalReferenceValue(reference)) == Ok(reference)
  {
    if reference.Some? {
      ReferenceRenders(reference.value);
    } else {
      TokenizeEmpty();
    }
  }

  function PeriodBalanceValues(yearNumber: YearNumber, period: Period, account: Int32,
                               reference: Option<ObjectReference>, balance: Decimal, quantity: Option<Decimal>): seq<string>
  {
    if quantity.Some? then
      [FormatInt(yearNumber), FormatPeriod(period), FormatInt(account), OptionalReferenceValue(reference),
       FormatDecimal(balance), FormatDecimal(quantity.value)]
    else [FormatInt(yearNumber), FormatPeriod(period), FormatInt(account), OptionalReferenceValue(reference), FormatDecimal(balance)]
  }

  lemma {:induction false} PeriodBalanceText(yearNumber: YearNumber, period: Period, account: Int32,
                                             reference: Option<ObjectReference>, balance: Decimal, quantity: Option<Decimal>)
    requires 1 <= period.year <= 9999 && (reference.Some? ==> SafeId(reference.value.objectNo))
    ensures var w := WritePeriodBalance(yearNumber, period, account, reference, balance, quantity);
      Framed(w) && Tokenize(w) == PeriodBalanceValues(yearNumber, period, account, reference, balance, quantity)
  {
    var y, p, a := FormatInt(yearNumber), FormatPeriod(period), FormatInt(account);
    var o, ov, b := ReferenceOrBraces(reference), OptionalReferenceValue(reference), FormatDecimal(balance);
    IntRenders(yearNumber);
    PeriodRenders(period);
    IntRenders(account);
    OptionalReferenceRenders(reference);
    DecimalRenders(balance);
    if quantity.Some? {
      var q := FormatDecimal(quantity.value);
      DecimalRenders(quantity.value);
      Trim6of6(y, y, p, p, a, a, o, ov, b, b, q, q);
    } else {
      Trim5of6(y, y, p, p, a, a, o, ov, b, b);
    }
  }

  /*
   * The parsers, over any tokens whose columns read as the record's values.
   */

  lemma {:induction false} AdressParses(f: seq<string>)
    requires |f| == 4
    ensures ParseFields(ADRESS, f, []) == Ok(Adress(f[0], f[1], f[2], f[3]))
  {
  }

  lemma {:induction false} IntItemParses(t: ItemType, f: seq<string>, r: Record, n: Int32)
    requires (t == BKOD && r == Bkod(n)) || (t == FLAGGA && r == Flagga(n))
      || (t == SIETYP && r == Sietyp(n)) || (t == TAXAR && r == Taxar(n))
    requires |f| == 1 && ParseInt(f[0]) == Ok(n)
    ensures ParseFields(t, f, []) == Ok(r)
  {
  }

  lemma {:induction false} TextItemParses(t: ItemType, f: seq<string>, r: Record, s: string)
    requires (t == FNAMN && r == Fnamn(s)) || (t == FNR && r == Fnr(s)) || (t == KPTYP && r == Kptyp(s))
      || (t == PROSA && r == Prosa(s)) || (t == VALUTA && r == Valuta(s))
    requires f == [s]
    ensures ParseFields(t, f, []) == Ok(r)
  {
  }

  lemma {:induction false} NumberedItemParses(t: ItemType, f: seq<string>, r: Record, n: Int32, s: string)
    requires (t == DIM && r == Dim(n, s)) || (t == ENHET && r == Enhet(n, s)) || (t == KONTO && r == Konto(n, s))
    requires |f| == 2 && ParseInt(f[0]) == Ok(n) && f[1] == s
    ensures ParseFields(t, f, []) == Ok(r)
  {
  }

  lemma {:induction false} FormatParses(f: seq<string>)
    requires |f| == 1 && EqualsIgnoreCase(f[0], "PC8")
    ensures ParseFields(FORMAT, f, []) == Ok(Format(f[0]))
  {
  }

  lemma {:induction false} FtypParses(f: seq<string>, c: CompanyType)
    requires |f| == 1 && CompanyTypeOf(f[0]) == Ok(c)
    ensures ParseFields(FTYP, f, []) == Ok(Ftyp(c))
  {
  }

  lemma {:induction false} GenParses(f: seq<string>, date: LocalDate, signature: Option<string>)
    requires 1 <= |f| <= 2 && ParseDate(f[0]) == Ok(date) && OptionalColumn(f, 1) == signature
    ensures ParseFields(GEN, f, []) == Ok(Gen(date, signature))
  {
  }

  lemma {:induction false} KtypParses(f: seq<string>, account: Int32, accountType: AccountType)
    requires |f| == 2 && ParseInt(f[0]) == Ok(account) && AccountTypeOf(f[1]) == Ok(accountType)
    ensures ParseFields(KTYP, f, []) == Ok(Ktyp(account, accountType))
  {
  }

  lemma {:induction false} ObjektParses(f: seq<string>, dimension: Int32)
    requires |f| == 3 && ParseInt(f[0]) == Ok(dimension)
    ensures ParseFields(OBJEKT, f, []) == Ok(Objekt(dimension, f[1], f[2]))
  {
  }

  lemma {:induction false} OmfattnParses(f: seq<string>, date: LocalDate)
    requires |f| == 1 && ParseDate(f[0]) == Ok(date)
    ensures ParseFields(OMFATTN, f, []) == Ok(Omfattn(date))
  {
  }

  lemma {:induction false} OrgNrParses(f: seq<string>, acq: Option<Int32>, act: Option<Int32>)
    requires 1 <= |f| <= 3 && (acq.Some? <==> |f| > 1) && (act.Some? <==> |f| > 2)
    requires |f| > 1 ==> ParseInt(f[1]) == Ok(acq.value)
    requires |f| > 2 ==> ParseInt(f[2]) == Ok(act.value)
    ensures ParseFields(ORGNR, f, []) == Ok(OrgNr(f[0], acq, act))
  {
  }

  lemma {:induction false} ProgramParses(f: seq<string>)
    requires |f| == 2
    ensures ParseFields(PROGRAM, f, []) == Ok(Program(f[0], f[1]))
  {
  }

  lemma {:induction false} RarParses(f: seq<string>, yearNumber: YearNumber, start: LocalDate, end: LocalDate)
    requires |f| == 3 && ParseYearNumber(f[0]) == Ok(yearNumber)
    requires ParseDate(f[1]) == Ok(start) && ParseDate(f[2]) == Ok(end)
    ensures ParseFields(RAR, f, []) == Ok(Rar(yearNumber, start, end))
  {
  }

  lemma {:induction false} SruParses(f: seq<string>, account: Int32, code: Int32)
    requires |f| == 2 && ParseInt(f[0]) == Ok(account) && ParseInt(f[1]) == Ok(code)
    ensures ParseFields(SRU, f, []) == Ok(Sru(account, code))
  {
  }

  lemma {:induction false} UnderdimParses(f: seq<string>, dimension: Int32, super: Int32)
    requires |f| == 3 && ParseInt(f[0]) == Ok(dimension) && ParseInt(f[2]) == Ok(super)
    ensures ParseFields(UNDERDIM, f, []) == Ok(Underdim(dimension, f[1], super))
  {
  }

  lemma {:induction false} BalanceParses(t: ItemType, f: seq<string>, r: Record,
                                         y: YearNumber, a: Int32, b: Decimal, q: Option<Decimal>)
    requires (t == IB && r == Ib(y, a, b, q)) || (t == RES && r == Res(y, a, b, q)) || (t == UB && r == Ub(y, a, b, q))
    requires 3 <= |f| <= 4 && ParseYearNumber(f[0]) == Ok(y) && ParseInt(f[1]) == Ok(a)
    requires ParseDecimal(f[2]) == Ok(b) && TrailingQuantity(f, 3) == Ok(q)
    ensures ParseBalance(t, f) == Ok(r)
  {
  }

  lemma {:induction false} ObjectBalanceParses(t: ItemType, f: seq<string>, r: Record,
                                               y: YearNumber, a: Int32, o: ObjectReference, b: Decimal, q: Option<Decimal>)
    requires (t == OIB && r == Oib(y, a, o, b, q)) || (t == OUB && r == Oub(y, a, o, b, q))
    requires 4 <= |f| <= 5 && ParseYearNumber(f[0]) == Ok(y) && ParseInt(f[1]) == Ok(a)
    requires SingleReference(t, f[2]) == Ok(o) && ParseDecimal(f[3]) == Ok(b) && TrailingQuantity(f, 4) == Ok(q)
    ensures ParseObjectBalance(t, f) == Ok(r)
  {
  }

  lemma {:induction false} PeriodBalanceParses(t: ItemType, f: seq<string>, r: Record, y: YearNumber, p: Period,
                                               a: Int32, o: Option<ObjectReference>, b: Decimal, q: Option<Decimal>)
    requires (t == PBUDGET && r == Pbudget(y, p, a, o, b, q)) || (t == PSALDO && r == Psaldo(y, p, a, o, b, q))
    requires 5 <= |f| <= 6 && ParseYearNumber(f[0]) == Ok(y) && ParsePeriod(f[1]) == Ok(p) && ParseInt(f[2]) == Ok(a)
    requires OptionalReference(t, f[3]) == Ok(o) && ParseDecimal(f[4]) == Ok(b) && TrailingQuantity(f, 5) == Ok(q)
    ensures ParsePeriodBalance(t, f) == Ok(r)
  {
  }

  /** The registry hands IB, RES and UB to the balance parser. */
  lemma {:induction false} BalanceDispatch(t: ItemType, f: seq<string>)
    requires t == IB || t == RES || t == UB
    ensures ParseFields(t, f, []) == ParseBalance(t, f)
  {
    ItemFieldsRoute(t, f, []);
    if t == IB {
      assert ParseItemFields(IB, f) == ParseBalance(IB, f);
    } else if t == RES {
      assert ParseItemFields(RES, f) == ParseBalance(RES, f);
    } else {
      assert ParseItemFields(UB, f) == ParseBalance(UB, f);
    }
  }

  /** The registry hands OIB and OUB to the object balance parser. */
  lemma {:induction false} ObjectBalanceDispatch(t: ItemType, f: seq<string>)
    requires t == OIB || t == OUB
    ensures ParseFields(t, f, []) == ParseObjectBalance(t, f)
  {
    ItemFieldsRoute(t, f, []);
    if t == OIB {
      assert ParseItemFields(OIB, f) == ParseObjectBalance(OIB, f);
    } else {
      assert ParseItemFields(OUB, f) == ParseObjectBalance(OUB, f);
    }
  }

  /** The registry hands PBUDGET and PSALDO to the period balance parser. */
  lemma {:induction false} PeriodBalanceDispatch(t: ItemType, f: seq<string>)
    requires t == PBUDGET || t == PSALDO
    ensures ParseFields(t, f, []) == ParsePeriodBalance(t, f)
  {
    ItemFieldsRoute(t, f, []);
    if t == PBUDGET {
      assert ParseItemFields(PBUDGET, f) == ParsePeriodBalance(PBUDGET, f);
    } else {
      assert ParseItemFields(PSALDO, f) == ParsePeriodBalance(PSALDO, f);
    }
  }

  /*
   * Single columns read back.
   */

  lemma {:induction false} YearNumberColumn(s: string, y: YearNumber)
    requires s == FormatInt(y)
    ensures ParseYearNumber(s) == Ok(y)
  {
    YearNumberReads(y);
  }

  lemma {:induction false} IntColumn(s: string, n: Int32)
    requires s == FormatInt(n)
    ensures ParseInt(s) == Ok(n)
  {
    ParseIntFormatInt(n);
  }

  lemma {:induction false} DecimalColumn(s: string, d: Decimal)
    requires s == FormatDecimal(d)
    ensures ParseDecimal(s) == Ok(d)
  {
    ParseDecimalFormatDecimal(d);
  }

  lemma {:induction false} PeriodColumn(s: string, p: Period)
    requires s == FormatPeriod(p) && 1 <= p.year <= 9999
    ensures ParsePeriod(s) == Ok(p)
  {
    PeriodReads(p);
  }

  lemma {:induction false} SingleReferenceColumn(t: ItemType, s: string, o: ObjectReference)
    requires s == ReferencePair(o) && SafeId(o.objectNo)
    ensures SingleReference(t, s) == Ok(o)
  {
    ReferenceRenders(o);
  }

  lemma {:induction false} OptionalReferenceColumn(t: ItemType, s: string, o: Option<ObjectReference>)
    requires s == OptionalReferenceValue(o) && (o.Some? ==> SafeId(o.value.objectNo))
    ensures OptionalReference(t, s) == Ok(o)
  {
    OptionalReferenceReads(t, o);
  }

  lemma {:induction false} DateColumn(s: string, d: LocalDate)
    requires s == FormatDate(d) && FourDigitYear(d)
    ensures ParseDate(s) == Ok(d)
  {
    DateReads(d);
  }

  lemma {:induction false} AccountTypeColumn(s: string, k: AccountType)
    requires s == AccountTypeName(k)
    ensures AccountTypeOf(s) == Ok(k)
  {
    ToUpperOfUpper(s);
    AccountTypeOfName(s, k);
  }

  lemma {:induction false} CompanyTypeColumn(s: string, c: CompanyType)
    requires s == CompanyTypeName(c)
    ensures CompanyTypeOf(s) == Ok(c)
  {
    ToUpperOfUpper(s);
    CompanyTypeOfName(s, c);
  }

  /** The tokens of GEN: the date, then the signature when there is one. */
  lemma {:induction false} GenColumns(f: seq<string>, date: LocalDate, signature: Option<string>)
    requires FourDigitYear(date) && SafeOption(signature)
    requires f == if signature.Some? then [FormatDate(date), signature.value] else [FormatDate(date)]
    ensures 1 <= |f| <= 2 && ParseDate(f[0]) == Ok(date) && OptionalColumn(f, 1) == signature
  {
    DateColumn(f[0], date);
  }

  /** The tokens of ORGNR, column by column. */
  lemma {:induction false} OrgNrColumns(f: seq<string>, orgNr: string, acq: Option<Int32>, act: Option<Int32>)
    requires f == OrgNrValues(orgNr, acq, act) && (act.Some? ==> acq.Some?)
    ensures 1 <= |f| <= 3 && f[0] == orgNr && (acq.Some? <==> |f| > 1) && (act.Some? <==> |f| > 2)
    ensures |f| > 1 ==> ParseInt(f[1]) == Ok(acq.value)
    ensures |f| > 2 ==> ParseInt(f[2]) == Ok(act.value)
  {
    if acq.None? {
      assert f == [orgNr];
    } else if act.None? {
      assert f == [orgNr, FormatInt(acq.value)];
      IntColumn(f[1], acq.value);
    } else {
      assert f == [orgNr, FormatInt(acq.value), FormatInt(act.value)];
      IntColumn(f[1], acq.value);
      IntColumn(f[2], act.value);
    }
  }

  /** The quantity column of a balance, when written, reads back as the quantity. */
  lemma {:induction false} QuantityParse(f: seq<string>, i: nat, quantity: Option<Decimal>)
    requires |f| == i + (if quantity.Some? then 1 else 0)
    requires quantity.Some? ==> f[i] == FormatDecimal(quantity.value)
    ensures TrailingQuantity(f, i) == Ok(quantity)
  {
    if quantity.Some? {
      DecimalColumn(f[i], quantity.value);
    }
  }

  /** The tokens of a balance, column by column. */
  lemma {:induction false} BalanceShape(f: seq<string>, y: YearNumber, a: Int32, b: Decimal, q: Option<Decimal>)
    requires f == BalanceValues(y, a, b, q)
    ensures |f| == 3 + (if q.Some? then 1 else 0) && f[0] == FormatInt(y) && f[1] == FormatInt(a) && f[2] == FormatDecimal(b)
    ensures q.Some? ==> f[3] == FormatDecimal(q.value)
  {
    if q.Some? {
      assert f == [FormatInt(y), FormatInt(a), FormatDecimal(b), FormatDecimal(q.value)];
    } else {
      assert f == [FormatInt(y), FormatInt(a), FormatDecimal(b)];
    }
  }

  lemma {:induction false} BalanceColumns(f: seq<string>, y: YearNumber, a: Int32, b: Decimal, q: Option<Decimal>)
    requires f == BalanceValues(y, a, b, q)
    ensures 3 <= |f| <= 4 && ParseYearNumber(f[0]) == Ok(y) && ParseInt(f[1]) == Ok(a)
    ensures ParseDecimal(f[2]) == Ok(b) && TrailingQuantity(f, 3) == Ok(q)
  {
    BalanceShape(f, y, a, b, q);
    YearNumberColumn(f[0], y);
    IntColumn(f[1], a);
    DecimalColumn(f[2], b);
    QuantityParse(f, 3, q);
  }

  /** The tokens of an object balance, column by column. */
  lemma {:induction false} ObjectBalanceShape(f: seq<string>, y: YearNumber, a: Int32, o: ObjectReference,
                                              b: Decimal, q: Option<Decimal>)
    requires f == ObjectBalanceValues(y, a, o, b, q)
    ensures |f| == 4 + (if q.Some? then 1 else 0) && f[0] == FormatInt(y) && f[1] == FormatInt(a)
    ensures f[2] == ReferencePair(o) && f[3] == FormatDecimal(b)
    ensures q.Some? ==> f[4] == FormatDecimal(q.value)
  {
    if q.Some? {
      assert f == [FormatInt(y), FormatInt(a), ReferencePair(o), FormatDecimal(b), FormatDecimal(q.value)];
    } else {
      assert f == [FormatInt(y), FormatInt(a), ReferencePair(o), FormatDecimal(b)];
    }
  }

  lemma {:induction false} ObjectBalanceColumns(t: ItemType, f: seq<string>, y: YearNumber, a: Int32, o: ObjectReference,
                                                b: Decimal, q: Option<Decimal>)
    requires f == ObjectBalanceValues(y, a, o, b, q) && SafeId(o.objectNo)
    ensures 4 <= |f| <= 5 && ParseYearNumber(f[0]) == Ok(y) && ParseInt(f[1]) == Ok(a)
    ensures SingleReference(t, f[2]) == Ok(o) && ParseDecimal(f[3]) == Ok(b) && TrailingQuantity(f, 4) == Ok(q)
  {
    ObjectBalanceShape(f, y, a, o, b, q);
    YearNumberColumn(f[0], y);
    IntColumn(f[1], a);
    SingleReferenceColumn(t, f[2], o);
    DecimalColumn(f[3], b);
    QuantityParse(f, 4, q);
  }

  /** The tokens of a period balance, column by column. */
  lemma {:induction false} PeriodBalanceShape(f: seq<string>, y: YearNumber, p: Period, a: Int32,
                                              o: Option<ObjectReference>, b: Decimal, q: Option<Decimal>)
    requires f == PeriodBalanceValues(y, p, a, o, b, q)
    ensures |f| == 5 + (if q.Some? then 1 else 0) && f[0] == FormatInt(y) && f[1] == FormatPeriod(p)
    ensures f[2] == FormatInt(a) && f[3] == OptionalReferenceValue(o) && f[4] == FormatDecimal(b)
    ensures q.Some? ==> f[5] == FormatDecimal(q.value)
  {
    PeriodBalanceHead(f, y, p, a, o, b, q);
    PeriodBalanceTail(f, y, p, a, o, b, q);
  }

  lemma {:induction false} PeriodBalanceHead(f: seq<string>, y: YearNumber, p: Period, a: Int32,
                                             o: Option<ObjectReference>, b: Decimal, q: Option<Decimal>)
    requires f == PeriodBalanceValues(y, p, a, o, b, q)
    ensures |f| == 5 + (if q.Some? then 1 else 0) && f[0] == FormatInt(y) && f[1] == FormatPeriod(p)
  {
  }

  lemma {:induction false} PeriodBalanceTail(f: seq<string>, y: YearNumber, p: Period, a: Int32,
                                             o: Option<ObjectReference>, b: Decimal, q: Option<Decimal>)
    requires f == PeriodBalanceValues(y, p, a, o, b, q)
    ensures |f| >= 5 && f[2] == FormatInt(a) && f[3] == OptionalReferenceValue(o) && f[4] == FormatDecimal(b)
    ensures q.Some? ==> |f| == 6 && f[5] == FormatDecimal(q.value)
  {
  }

  lemma {:induction false} PeriodBalanceColumns(t: ItemType, f: seq<string>, y: YearNumber, p: Period, a: Int32,
                                                o: Option<ObjectReference>, b: Decimal, q: Option<Decimal>)
    requires f == PeriodBalanceValues(y, p, a, o, b, q) && 1 <= p.year <= 9999
    requires o.Some? ==> SafeId(o.value.objectNo)
    ensures 5 <= |f| <= 6 && ParseYearNumber(f[0]) == Ok(y) && ParsePeriod(f[1]) == Ok(p) && ParseInt(f[2]) == Ok(a)
    ensures OptionalReference(t, f[3]) == Ok(o) && ParseDecimal(f[4]) == Ok(b) && TrailingQuantity(f, 5) == Ok(q)
  {
    PeriodBalanceShape(f, y, p, a, o, b, q);
    YearNumberColumn(f[0], y);
    PeriodColumn(f[1], p);
    IntColumn(f[2], a);
    OptionalReferenceColumn(t, f[3], o);
    DecimalColumn(f[4], b);
    QuantityParse(f, 5, q);
  }

  /*
   * The writers each record goes to.
   */

  lemma {:induction false} AdressWrites(r: Record)
    requires r.Adress?
    ensures WriteFields(r) == WriteAdress(r.contact, r.distributionAddress, r.postalAddress, r.tel)
  {
  }

  lemma {:induction false} IntItemWrites(r: Record, n: Int32)
    requires r == Bkod(n) || r == Flagga(n) || r == Sietyp(n) || r == Taxar(n)
    ensures WriteFields(r) == FormatInt(n)
  {
  }

  lemma {:induction false} TextItemWrites(r: Record, s: string)
    requires r == Fnamn(s) || r == Fnr(s) || r == Kptyp(s) || r == Prosa(s) || r == Valuta(s) || r == Format(s)
    ensures WriteFields(r) == Quoted(s)
  {
  }

  lemma {:induction false} NumberedItemWrites(r: Record, n: Int32, s: string)
    requires r == Dim(n, s) || r == Enhet(n, s) || r == Konto(n, s)
    ensures WriteFields(r) == WriteNumberedText(n, s)
  {
  }

  lemma {:induction false} FtypWrites(r: Record)
    requires r.Ftyp?
    ensures WriteFields(r) == CompanyTypeName(r.companyType)
  {
  }

  lemma {:induction false} GenWrites(r: Record)
    requires r.Gen?
    ensures WriteFields(r) == WriteGen(r.date, r.signature)
  {
  }

  lemma {:induction false} KtypWrites(r: Record)
    requires r.Ktyp?
    ensures WriteFields(r) == WriteKtyp(r.accountNo, r.accountType)
  {
  }

  lemma {:induction false} ObjektWrites(r: Record)
    requires r.Objekt?
    ensures WriteFields(r) == WriteObjekt(r.dimensionNo, r.objectNo, r.objectName)
  {
  }

  lemma {:induction false} OmfattnWrites(r: Record)
    requires r.Omfattn?
    ensures WriteFields(r) == WriteOmfattn(r.date)
  {
  }

  lemma {:induction false} OrgNrWrites(r: Record)
    requires r.OrgNr?
    ensures WriteFields(r) == WriteOrgNr(r.orgNr, r.acqNo, r.actNo)
  {
  }

  lemma {:induction false} ProgramWrites(r: Record)
    requires r.Program?
    ensures WriteFields(r) == WriteProgram(r.programName, r.version)
  {
  }

  lemma {:induction false} RarWrites(r: Record)
    requires r.Rar?
    ensures WriteFields(r) == WriteRar(r.yearNumber, r.start, r.end)
  {
  }

  lemma {:induction false} SruWrites(r: Record)
    requires r.Sru?
    ensures WriteFields(r) == WriteSru(r.accountNo, r.sruCode)
  {
  }

  lemma {:induction false} UnderdimWrites(r: Record)
    requires r.Underdim?
    ensures WriteFields(r) == WriteUnderdim(r.dimensionNo, r.name, r.superDimensionNo)
  {
  }

  lemma {:induction false} BalanceWrites(r: Record, y: YearNumber, a: Int32, b: Decimal, q: Option<Decimal>)
    requires r == Ib(y, a, b, q) || r == Res(y, a, b, q) || r == Ub(y, a, b, q)
    ensures WriteFields(r) == WriteBalance(y, a, b, q)
  {
  }

  lemma {:induction false} ObjectBalanceWrites(r: Record, y: YearNumber, a: Int32, o: ObjectReference, b: Decimal, q: Option<Decimal>)
    requires r == Oib(y, a, o, b, q) || r == Oub(y, a, o, b, q)
    ensures WriteFields(r) == WriteObjectBalance(y, a, o, b, q)
  {
  }

  lemma {:induction false} PeriodBalanceWrites(r: Record, y: YearNumber, p: Period, a: Int32,
                                               o: Option<ObjectReference>, b: Decimal, q: Option<Decimal>)
    requires r == Pbudget(y, p, a, o, b, q) || r == Psaldo(y, p, a, o, b, q)
    ensures WriteFields(r) == WritePeriodBalance(y, p, a, o, b, q)
  {
  }

  /*
   * One lemma per record: its writer's text, then the parser of its label.
   */

  /** The fields text of `r` is framed and the parser of `t` reads `r` back from its tokens. */
  predicate ReadsBackAt(r: Record, t: ItemType) {
    Framed(WriteFields(r)) && ParseFields(t, Tokenize(WriteFields(r)), []) == Ok(r)
  }

  lemma {:induction false} AdressReadsBack(r: Record)
    requires r.Adress? && SafeText(r.contact) && SafeText(r.distributionAddress)
    requires SafeText(r.postalAddress) && SafeText(r.tel)
    ensures ReadsBackAt(r, ADRESS)
  {
    AdressWrites(r);
    AdressText(r.contact, r.distributionAddress, r.postalAddress, r.tel);
    AdressParses(Tokenize(WriteFields(r)));
  }

  /** BKOD, FLAGGA, SIETYP and TAXAR: one int. */
  lemma {:induction false} IntItemReadsBack(r: Record, t: ItemType, n: Int32)
    requires (t == BKOD && r == Bkod(n)) || (t == FLAGGA && r == Flagga(n))
      || (t == SIETYP && r == Sietyp(n)) || (t == TAXAR && r == Taxar(n))
    ensures ReadsBackAt(r, t)
  {
    IntItemWrites(r, n);
    IntText(n);
    ParseIntFormatInt(n);
    IntItemParses(t, Tokenize(WriteFields(r)), r, n);
  }

  /** FNAMN, FNR, KPTYP, PROSA and VALUTA: one text, quoted when it holds a space. */
  lemma {:induction false} TextItemReadsBack(r: Record, t: ItemType, s: string)
    requires (t == FNAMN && r == Fnamn(s)) || (t == FNR && r == Fnr(s)) || (t == KPTYP && r == Kptyp(s))
      || (t == PROSA && r == Prosa(s)) || (t == VALUTA && r == Valuta(s))
    requires SafeText(s)
    ensures ReadsBackAt(r, t)
  {
    TextItemWrites(r, s);
    QuotedText(s);
    TextItemParses(t, Tokenize(WriteFields(r)), r, s);
  }

  /** DIM, ENHET and KONTO: an int and a text quoted when it holds a space. */
  lemma {:induction false} NumberedItemReadsBack(r: Record, t: ItemType, n: Int32, s: string)
    requires (t == DIM && r == Dim(n, s)) || (t == ENHET && r == Enhet(n, s)) || (t == KONTO && r == Konto(n, s))
    requires SafeText(s)
    ensures ReadsBackAt(r, t)
  {
    NumberedItemWrites(r, n, s);
    NumberedText(n, s);
    ParseIntFormatInt(n);
    NumberedItemParses(t, Tokenize(WriteFields(r)), r, n, s);
  }

  /** FORMAT: the format name, kept as written. */
  lemma {:induction false} FormatReadsBack(r: Record)
    requires r.Format? && SafeText(r.format) && EqualsIgnoreCase(r.format, "PC8")
    ensures ReadsBackAt(r, FORMAT)
  {
    TextItemWrites(r, r.format);
    QuotedText(r.format);
    FormatParses(Tokenize(WriteFields(r)));
  }

  /** FTYP: the company type's name. */
  lemma {:induction false} FtypReadsBack(r: Record)
    requires r.Ftyp?
    ensures ReadsBackAt(r, FTYP)
  {
    var s := CompanyTypeName(r.companyType);
    FtypWrites(r);
    assert Renders(s, s);
    Single(s, s);
    CompanyTypeColumn(s, r.companyType);
    FtypParses(Tokenize(WriteFields(r)), r.companyType);
  }

  /** GEN: the date and the optional signature. */
  lemma {:induction false} GenReadsBack(r: Record)
    requires r.Gen? && FourDigitYear(r.date) && SafeOption(r.signature)
    ensures ReadsBackAt(r, GEN)
  {
    GenWrites(r);
    if r.signature.Some? {
      GenTextSigned(r.date, r.signature.value);
    } else {
      GenTextUnsigned(r.date);
    }
    GenColumns(Tokenize(WriteFields(r)), r.date, r.signature);
    GenParses(Tokenize(WriteFields(r)), r.date, r.signature);
  }

  lemma {:induction false} KtypReadsBack(r: Record)
    requires r.Ktyp?
    ensures ReadsBackAt(r, KTYP)
  {
    KtypWrites(r);
    KtypText(r.accountNo, r.accountType);
    var f := Tokenize(WriteFields(r));
    IntColumn(f[0], r.accountNo);
    AccountTypeColumn(f[1], r.accountType);
    KtypParses(f, r.accountNo, r.accountType);
  }

  lemma {:induction false} ObjektReadsBack(r: Record)
    requires r.Objekt? && SafeText(r.objectNo) && SafeText(r.objectName)
    ensures ReadsBackAt(r, OBJEKT)
  {
    ObjektWrites(r);
    ObjektText(r.dimensionNo, r.objectNo, r.objectName);
    ParseIntFormatInt(r.dimensionNo);
    ObjektParses(Tokenize(WriteFields(r)), r.dimensionNo);
  }

  lemma {:induction false} OmfattnReadsBack(r: Record)
    requires r.Omfattn? && FourDigitYear(r.date)
    ensures ReadsBackAt(r, OMFATTN)
  {
    var d := FormatDate(r.date);
    OmfattnWrites(r);
    DateRenders(r.date);
    Single(d, d);
    DateReads(r.date);
    OmfattnParses(Tokenize(WriteFields(r)), r.date);
  }

  lemma {:induction false} OrgNrReadsBack(r: Record)
    requires r.OrgNr? && SafeText(r.orgNr) && (r.actNo.Some? ==> r.acqNo.Some?)
    ensures ReadsBackAt(r, ORGNR)
  {
    OrgNrWrites(r);
    OrgNrText(r.orgNr, r.acqNo, r.actNo);
    OrgNrColumns(Tokenize(WriteFields(r)), r.orgNr, r.acqNo, r.actNo);
    OrgNrParses(Tokenize(WriteFields(r)), r.acqNo, r.actNo);
  }

  lemma {:induction false} ProgramReadsBack(r: Record)
    requires r.Program? && SafeText(r.programName) && SafeText(r.version)
    ensures ReadsBackAt(r, PROGRAM)
  {
    ProgramWrites(r);
    ProgramText(r.programName, r.version);
    ProgramParses(Tokenize(WriteFields(r)));
  }

  lemma {:induction false} RarReadsBack(r: Record)
    requires r.Rar? && FourDigitYear(r.start) && FourDigitYear(r.end)
    ensures ReadsBackAt(r, RAR)
  {
    RarWrites(r);
    RarText(r.yearNumber, r.start, r.end);
    var f := Tokenize(WriteFields(r));
    YearNumberColumn(f[0], r.yearNumber);
    DateColumn(f[1], r.start);
    DateColumn(f[2], r.end);
    RarParses(f, r.yearNumber, r.start, r.end);
  }

  lemma {:induction false} SruReadsBack(r: Record)
    requires r.Sru?
    ensures ReadsBackAt(r, SRU)
  {
    SruWrites(r);
    SruText(r.accountNo, r.sruCode);
    ParseIntFormatInt(r.accountNo);
    ParseIntFormatInt(r.sruCode);
    SruParses(Tokenize(WriteFields(r)), r.accountNo, r.sruCode);
  }

  lemma {:induction false} UnderdimReadsBack(r: Record)
    requires r.Underdim? && SafeText(r.name)
    ensures ReadsBackAt(r, UNDERDIM)
  {
    UnderdimWrites(r);
    UnderdimText(r.dimensionNo, r.name, r.superDimensionNo);
    ParseIntFormatInt(r.dimensionNo);
    ParseIntFormatInt(r.superDimensionNo);
    UnderdimParses(Tokenize(WriteFields(r)), r.dimensionNo, r.superDimensionNo);
  }

  /** IB, RES and UB: year number, account, balance and the quantity when there is one. */
  lemma {:induction false} BalanceReadsBack(r: Record, t: ItemType, y: YearNumber, a: Int32, b: Decimal, q: Option<Decimal>)
    requires (t == IB && r == Ib(y, a, b, q)) || (t == RES && r == Res(y, a, b, q)) || (t == UB && r == Ub(y, a, b, q))
    ensures ReadsBackAt(r, t)
  {
    BalanceWrites(r, y, a, b, q);
    BalanceText(y, a, b, q);
    var f := Tokenize(WriteFields(r));
    BalanceColumns(f, y, a, b, q);
    BalanceParses(t, f, r, y, a, b, q);
    BalanceDispatch(t, f);
  }

  /** OIB and OUB: year number, account, the one reference, balance and the quantity when there is one. */
  lemma {:induction false} ObjectBalanceReadsBack(r: Record, t: ItemType, y: YearNumber, a: Int32, o: ObjectReference,
                                                  b: Decimal, q: Option<Decimal>)
    requires (t == OIB && r == Oib(y, a, o, b, q)) || (t == OUB && r == Oub(y, a, o, b, q))
    requires SafeId(o.objectNo)
    ensures ReadsBackAt(r, t)
  {
    ObjectBalanceWrites(r, y, a, o, b, q);
    ObjectBalanceText(y, a, o, b, q);
    var f := Tokenize(WriteFields(r));
    ObjectBalanceColumns(t, f, y, a, o, b, q);
    ObjectBalanceParses(t, f, r, y, a, o, b, q);
    ObjectBalanceDispatch(t, f);
  }

  /** PBUDGET and PSALDO: year number, period, account, the reference or "{}", balance and the quantity when there is one. */
  lemma {:induction false} PeriodBalanceReadsBack(r: Record, t: ItemType, y: YearNumber, p: Period, a: Int32,
                                                  o: Option<ObjectReference>, b: Decimal, q: Option<Decimal>)
    requires (t == PBUDGET && r == Pbudget(y, p, a, o, b, q)) || (t == PSALDO && r == Psaldo(y, p, a, o, b, q))
    requires 1 <= p.year <= 9999 && (o.Some? ==> SafeId(o.value.objectNo))
    ensures ReadsBackAt(r, t)
  {
    PeriodBalanceWrites(r, y, p, a, o, b, q);
    PeriodBalanceText(y, p, a, o, b, q);
    var f := Tokenize(WriteFields(r));
    PeriodBalanceColumns(t, f, y, p, a, o, b, q);
    PeriodBalanceParses(t, f, r, y, p, a, o, b, q);
    PeriodBalanceDispatch(t, f);
  }

  /*
   * The period column as the PBUDGET and PSALDO writers print it.
   */

  /** A number printed between solid text is a bare field. */
  lemma {:induction false} NumberInBareField(before: string, x: int, after: string)
    requires |before| > 0 && before[0] != '"' && before[0] != '{'
    requires forall i :: 0 <= i < |before| ==> Solid(before[i])
    requires forall i :: 0 <= i < |after| ==> Solid(after[i])
    ensures Renders(before + FormatInt(x) + after, before + FormatInt(x) + after)
  {
    var n := FormatInt(x);
    var p := before + n + after;
    forall i | 0 <= i < |p|
      ensures Solid(p[i])
    {
      if i < |before| {
        assert p[i] == before[i];
      } else if i < |before| + |n| {
        assert p[i] == n[i - |before|];
      } else {
        assert p[i] == after[i - |before| - |n|];
      }
    }
  }

  /** The record text of a period is two bare fields around one space, and the first is no yyyyMM period. */
  lemma {:induction false} RecordPeriodTextPieces(p: Period)
    ensures var head := "Period[year=" + FormatInt(p.year) + ",";
      var tail := "month=" + FormatInt(p.month) + "]";
      RecordPeriodText(p) == head + " " + tail && Renders(head, head) && Renders(tail, tail)
      && ParsePeriod(head).Err?
  {
    var head := "Period[year=" + FormatInt(p.year) + ",";
    NumberInBareField("Period[year=", p.year, ",");
    NumberInBareField("month=", p.month, "]");
    assert head[0] == 'P' && !IsDigit(head[0]) && !IsWhitespace(head[0]);
  }

  /** A column holding one space joins like two columns. */
  lemma {:induction false} JoinSpaceSplit(a: string, h: string, t: string, rest: seq<string>)
    ensures JoinSpace([a, h + " " + t] + rest) == JoinSpace([a, h, t] + rest)
  {
    var two := [a, h + " " + t] + rest;
    var three := [a, h, t] + rest;
    assert two[1..] == [h + " " + t] + rest && three[1..] == [h, t] + rest;
    assert ([h, t] + rest)[1..] == [t] + rest;
    assert JoinSpace(two) == a + " " + JoinSpace([h + " " + t] + rest);
    assert JoinSpace([h, t] + rest) == h + " " + JoinSpace([t] + rest);
    if |rest| == 0 {
      assert [h + " " + t] + rest == [h + " " + t] && [t] + rest == [t];
    } else {
      assert ([h + " " + t] + rest)[1..] == rest && ([t] + rest)[1..] == rest;
      assert JoinSpace([h + " " + t] + rest) == (h + " " + t) + " " + JoinSpace(rest);
      assert JoinSpace([t] + rest) == t + " " + JoinSpace(rest);
    }
  }

  /** Columns written after a column holding one space, then `n` absent ones, trimmed: the space splits that column. */
  lemma {:induction false} SplitColumnTokens(a: string, h: string, t: string, rest: seq<string>, values: seq<string>, n: nat)
    requires AllRender([a, h, t] + rest, values)
    ensures Tokenize(Trim(JoinSpace([a, h + " " + t] + rest + Blanks(n)))) == values
  {
    JoinSpaceSplit(a, h, t, rest + Blanks(n));
    Written([a, h, t] + rest, values, n);
    assert [a, h + " " + t] + rest + Blanks(n) == [a, h + " " + t] + (rest + Blanks(n));
    assert [a, h, t] + rest + Blanks(n) == [a, h, t] + (rest + Blanks(n));
  }

  lemma {:induction false} SplitColumnTokensFull(a: string, h: string, t: string, rest: seq<string>, values: seq<string>)
    requires AllRender([a, h, t] + rest, values)
    ensures Tokenize(Trim(JoinSpace([a, h + " " + t] + rest))) == values
  {
    SplitColumnTokens(a, h, t, rest, values, 0);
    assert rest + Blanks(0) == rest;
    assert [a, h + " " + t] + rest + Blanks(0) == [a, h + " " + t] + rest;
  }

  lemma {:induction false} SplitColumnTokensBlank(a: string, h: string, t: string, rest: seq<string>, values: seq<string>)
    requires AllRender([a, h, t] + rest, values)
    ensures Tokenize(Trim(JoinSpace([a, h + " " + t] + (rest + [""])))) == values
  {
    SplitColumnTokens(a, h, t, rest, values, 1);
    assert Blanks(1) == [""];
    assert [a, h + " " + t] + rest + Blanks(1) == [a, h + " " + t] + (rest + [""]);
  }

  lemma {:induction false} SixColumns(a: string, b: string, c: string, d: string, e: string, g: string)
    ensures [a, b] + [c, d, e, g] == [a, b, c, d, e, g]
    ensures [c, d, e] + [g] == [c, d, e, g]
  {
  }

  /** A period balance line with a quantity whose period column holds one space: seven tokens. */
  lemma {:induction false} SplitPeriodWithQuantity(y: string, p: string, head: string, tail: string, a: string, o: string,
                                                   ov: string, b: string, q: string)
    requires p == head + " " + tail
    requires Renders(y, y) && Renders(head, head) && Renders(tail, tail) && Renders(a, a) && Renders(o, ov) && Renders(b, b)
    requires Renders(q, q)
    ensures |Tokenize(Trim(JoinSpace([y, p, a, o, b, q])))| == 7
  {
    var values := [y, head, tail, a, ov, b, q];
    assert Tokenize(Trim(JoinSpace([y, p, a, o, b, q]))) == values by {
      assert AllRender([y, head, tail, a, o, b, q], values);
      assert [y, head, tail] + [a, o, b, q] == [y, head, tail, a, o, b, q];
      SplitColumnTokensFull(y, head, tail, [a, o, b, q], values);
      SixColumns(y, p, a, o, b, q);
    }
  }

  /** A period balance line without a quantity whose period column holds one space: six tokens, the second the text before the space. */
  lemma {:induction false} SplitPeriodWithoutQuantity(y: string, p: string, head: string, tail: string, a: string, o: string,
                                                      ov: string, b: string, q: string)
    requires p == head + " " + tail && q == ""
    requires Renders(y, y) && Renders(head, head) && Renders(tail, tail) && Renders(a, a) && Renders(o, ov) && Renders(b, b)
    ensures var f := Tokenize(Trim(JoinSpace([y, p, a, o, b, q])));
      |f| == 6 && f[1] == head
  {
    var values := [y, head, tail, a, ov, b];
    assert Tokenize(Trim(JoinSpace([y, p, a, o, b, q]))) == values by {
      assert AllRender([y, head, tail, a, o, b], values);
      assert [y, head, tail] + [a, o, b] == [y, head, tail, a, o, b];
      SplitColumnTokensBlank(y, head, tail, [a, o, b], values);
      SixColumns(y, p, a, o, b, q);
    }
  }

  /** The period balance parser refuses seven fields, and six whose period column is unreadable. */
  lemma {:induction false} PeriodBalanceRejects(t: ItemType, f: seq<string>, head: string)
    requires t == PBUDGET || t == PSALDO
    requires |f| == 7 || (|f| == 6 && f[1] == head && ParsePeriod(head).Err?)
    ensures ParsePeriodBalance(t, f).Err?
  {
  }

  /**
   * The PBUDGET and PSALDO writers as the Java code has them are never read
   * back: with a quantity the line has seven fields, one more than the
   * reader allows, and without one its period column is not yyyyMM.
   */
  lemma {:induction false} PeriodBalanceAsWrittenUnreadable(t: ItemType, yearNumber: YearNumber, period: Period, account: Int32,
                                                           reference: Option<ObjectReference>, balance: Decimal, quantity: Option<Decimal>)
    requires t == PBUDGET || t == PSALDO
    requires reference.Some? ==> SafeId(reference.value.objectNo)
    ensures ParsePeriodBalance(t, Tokenize(WritePeriodBalanceAsWritten(yearNumber, period, account, reference, balance, quantity))).Err?
  {
    var head := "Period[year=" + FormatInt(period.year) + ",";
    var tail := "month=" + FormatInt(period.month) + "]";
    RecordPeriodTextPieces(period);
    IntRenders(yearNumber);
    IntRenders(account);
    OptionalReferenceRenders(reference);
    DecimalRenders(balance);
    var y, a, o, ov, b := FormatInt(yearNumber), FormatInt(account), ReferenceOrBraces(reference),
      OptionalReferenceValue(reference), FormatDecimal(balance);
    var p, q := RecordPeriodText(period), DecimalOrEmpty(quantity);
    var w := WritePeriodBalanceAsWritten(yearNumber, period, account, reference, balance, quantity);
    assert w == Trim(JoinSpace([y, p, a, o, b, q]));
    if quantity.Some? {
      DecimalRenders(quantity.value);
      SplitPeriodWithQuantity(y, p, head, tail, a, o, ov, b, q);
    } else {
      SplitPeriodWithoutQuantity(y, p, head, tail, a, o, ov, b, q);
    }
    PeriodBalanceRejects(t, Tokenize(w), head);
  }
}
