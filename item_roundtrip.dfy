/*
 * Whole lines: every well-formed record but the voucher, written by
 * toFileString and read back by toModel(String), is the same record; a
 * well-formed voucher, written as its block of lines, is read back by
 * toModel(List) from the lines the assembler collects for it.
 */
module ItemRoundTrip {
  import opened Wrappers
  import opened Text
  import opened Numbers
  import opened Calendar
  import opened Values
  import opened FieldParser
  import opened Items
  import opened InFieldMapper
  import opened OutFieldMapper
  import opened RoundTrip
  import opened RecordRoundTrip
  import opened TransactionRoundTrip

  /** The records of the first half of the variants, in declaration order. */
  predicate FirstHalf(r: Record) {
    r.Adress? || r.Bkod? || r.Dim? || r.Enhet? || r.Flagga? || r.Fnamn? || r.Fnr? || r.Format?
    || r.Ftyp? || r.Gen? || r.Ib? || r.Konto? || r.Kptyp? || r.Ktyp? || r.Objekt? || r.Oib?
  }

  lemma {:induction false} FirstHalfReadsBack(r: Record)
    requires WellFormed(r) && FirstHalf(r)
    ensures ReadsBackAt(r, TypeOf(r))
  {
    match r
    case Adress(_, _, _, _) => AdressReadsBack(r);
    case Bkod(n) => IntItemReadsBack(r, BKOD, n);
    case Dim(n, s) => NumberedItemReadsBack(r, DIM, n, s);
    case Enhet(n, s) => NumberedItemReadsBack(r, ENHET, n, s);
    case Flagga(n) => IntItemReadsBack(r, FLAGGA, n);
    case Fnamn(s) => TextItemReadsBack(r, FNAMN, s);
    case Fnr(s) => TextItemReadsBack(r, FNR, s);
    case Format(_) => FormatReadsBack(r);
    case Ftyp(_) => FtypReadsBack(r);
    case Gen(_, _) => GenReadsBack(r);
    case Ib(y, a, b, q) => BalanceReadsBack(r, IB, y, a, b, q);
    case Konto(n, s) => NumberedItemReadsBack(r, KONTO, n, s);
    case Kptyp(s) => TextItemReadsBack(r, KPTYP, s);
    case Ktyp(_, _) => KtypReadsBack(r);
    case Objekt(_, _, _) => ObjektReadsBack(r);
    case Oib(y, a, o, b, q) => ObjectBalanceReadsBack(r, OIB, y, a, o, b, q);
  }

  lemma {:induction false} SecondHalfReadsBack(r: Record)
    requires WellFormed(r) && !FirstHalf(r) && !r.Ver?
    ensures ReadsBackAt(r, TypeOf(r))
  {
    match r
    case Omfattn(_) => OmfattnReadsBack(r);
    case OrgNr(_, _, _) => OrgNrReadsBack(r);
    case Oub(y, a, o, b, q) => ObjectBalanceReadsBack(r, OUB, y, a, o, b, q);
    case Pbudget(y, p, a, o, b, q) => PeriodBalanceReadsBack(r, PBUDGET, y, p, a, o, b, q);
    case Program(_, _) => ProgramReadsBack(r);
    case Prosa(s) => TextItemReadsBack(r, PROSA, s);
    case Psaldo(y, p, a, o, b, q) => PeriodBalanceReadsBack(r, PSALDO, y, p, a, o, b, q);
    case Rar(_, _, _) => RarReadsBack(r);
    case Res(y, a, b, q) => BalanceReadsBack(r, RES, y, a, b, q);
    case Sietyp(n) => IntItemReadsBack(r, SIETYP, n);
    case Sru(_, _) => SruReadsBack(r);
    case Taxar(n) => IntItemReadsBack(r, TAXAR, n);
    case Ub(y, a, b, q) => BalanceReadsBack(r, UB, y, a, b, q);
    case Underdim(_, _, _) => UnderdimReadsBack(r);
    case Valuta(s) => TextItemReadsBack(r, VALUTA, s);
    case Tx(tx) =>
      TransactionReadsBack(tx);
      TransactionDispatch(tx.kind, Tokenize(TransactionFields(tx)), tx);
  }

  /**
   * The central round trip for single-line records: for every well-formed
   * record but the voucher, the fields text the writer produces is framed
   * and the parser of the record's own label reads the record back from
   * its tokens.
   */
  lemma {:induction false} RecordReadsBack(r: Record)
    requires WellFormed(r) && !r.Ver?
    ensures Framed(WriteFields(r))
    ensures ParseFields(TypeOf(r), Tokenize(WriteFields(r)), []) == Ok(r)
  {
    if FirstHalf(r) {
      FirstHalfReadsBack(r);
    } else {
      SecondHalfReadsBack(r);
    }
  }

  /** Every parser needs at least one field. */
  lemma {:induction false} MinFieldsPositive(t: ItemType)
    ensures MinFields(t) >= 1
  {
  }

  /** A line toFileString writes for a record is never blank at either end. */
  lemma {:induction false} ItemLineFramed(t: ItemType, fields: string)
    requires Framed(fields) && |fields| > 0
    ensures Strip(WriteItem(t, fields)) == WriteItem(t, fields)
  {
    var line := WriteItem(t, fields);
    assert line[0] == '#' && line[|line| - 1] == fields[|fields| - 1];
    StripFramed(line);
  }

  /**
   * The line round trip for single-line records: the line toFileString
   * writes for a well-formed record other than a voucher is unchanged by
   * strip, and toModel(String) reads the record back from it.
   */
  lemma {:induction false} RecordLineReads(r: Record)
    requires WellFormed(r) && !r.Ver?
    ensures Strip(FileString(r)) == FileString(r)
    ensures ToModelLine(FileString(r)) == Ok(r)
  {
    var t, w := TypeOf(r), WriteFields(r);
    RecordReadsBack(r);
    MinFieldsPositive(t);
    if |Tokenize(w)| < MinFields(t) {
      ParseFieldsArity(t, Tokenize(w), []);
    }
    TokenizeCount(w);
    ItemLineFramed(t, w);
    SplitLineOfTag(t, w);
    if t == VER {
      HasTypeTypeOf(r, VER);
      assert false;
    }
    ToModelLineOf(FileString(r), t, w, r);
  }

  /** The only label LabelOf knows that begins with "VE" is VER. */
  lemma {:induction false} LabelOfVe(s: string)
    requires |s| >= 2 && s[0] == 'V' && s[1] == 'E'
    ensures LabelOf(s).Some? ==> LabelOf(s).value == VER
  {
  }

  /** No label but VER begins with the three letters of VER. */
  lemma {:induction false} TagNameNotVer(t: ItemType)
    requires t != VER
    ensures |TagName(t)| < 3 || TagName(t)[..3] != "VER"
  {
    var name := TagName(t);
    LabelOfTagName(t);
    if |name| >= 3 && name[..3] == "VER" {
      LabelOfVe(name);
    }
  }

  /** A line written under any label but VER does not begin with "#VER". */
  lemma {:induction false} ItemLineNotVer(t: ItemType, fields: string)
    requires t != VER
    ensures !StartsWith(WriteItem(t, fields), "#VER")
  {
    var name := TagName(t);
    var line := WriteItem(t, fields);
    TagNameNotVer(t);
    if |name| >= 3 {
      assert line[1..4] == name[..3];
    } else {
      assert line[1 + |name|] == ' ';
    }
  }

  /*
   * Vouchers.
   */

  /** The columns a well-formed voucher's header writes: series, number, date, then the optional ones present. */
  function VerParts(v: Record): seq<string>
    requires v.Ver? && WellFormed(v)
  {
    HeaderParts(v.series.value, v.verificationNo.value, v.date, v.text, v.regDate, v.sign)
  }

  /** The columns of a voucher header with a series and a number, the optional ones only when present. */
  function HeaderParts(series: string, number: string, date: LocalDate,
                       text: Option<string>, regDate: Option<LocalDate>, sign: Option<string>): seq<string>
  {
    var s, n, d := Quoted(series), Quoted(number), FormatDate(date);
    if text.None? then [s, n, d]
    else if regDate.None? then [s, n, d, Quoted(text.value)]
    else if sign.None? then [s, n, d, Quoted(text.value), FormatDate(regDate.value)]
    else [s, n, d, Quoted(text.value), FormatDate(regDate.value), Quoted(sign.value)]
  }

  /** The tokens the scanner reads from a well-formed voucher's header. */
  function VerValues(v: Record): seq<string>
    requires v.Ver? && WellFormed(v)
  {
    var s, n, d := v.series.value, v.verificationNo.value, FormatDate(v.date);
    if v.text.None? then [s, n, d]
    else if v.regDate.None? then [s, n, d, v.text.value]
    else if v.sign.None? then [s, n, d, v.text.value, FormatDate(v.regDate.value)]
    else [s, n, d, v.text.value, FormatDate(v.regDate.value), v.sign.value]
  }

  /** One more column joined: a space and the column after the joined ones. */
  lemma {:induction false} JoinSpaced(parts: seq<string>, p: string)
    requires |parts| > 0
    ensures JoinSpace(parts + [p]) == JoinSpace(parts) + (" " + p)
  {
    JoinSnoc(parts, p, " ");
  }

  /** Three columns joined by single spaces. */
  lemma {:induction false} ThreeJoined(s: string, n: string, d: string)
    ensures JoinSpace([s, n, d]) == s + (" " + n) + " " + d
  {
    assert JoinSpace([s]) == s;
    JoinSpaced([s], n);
    assert [s] + [n] == [s, n];
    JoinSnoc([s, n], d, " ");
    assert [s, n] + [d] == [s, n, d];
  }

  /** A header with a series and a number is its present columns joined by single spaces. */
  lemma {:induction false} HeaderTextJoined(series: string, number: string, date: LocalDate,
                                            text: Option<string>, regDate: Option<LocalDate>, sign: Option<string>)
    requires (regDate.Some? || sign.Some? ==> text.Some?) && (sign.Some? ==> regDate.Some?)
    ensures HeaderText(Some(series), Some(number), date, text, regDate, sign)
        == JoinSpace(HeaderParts(series, number, date, text, regDate, sign))
  {
    var s, n, d := Quoted(series), Quoted(number), FormatDate(date);
    ThreeJoined(s, n, d);
    var h3 := JoinSpace([s, n, d]);
    var h := HeaderText(Some(series), Some(number), date, text, regDate, sign);
    assert h == h3 + SpacedText(text) + SpacedDate(regDate) + SpacedText(sign);
    if text.None? {
      assert h == h3;
    } else {
      var t := Quoted(text.value);
      JoinSpaced([s, n, d], t);
      assert [s, n, d] + [t] == [s, n, d, t];
      LateColumnsJoined(s, n, d, t, regDate, sign);
    }
  }

  /** The registration date and the signature, when present, join onto the first four columns. */
  lemma {:induction false} LateColumnsJoined(s: string, n: string, d: string, t: string,
                                             regDate: Option<LocalDate>, sign: Option<string>)
    requires sign.Some? ==> regDate.Some?
    ensures JoinSpace([s, n, d, t]) + SpacedDate(regDate) + SpacedText(sign)
        == JoinSpace(if regDate.None? then [s, n, d, t]
                     else if sign.None? then [s, n, d, t, FormatDate(regDate.value)]
                     else [s, n, d, t, FormatDate(regDate.value), Quoted(sign.value)])
  {
    var h4 := JoinSpace([s, n, d, t]);
    if regDate.Some? {
      var r := FormatDate(regDate.value);
      JoinSpaced([s, n, d, t], r);
      assert [s, n, d, t] + [r] == [s, n, d, t, r];
      if sign.Some? {
        var g := Quoted(sign.value);
        JoinSpaced([s, n, d, t, r], g);
        assert [s, n, d, t, r] + [g] == [s, n, d, t, r, g];
      }
    }
  }

  /** The header the VER writer appends is its present columns joined by single spaces. */
  lemma {:induction false} VerHeaderJoined(v: Record)
    requires v.Ver? && WellFormed(v)
    ensures VerHeader(v) == JoinSpace(VerParts(v))
  {
    assert v.series == Some(v.series.value) && v.verificationNo == Some(v.verificationNo.value);
    HeaderTextJoined(v.series.value, v.verificationNo.value, v.date, v.text, v.regDate, v.sign);
  }

  /** Each column of a well-formed voucher's header renders as its token. */
  lemma {:induction false} VerPartsRender(v: Record)
    requires v.Ver? && WellFormed(v)
    ensures AllRender(VerParts(v), VerValues(v))
  {
    var s, n, d := Quoted(v.series.value), Quoted(v.verificationNo.value), FormatDate(v.date);
    var sv, nv := v.series.value, v.verificationNo.value;
    QuotedRenders(sv);
    QuotedRenders(nv);
    DateRenders(v.date);
    if v.text.None? {
      Row3(s, sv, n, nv, d, d);
    } else {
      var t, tv := Quoted(v.text.value), v.text.value;
      QuotedRenders(tv);
      if v.regDate.None? {
        Row4(s, sv, n, nv, d, d, t, tv);
      } else {
        var r := FormatDate(v.regDate.value);
        DateRenders(v.regDate.value);
        if v.sign.None? {
          Row5(s, sv, n, nv, d, d, t, tv, r, r);
        } else {
          QuotedRenders(v.sign.value);
          Row6(s, sv, n, nv, d, d, t, tv, r, r, Quoted(v.sign.value), v.sign.value);
        }
      }
    }
  }

  /** A well-formed voucher's header is framed and scans as VerValues. */
  lemma {:induction false} VerHeaderColumns(v: Record)
    requires v.Ver? && WellFormed(v)
    ensures Framed(VerHeader(v)) && Tokenize(VerHeader(v)) == VerValues(v)
  {
    VerHeaderJoined(v);
    VerPartsRender(v);
    Plain(VerParts(v), VerValues(v));
  }

  /**
   * The converse of ParseVer's contract: header tokens whose columns read
   * as a voucher's fields, with the voucher's transactions as sub-items,
   * parse as that voucher.
   */
  lemma {:induction false} ParseVerOf(f: seq<string>, subItems: seq<Record>, v: Record)
    requires v.Ver? && 3 <= |f| <= 6
    requires v.series == OptionalColumn(f, 0) && v.verificationNo == OptionalColumn(f, 1)
    requires ParseDate(f[2]) == Ok(v.date)
    requires v.text == OptionalColumn(f, 3) && v.sign == OptionalColumn(f, 5)
    requires v.regDate.Some? <==> |f| > 4 && f[4] != ""
    requires v.regDate.Some? ==> ParseDate(f[4]) == Ok(v.regDate.value)
    requires |subItems| == |v.transactions| && forall i :: 0 <= i < |subItems| ==> subItems[i] == Tx(v.transactions[i])
    ensures ParseVer(f, subItems) == Ok(v)
  {
    var regDate := if |f| > 4 then OptionalDate(f[4]) else Ok(None);
    assert regDate == Ok(v.regDate);
    assert AllTransactions(subItems);
    assert Transactions(subItems) == v.transactions;
  }

  /** Where each field of a well-formed voucher sits among VerValues. */
  lemma {:induction false} VerValuesAt(v: Record)
    requires v.Ver? && WellFormed(v)
    ensures var f := VerValues(v);
      3 <= |f| <= 6 && v.series == OptionalColumn(f, 0) && v.verificationNo == OptionalColumn(f, 1)
      && f[2] == FormatDate(v.date) && v.text == OptionalColumn(f, 3) && v.sign == OptionalColumn(f, 5)
      && (v.regDate.Some? <==> |f| > 4) && (v.regDate.Some? ==> f[4] == FormatDate(v.regDate.value))
  {
    var f := VerValues(v);
    assert SafeText(v.series.value) && SafeText(v.verificationNo.value) && SafeOption(v.text) && SafeOption(v.sign);
    assert v.regDate.Some? || v.sign.Some? ==> v.text.Some?;
    assert v.sign.Some? ==> v.regDate.Some?;
    assert f[0] == v.series.value && f[1] == v.verificationNo.value;
  }

  /** The VER parser rebuilds a well-formed voucher from VerValues and its transactions. */
  lemma {:induction false} VerParses(v: Record, subItems: seq<Record>)
    requires v.Ver? && WellFormed(v)
    requires |subItems| == |v.transactions| && forall i :: 0 <= i < |subItems| ==> subItems[i] == Tx(v.transactions[i])
    ensures ParseVer(VerValues(v), subItems) == Ok(v)
  {
    VerValuesAt(v);
    DateReads(v.date);
    if v.regDate.Some? {
      var r := FormatDate(v.regDate.value);
      DateReads(v.regDate.value);
      DateRenders(v.regDate.value);
      PieceFramed(r, r);
    }
    ParseVerOf(VerValues(v), subItems, v);
  }

  /** The transaction lines of a voucher as the assembler buffers them: stripped of their indentation. */
  function VerBody(v: Record): (lines: seq<string>)
    requires v.Ver?
    ensures |lines| == |v.transactions|
  {
    seq(|v.transactions|, i requires 0 <= i < |v.transactions| =>
      WriteItem(KindType(v.transactions[i].kind), TransactionFields(v.transactions[i])))
  }

  /** The header line of a voucher as the assembler buffers it. */
  function VerLine(v: Record): string
    requires v.Ver?
  {
    "#VER " + VerHeader(v)
  }

  /** "#VER " is the VER label written by writeItem. */
  lemma {:induction false} VerPrefix(h: string)
    ensures "#VER " + h == "#" + TagName(VER) + " " + h
  {
    assert TagName(VER) == "VER";
    assert "#" + "VER" + " " == "#VER ";
  }

  /** The header line of a well-formed voucher splits into the VER label and its header. */
  lemma {:induction false} VerLineSplits(v: Record)
    requires v.Ver? && WellFormed(v)
    ensures SplitLine(VerLine(v)) == Ok((VER, VerHeader(v)))
  {
    VerHeaderColumns(v);
    VerPrefix(VerHeader(v));
    SplitLineOfTag(VER, VerHeader(v));
  }

  /** A transaction's unindented line is read back as that transaction. */
  lemma {:induction false} TransactionItemReads(tx: Transaction)
    requires TransactionWellFormed(tx)
    ensures ToModelLine(WriteItem(KindType(tx.kind), TransactionFields(tx))) == Ok(Tx(tx))
  {
    TransactionLineStrips(tx);
    TransactionLineReads(tx);
  }

  /** Every buffered transaction line of a well-formed voucher is read as its transaction. */
  lemma {:induction false} VerBodyReads(v: Record)
    requires v.Ver? && WellFormed(v)
    ensures MapLines(VerBody(v), ToModelLine) == Ok(TxRecords(v))
  {
    var body := VerBody(v);
    var txs := TxRecords(v);
    forall i | 0 <= i < |body|
      ensures ToModelLine(body[i]) == Ok(txs[i])
    {
      var tx := v.transactions[i];
      assert TransactionWellFormed(tx);
      assert body[i] == WriteItem(KindType(tx.kind), TransactionFields(tx));
      TransactionItemReads(tx);
    }
    var m := MapLines(body, ToModelLine);
    assert m.Ok?;
    assert m.value == txs;
  }

  /**
   * The voucher round trip: toModel(List) reads a well-formed voucher back
   * from its header line followed by its stripped transaction lines.
   */
  lemma {:induction false} VerBlockReads(v: Record)
    requires v.Ver? && WellFormed(v)
    ensures ToModelBlock([VerLine(v)] + VerBody(v)) == Ok(v)
  {
    var lines := [VerLine(v)] + VerBody(v);
    var subItems := TxRecords(v);
    assert lines[0] == VerLine(v) && lines[1..] == VerBody(v);
    VerLineSplits(v);
    VerBodyReads(v);
    VerHeaderColumns(v);
    VerParses(v, subItems);
  }
}
