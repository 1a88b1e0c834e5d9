/*
 * Reading back a transaction line and a whole voucher.  A transaction is
 * written as its seven columns with the trailing blanks stripped; for a
 * well-formed transaction the scanner reads back one token per written
 * column and the transaction parser rebuilds the transaction.  A voucher
 * is written as a header line, a '{' line, one indented line per
 * transaction and a '}' line; its header reads back as the voucher's own
 * fields and every indented line as its transaction.
 */
module TransactionRoundTrip {
  import opened Wrappers
  import opened Text
  import opened Numbers
  import opened Calendar
  import opened Values
  import opened FieldParser
  import opened Items
  import opened InFieldMapper
  import opened OutFieldMapper
  import opened RoundTrip

  /*
   * Transactions.
   */

  /** The text column renders as the text, or, when it holds the place of an absent text, as the empty token. */
  lemma {:induction false} TxTextRenders(tx: Transaction)
    requires TransactionWellFormed(tx) && (tx.text.Some? || tx.quantity.Some? || tx.sign.Some?)
    ensures Renders(TransactionText(tx), if tx.text.Some? then tx.text.value else "")
  {
    if tx.text.Some? {
      QuotedRenders(tx.text.value);
    } else {
      var p := TransactionText(tx);
      assert p == "\"\"";
      assert QuotedPiece(p) && p[1..|p| - 1] == "";
    }
  }

  /**
   * The tokens a well-formed transaction's fields text reads back as: the
   * head, then the date, the text (empty when only its place is held), the
   * quantity and the signature, up to the last one present.
   */
  function TxValues(tx: Transaction): seq<string>
    requires TransactionWellFormed(tx)
  {
    var a, refs, amount := FormatInt(tx.accountNo), JoinSpace(Pairs(tx.objectReferences)), FormatDecimal(tx.amount);
    if tx.transactionDate.None? then [a, refs, amount]
    else
      var date := FormatDate(tx.transactionDate.value);
      if tx.text.None? && tx.quantity.None? then [a, refs, amount, date]
      else
        var text := if tx.text.Some? then tx.text.value else "";
        if tx.quantity.None? then [a, refs, amount, date, text]
        else
          var quantity := FormatDecimal(tx.quantity.value);
          if tx.sign.None? then [a, refs, amount, date, text, quantity]
          else [a, refs, amount, date, text, quantity, tx.sign.value]
  }

  /** The columns a well-formed transaction writes before its trailing blanks. */
  function TxParts(tx: Transaction): seq<string>
    requires TransactionWellFormed(tx)
  {
    var a, refs, amount := FormatInt(tx.accountNo), ReferencesText(tx.objectReferences), FormatDecimal(tx.amount);
    if tx.transactionDate.None? then [a, refs, amount]
    else
      var date := FormatDate(tx.transactionDate.value);
      if tx.text.None? && tx.quantity.None? then [a, refs, amount, date]
      else
        var text := TransactionText(tx);
        if tx.quantity.None? then [a, refs, amount, date, text]
        else
          var quantity := FormatDecimal(tx.quantity.value);
          if tx.sign.None? then [a, refs, amount, date, text, quantity]
          else [a, refs, amount, date, text, quantity, Quoted(tx.sign.value)]
  }

  /** The seven columns are the written ones followed by blanks. */
  lemma {:induction false} TxPartsBlanks(tx: Transaction)
    requires TransactionWellFormed(tx)
    ensures |TxParts(tx)| <= 7
    ensures [FormatInt(tx.accountNo), ReferencesText(tx.objectReferences), FormatDecimal(tx.amount),
      DateOrEmpty(tx.transactionDate), TransactionText(tx), DecimalOrEmpty(tx.quantity), QuotedOrEmpty(tx.sign)]
      == TxParts(tx) + Blanks(7 - |TxParts(tx)|)
  {
    var p := TxParts(tx);
    assert |p| <= 7;
    var n := 7 - |p|;
    if n > 0 { assert Blanks(n)[0] == ""; }
    if n > 1 { assert Blanks(n)[1] == ""; }
    if n > 2 { assert Blanks(n)[2] == ""; }
    if n > 3 { assert Blanks(n)[3] == ""; }
  }

  /** Each written column renders as its token. */
  lemma {:induction false} TxPartsRender(tx: Transaction)
    requires TransactionWellFormed(tx)
    ensures AllRender(TxParts(tx), TxValues(tx))
  {
    var a, refs, amount := FormatInt(tx.accountNo), ReferencesText(tx.objectReferences), FormatDecimal(tx.amount);
    var av, refsv := a, JoinSpace(Pairs(tx.objectReferences));
    IntRenders(tx.accountNo);
    ReferencesRender(tx.objectReferences);
    DecimalRenders(tx.amount);
    if tx.transactionDate.None? {
      Row3(a, av, refs, refsv, amount, amount);
    } else {
      var date := FormatDate(tx.transactionDate.value);
      DateRenders(tx.transactionDate.value);
      if tx.text.None? && tx.quantity.None? {
        Row4(a, av, refs, refsv, amount, amount, date, date);
      } else {
        var text, textv := TransactionText(tx), if tx.text.Some? then tx.text.value else "";
        TxTextRenders(tx);
        if tx.quantity.None? {
          Row5(a, av, refs, refsv, amount, amount, date, date, text, textv);
        } else {
          var quantity := FormatDecimal(tx.quantity.value);
          DecimalRenders(tx.quantity.value);
          Row6(a, av, refs, refsv, amount, amount, date, date, text, textv, quantity, quantity);
          if tx.sign.Some? {
            QuotedRenders(tx.sign.value);
            RowSnoc([a, refs, amount, date, text, quantity], [av, refsv, amount, date, textv, quantity],
              Quoted(tx.sign.value), tx.sign.value);
          }
        }
      }
    }
  }

  /** writeTransactionFields of a well-formed transaction is framed and scans as TxValues. */
  lemma {:induction false} TransactionColumns(tx: Transaction)
    requires TransactionWellFormed(tx)
    ensures Framed(TransactionFields(tx)) && Tokenize(TransactionFields(tx)) == TxValues(tx)
  {
    var p, v := TxParts(tx), TxValues(tx);
    TxPartsBlanks(tx);
    TxPartsRender(tx);
    var n := 7 - |p|;
    StrippedRow(p, v, n);
    assert TransactionFields(tx) == StripTrailing(JoinSpace(p + Blanks(n)));
  }

  /** The transaction parser reads the three head tokens back as account, references and amount. */
  lemma {:induction false} TxHeadReads(tx: Transaction)
    requires TransactionWellFormed(tx)
    ensures ParseInt(FormatInt(tx.accountNo)) == Ok(tx.accountNo)
    ensures ParseObjectReferences(JoinSpace(Pairs(tx.objectReferences))) == Ok(tx.objectReferences)
    ensures ParseDecimal(FormatDecimal(tx.amount)) == Ok(tx.amount)
  {
    ParseIntFormatInt(tx.accountNo);
    ReferencesReadBack(tx.objectReferences);
    ParseDecimalFormatDecimal(tx.amount);
  }

  /**
   * The converse of ParseTransaction's contract: tokens whose columns read
   * as a transaction's fields parse as that transaction.
   */
  lemma {:induction false} ParseTransactionOf(f: seq<string>, tx: Transaction)
    requires 3 <= |f| <= 7
    requires ParseInt(f[0]) == Ok(tx.accountNo) && ParseDecimal(f[2]) == Ok(tx.amount)
    requires ParseObjectReferences(f[1]) == Ok(tx.objectReferences)
    requires tx.transactionDate.Some? <==> |f| > 3 && f[3] != ""
    requires tx.transactionDate.Some? ==> ParseDate(f[3]) == Ok(tx.transactionDate.value)
    requires tx.text == OptionalColumn(f, 4) && tx.sign == OptionalColumn(f, 6)
    requires tx.quantity.Some? <==> |f| > 5 && f[5] != ""
    requires tx.quantity.Some? ==> ParseDecimal(f[5]) == Ok(tx.quantity.value)
    ensures ParseTransaction(tx.kind, f) == Ok(tx)
  {
    var date := if |f| > 3 then OptionalDate(f[3]) else Ok(None);
    assert date == Ok(tx.transactionDate);
    var quantity := if |f| > 5 then OptionalDecimal(f[5]) else Ok(None);
    assert quantity == Ok(tx.quantity);
  }

  /** Where each field of a well-formed transaction sits among TxValues. */
  lemma {:induction false} TxValuesAt(tx: Transaction)
    requires TransactionWellFormed(tx)
    ensures var f := TxValues(tx);
      3 <= |f| <= 7 && f[0] == FormatInt(tx.accountNo) && f[1] == JoinSpace(Pairs(tx.objectReferences))
      && f[2] == FormatDecimal(tx.amount)
      && (tx.transactionDate.Some? <==> |f| > 3) && (tx.transactionDate.Some? ==> f[3] == FormatDate(tx.transactionDate.value))
      && tx.text == OptionalColumn(f, 4) && tx.sign == OptionalColumn(f, 6)
      && (tx.quantity.Some? <==> |f| > 5) && (tx.quantity.Some? ==> f[5] == FormatDecimal(tx.quantity.value))
  {
    if tx.transactionDate.Some? && (tx.text.Some? || tx.quantity.Some?) {
      if tx.quantity.None? {
        assert TxValues(tx)[4] == tx.text.value;
      } else if tx.text.Some? {
        assert TxValues(tx)[4] == tx.text.value;
      } else {
        assert TxValues(tx)[4] == "";
      }
    }
  }

  /** The transaction parser rebuilds a well-formed transaction from TxValues. */
  lemma {:induction false} TransactionParses(tx: Transaction)
    requires TransactionWellFormed(tx)
    ensures ParseTransaction(tx.kind, TxValues(tx)) == Ok(tx)
  {
    var f := TxValues(tx);
    TxValuesAt(tx);
    TxHeadReads(tx);
    if tx.transactionDate.Some? {
      var d := FormatDate(tx.transactionDate.value);
      DateReads(tx.transactionDate.value);
      DateRenders(tx.transactionDate.value);
      PieceFramed(d, d);
    }
    if tx.quantity.Some? {
      var q := FormatDecimal(tx.quantity.value);
      ParseDecimalFormatDecimal(tx.quantity.value);
      DecimalRenders(tx.quantity.value);
      PieceFramed(q, q);
    }
    ParseTransactionOf(f, tx);
  }

  /**
   * The central round trip for transactions: the fields text the writer
   * produces for a well-formed transaction is framed, and the parser of
   * its label reads the same transaction back from its tokens.
   */
  lemma {:induction false} TransactionReadsBack(tx: Transaction)
    requires TransactionWellFormed(tx)
    ensures Framed(TransactionFields(tx))
    ensures ParseTransaction(tx.kind, Tokenize(TransactionFields(tx))) == Ok(tx)
  {
    TransactionColumns(tx);
    TransactionParses(tx);
  }

  /** The fields text of a transaction is never empty: at least the account is written. */
  lemma {:induction false} TransactionFieldsNonEmpty(tx: Transaction)
    requires TransactionWellFormed(tx)
    ensures |TransactionFields(tx)| > 0
  {
    TransactionColumns(tx);
    TxValuesAt(tx);
    TokenizeCount(TransactionFields(tx));
  }

  /** The registry hands TRANS, RTRANS and BTRANS to the transaction parser of their kind. */
  lemma {:induction false} TransactionDispatch(kind: TransKind, f: seq<string>, tx: Transaction)
    requires ParseTransaction(kind, f) == Ok(tx)
    ensures ParseFields(KindType(kind), f, []) == Ok(Tx(tx))
  {
    match kind
    case Trans => TransDispatch(f, tx);
    case Rtrans => RtransDispatch(f, tx);
    case Btrans => BtransDispatch(f, tx);
  }

  lemma {:induction false} TransDispatch(f: seq<string>, tx: Transaction)
    requires ParseTransaction(Trans, f) == Ok(tx)
    ensures ParseFields(TRANS, f, []) == Ok(Tx(tx))
  {
    assert ParseFields(TRANS, f, []) == AsRecord(ParseTransaction(Trans, f));
  }

  lemma {:induction false} RtransDispatch(f: seq<string>, tx: Transaction)
    requires ParseTransaction(Rtrans, f) == Ok(tx)
    ensures ParseFields(RTRANS, f, []) == Ok(Tx(tx))
  {
    assert ParseFields(RTRANS, f, []) == AsRecord(ParseTransaction(Rtrans, f));
  }

  lemma {:induction false} BtransDispatch(f: seq<string>, tx: Transaction)
    requires ParseTransaction(Btrans, f) == Ok(tx)
    ensures ParseFields(BTRANS, f, []) == Ok(Tx(tx))
  {
    assert ParseFields(BTRANS, f, []) == AsRecord(ParseTransaction(Btrans, f));
  }

  /** A line that splits into a non-VER label and fields its parser accepts is read as that record. */
  lemma {:induction false} ToModelLineOf(line: string, t: ItemType, fields: string, r: Record)
    requires SplitLine(line) == Ok((t, fields)) && t != VER
    requires ParseFields(t, Tokenize(fields), []) == Ok(r)
    ensures ToModelLine(line) == Ok(r)
  {
  }

  /** Stripping a transaction line removes its indentation and nothing else. */
  lemma {:induction false} TransactionLineStrips(tx: Transaction)
    requires TransactionWellFormed(tx)
    ensures Strip(TransactionLine(tx)) == WriteItem(KindType(tx.kind), TransactionFields(tx))
  {
    TransactionColumns(tx);
    TransactionFieldsNonEmpty(tx);
    IndentedItemStrips(KindType(tx.kind), TransactionFields(tx));
  }

  /** An item line indented by three spaces strips back to the item when its fields are framed. */
  lemma {:induction false} IndentedItemStrips(t: ItemType, fields: string)
    requires |fields| > 0 && Framed(fields)
    ensures Strip("   " + WriteItem(t, fields)) == WriteItem(t, fields)
  {
    var item := WriteItem(t, fields);
    assert item[0] == '#' && item[|item| - 1] == fields[|fields| - 1];
    StripIndented("   ", item);
  }

  /**
   * A transaction line inside a voucher, once stripped as the parser
   * strips every line, is read by toModel(String) as that transaction.
   */
  lemma {:induction false} TransactionLineReads(tx: Transaction)
    requires TransactionWellFormed(tx)
    ensures ToModelLine(Strip(TransactionLine(tx))) == Ok(Tx(tx))
  {
    var t := KindType(tx.kind);
    var fields := TransactionFields(tx);
    TransactionReadsBack(tx);
    TransactionLineStrips(tx);
    SplitLineOfTag(t, fields);
    TransactionDispatch(tx.kind, Tokenize(fields), tx);
    ToModelLineOf(WriteItem(t, fields), t, fields, Tx(tx));
  }
}
