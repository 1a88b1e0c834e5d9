/*
 * The write/read round trip of a whole file: the lines SIE4.write prints
 * for well-formed items are read back by the parse loop as those items.
 */
module Sie4RoundTrip {
  import opened Wrappers
  import opened Text
  import opened FieldParser
  import opened Items
  import opened InFieldMapper
  import opened OutFieldMapper
  import opened RoundTrip
  import opened TransactionRoundTrip
  import opened ItemRoundTrip
  import opened Sie4
  import Content

  /** Joining rendered lines with line feeds is appending a line feed and each rendered line. */
  lemma {:induction false} JoinRendered<T>(head: seq<string>, xs: seq<T>, render: T -> string)
    requires |head| > 0
    ensures Join(head + Rendered(xs, render), "\n") == Join(head, "\n") + PrefixedLines(xs, render)
    decreases |xs|
  {
    if |xs| == 0 {
      assert head + Rendered(xs, render) == head;
    } else {
      var init := xs[..|xs| - 1];
      var last := render(xs[|xs| - 1]);
      JoinRendered(head, init, render);
      assert head + Rendered(xs, render) == (head + Rendered(init, render)) + [last];
      JoinSnoc(head + Rendered(init, render), last, "\n");
    }
  }

  /** A text that starts with its first part. */
  lemma {:induction false} StartsWithPrefix(prefix: string, rest: string)
    ensures StartsWith(prefix + rest, prefix)
  {
    assert (prefix + rest)[..|prefix|] == prefix;
  }

  /** Text that is already framed stays so behind a prefix that does not start with white space. */
  lemma {:induction false} FramedAfter(prefix: string, text: string)
    requires |prefix| > 0 && !IsWhitespace(prefix[0])
    requires |text| > 0 && Framed(text)
    ensures Strip(prefix + text) == prefix + text
  {
    var line := prefix + text;
    assert line[0] == prefix[0] && line[|line| - 1] == text[|text| - 1];
    StripFramed(line);
  }

  /** Only an empty text has no tokens. */
  lemma {:induction false} TokenizeNonEmpty(s: string)
    requires |Tokenize(s)| > 0
    ensures |s| > 0
  {
  }

  /** The entry a voucher is written as: its fields behind the VER label. */
  lemma {:induction false} VerFileString(v: Record)
    requires v.Ver?
    ensures FileString(v) == "#VER " + VerFields(v)
  {
    HasTypeTypeOf(v, VER);
    VerPrefix(VerFields(v));
  }

  /** The lines of a voucher's entry: its header line, "{", a line per transaction and "}". */
  lemma {:induction false} VerFileLines(v: Record)
    requires v.Ver?
    ensures FileLines(v) == [VerLine(v), "{"] + Rendered(v.transactions, TransactionLine) + ["}"]
  {
  }

  /** Joining a block: the header, "{", the body lines and "}" with line feeds between. */
  lemma {:induction false} BlockJoin(header: string, lines: seq<string>, body: string)
    requires Join([header, "{"] + lines, "\n") == Join([header, "{"], "\n") + body
    ensures Join([header, "{"] + lines + ["}"], "\n") == header + ("\n{" + body + "\n}")
  {
    JoinSnoc([header, "{"] + lines, "}", "\n");
    assert [header, "{"][1..] == ["{"];
    assert Join([header, "{"], "\n") == header + "\n" + "{";
  }

  /** A block of rendered lines joined by line feeds is the header, "\n{", the lines each behind a line feed, and "\n}". */
  lemma {:induction false} BlockEntry<T>(header: string, xs: seq<T>, render: T -> string)
    ensures Join([header, "{"] + Rendered(xs, render) + ["}"], "\n") == header + ("\n{" + PrefixedLines(xs, render) + "\n}")
  {
    JoinRendered([header, "{"], xs, render);
    BlockJoin(header, Rendered(xs, render), PrefixedLines(xs, render));
  }

  /**
   * The entry toFileString prints for a record is its lines joined by line
   * feeds: a single line, or for a voucher its header line, "{", one line
   * per transaction and "}".
   */
  lemma {:induction false} EntryLines(r: Record)
    ensures Join(FileLines(r), "\n") == FileString(r)
  {
    if r.Ver? {
      VerEntryLines(r);
    }
  }

  /** Regrouping the text of a voucher's entry: its label, then its header and block. */
  lemma {:induction false} VerEntryRegroup(header: string, body: string)
    ensures ("#VER " + header) + ("\n{" + body + "\n}") == "#VER " + (header + "\n{" + body + "\n}")
  {
  }

  /** A voucher's entry is its header line, "{", its transaction lines and "}", joined by line feeds. */
  lemma {:induction false} VerEntryLines(r: Record)
    requires r.Ver?
    ensures Join(FileLines(r), "\n") == FileString(r)
  {
    var body := PrefixedLines(r.transactions, TransactionLine);
    VerFileLines(r);
    BlockEntry(VerLine(r), r.transactions, TransactionLine);
    VerFileString(r);
    VerEntryRegroup(VerHeader(r), body);
  }

  /**
   * `m` reads back what is written for `r`: the single line toFileString
   * writes, or for a voucher its header line followed by its stripped
   * transaction lines.
   */
  predicate ReadsWritten(m: Mapper, r: Record) {
    if r.Ver? then m.block([VerLine(r)] + VerBody(r)) == Ok(r) else m.line(FileString(r)) == Ok(r)
  }

  /** InFieldMapper reads back every well-formed record from what is written for it. */
  lemma {:induction false} FieldMapperReadsWritten(r: Record)
    requires WellFormed(r)
    ensures ReadsWritten(FieldMapper, r)
  {
    if r.Ver? {
      VerBlockReads(r);
    } else {
      RecordLineReads(r);
    }
  }

  /** A line written under any label but VER is unmarked: it starts with '#' but not with "#VER". */
  lemma {:induction false} ItemLineUnmarked(t: ItemType, fields: string)
    requires t != VER
    ensures Unmarked(WriteItem(t, fields))
  {
    ItemLineNotVer(t, fields);
    assert WriteItem(t, fields)[0] == '#';
  }

  /** The line written for a well-formed record other than a voucher is unchanged by strip and unmarked. */
  lemma {:induction false} RecordLineOrdinary(r: Record)
    requires WellFormed(r) && !r.Ver?
    ensures Strip(FileString(r)) == FileString(r) && Unmarked(FileString(r))
  {
    var t := TypeOf(r);
    HasTypeTypeOf(r, VER);
    RecordLineReads(r);
    ItemLineUnmarked(t, WriteFields(r));
  }

  /** A written single-line record is read back by the loop as that record. */
  lemma {:induction false} RecordEntryReads(m: Mapper, result: seq<Record>, r: Record)
    requires WellFormed(r) && !r.Ver? && ReadsWritten(m, r)
    ensures Run(m, Assembly([], result), FileLines(r)) == Ok(Assembly([], result + [r]))
  {
    var line: string := FileString(r);
    RecordLineOrdinary(r);
    assert FileLines(r) == [line];
    assert [line][1..] == [];
  }

  /** An indented transaction line of a voucher is ordinary, and strips to the line the block body holds. */
  lemma {:induction false} TransactionLineOrdinary(tx: Transaction)
    requires TransactionWellFormed(tx)
    ensures Strip(TransactionLine(tx)) == WriteItem(KindType(tx.kind), TransactionFields(tx))
    ensures Ordinary(TransactionLine(tx))
  {
    TransactionLineStrips(tx);
    ItemLineUnmarked(KindType(tx.kind), TransactionFields(tx));
  }

  /** The indented transaction lines of a well-formed voucher are ordinary, and strip to its block body. */
  lemma {:induction false} TransactionLinesOrdinary(v: Record)
    requires v.Ver? && WellFormed(v)
    ensures forall i :: 0 <= i < |v.transactions| ==> Ordinary(TransactionLine(v.transactions[i]))
    ensures Stripped(Rendered(v.transactions, TransactionLine)) == VerBody(v)
  {
    var lines := Rendered(v.transactions, TransactionLine);
    StrippedAt(lines);
    forall i | 0 <= i < |v.transactions|
      ensures Ordinary(TransactionLine(v.transactions[i]))
      ensures Stripped(lines)[i] == VerBody(v)[i]
    {
      assert TransactionWellFormed(v.transactions[i]);
      TransactionLineOrdinary(v.transactions[i]);
    }
  }

  /** A framed, non-empty header behind the VER label makes a line that strip leaves alone and that opens a block. */
  lemma {:induction false} HeaderLineOpens(header: string)
    requires |header| > 0 && Framed(header)
    ensures Strip("#VER " + header) == "#VER " + header && StartsWith("#VER " + header, "#VER")
  {
    FramedAfter("#VER ", header);
    StartsWithPrefix("#VER", " " + header);
    assert "#VER " + header == "#VER" + (" " + header);
  }

  /** The header line of a well-formed voucher is unchanged by strip and opens a block. */
  lemma {:induction false} VerLineOpens(v: Record)
    requires v.Ver? && WellFormed(v)
    ensures Strip(VerLine(v)) == VerLine(v) && StartsWith(VerLine(v), "#VER")
  {
    VerHeaderColumns(v);
    VerValuesAt(v);
    TokenizeNonEmpty(VerHeader(v));
    HeaderLineOpens(VerHeader(v));
  }

  /**
   * A block framed by a "#VER" header line, "{" and "}" around ordinary
   * lines is read as the item the mapper makes of the header and the
   * lines stripped.
   */
  lemma {:induction false} BlockRun(m: Mapper, result: seq<Record>, header: string, txLines: seq<string>, v: Record)
    requires Strip(header) == header && StartsWith(header, "#VER")
    requires AllOrdinary(txLines)
    requires m.block([header] + Stripped(txLines)) == Ok(v)
    ensures Run(m, Assembly([], result), [header, "{"] + txLines + ["}"]) == Ok(Assembly([], result + [v]))
  {
    var open := Assembly([header], result);
    assert [header, "{"] + txLines + ["}"] == [header] + (["{"] + (txLines + ["}"]));
    OpenRun(m, result, header, ["{"] + (txLines + ["}"]));
    BraceRun(m, open, txLines + ["}"]);
    BlockLinesBuffered(m, open, txLines);
    RunAppendOk(m, open, Assembly([header] + Stripped(txLines), result), txLines, ["}"]);
    CloseRun(m, Assembly([header] + Stripped(txLines), result), v);
  }

  /** The lines of a well-formed voucher's block are read by the loop as the voucher. */
  lemma {:induction false} VerBlockRun(m: Mapper, result: seq<Record>, v: Record, lines: seq<string>)
    requires WellFormed(v) && v.Ver? && ReadsWritten(m, v)
    requires lines == [VerLine(v), "{"] + Rendered(v.transactions, TransactionLine) + ["}"]
    ensures Run(m, Assembly([], result), lines) == Ok(Assembly([], result + [v]))
  {
    var txLines := Rendered(v.transactions, TransactionLine);
    VerLineOpens(v);
    TransactionLinesOrdinary(v);
    AllOrdinaryOf(txLines);
    BlockRun(m, result, VerLine(v), txLines, v);
  }

  /** A written voucher is read back by the loop: its block is gathered, closed and read as the voucher. */
  lemma {:induction false} VerEntryReads(m: Mapper, result: seq<Record>, v: Record)
    requires WellFormed(v) && v.Ver? && ReadsWritten(m, v)
    ensures Run(m, Assembly([], result), FileLines(v)) == Ok(Assembly([], result + [v]))
  {
    VerFileLines(v);
    VerBlockRun(m, result, v, FileLines(v));
  }

  /** The entry `write` makes for `r` is read back by the loop as `r`, after whatever was read before. */
  ghost predicate EntryRead(m: Mapper, write: Record -> seq<string>, r: Record) {
    forall result :: Run(m, Assembly([], result), write(r)) == Ok(Assembly([], result + [r]))
  }

  /** Every entry of the items is read back, stated item after item. */
  ghost predicate EntriesRead(m: Mapper, write: Record -> seq<string>, items: seq<Record>)
    decreases |items|
  {
    |items| == 0 || (EntryRead(m, write, items[0]) && EntriesRead(m, write, items[1..]))
  }

  /** Every entry read back at each index is every entry read back item after item. */
  lemma {:induction false} EntriesReadOf(m: Mapper, write: Record -> seq<string>, items: seq<Record>)
    requires forall i :: 0 <= i < |items| ==> EntryRead(m, write, items[i])
    ensures EntriesRead(m, write, items)
    decreases |items|
  {
    if |items| > 0 {
      assert EntryRead(m, write, items[0]);
      assert forall i :: 0 <= i < |items[1..]| ==> items[1..][i] == items[i + 1];
      EntriesReadOf(m, write, items[1..]);
    }
  }

  /** The entries of the items, one after another. */
  function Entries(items: seq<Record>, write: Record -> seq<string>): (lines: seq<string>)
  {
    if |items| == 0 then [] else write(items[0]) + Entries(items[1..], write)
  }

  /** Once the first entry is read back, the loop goes on over the entries after it. */
  lemma {:induction false} EntriesCons(m: Mapper, write: Record -> seq<string>, result: seq<Record>, items: seq<Record>)
    requires |items| > 0 && EntryRead(m, write, items[0])
    ensures Run(m, Assembly([], result), Entries(items, write))
         == Run(m, Assembly([], result + [items[0]]), Entries(items[1..], write))
  {
    var first := items[0];
    var rest := Entries(items[1..], write);
    assert Entries(items, write) == write(first) + rest;
    assert Run(m, Assembly([], result), write(first)) == Ok(Assembly([], result + [first]));
    RunAppendOk(m, Assembly([], result), Assembly([], result + [first]), write(first), rest);
  }

  /** Entries that are each read back are read back together, in order. */
  lemma {:induction false} EntriesReadBack(m: Mapper, write: Record -> seq<string>, result: seq<Record>, items: seq<Record>)
    requires EntriesRead(m, write, items)
    ensures Run(m, Assembly([], result), Entries(items, write)) == Ok(Assembly([], result + items))
    decreases |items|
  {
    if |items| == 0 {
      assert result + items == result;
    } else {
      EntriesCons(m, write, result, items);
      EntriesReadBack(m, write, result + [items[0]], items[1..]);
      assert result + [items[0]] + items[1..] == result + items;
    }
  }

  /** The lines the printed entries of `items` are made of, one entry after another. */
  function DocumentLines(items: seq<Record>): (lines: seq<string>)
  {
    Entries(items, FileLines)
  }

  /** The lines written for a well-formed record are read back by the loop as that record. */
  lemma {:induction false} WrittenEntryRead(r: Record)
    requires WellFormed(r)
    ensures EntryRead(FieldMapper, FileLines, r)
  {
    FieldMapperReadsWritten(r);
    forall result
      ensures Run(FieldMapper, Assembly([], result), FileLines(r)) == Ok(Assembly([], result + [r]))
    {
      if r.Ver? {
        VerEntryReads(FieldMapper, result, r);
      } else {
        RecordEntryReads(FieldMapper, result, r);
      }
    }
  }

  /**
   * The write/read round trip: the lines written for well-formed items
   * are read back as exactly those items, in order.
   */
  lemma {:induction false} ReadDocumentLines(items: seq<Record>)
    requires forall i :: 0 <= i < |items| ==> WellFormed(items[i])
    ensures Read(DocumentLines(items)) == Ok(Content.Content(items))
  {
    forall i | 0 <= i < |items|
      ensures EntryRead(FieldMapper, FileLines, items[i])
    {
      WrittenEntryRead(items[i]);
    }
    EntriesReadOf(FieldMapper, FileLines, items);
    EntriesReadBack(FieldMapper, FileLines, [], items);
    assert [] + items == items;
  }
}
