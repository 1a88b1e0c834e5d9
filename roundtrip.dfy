/*
 * Reading back what the writer writes.  Under conditions on the values
 * (text the quoting can carry, four-digit years, and optional columns
 * that are only absent at the end), the tokens of every written record
 * are its columns and the label's parser rebuilds the record from them.
 */
module RoundTrip {
  import opened Wrappers
  import opened Text
  import opened Numbers
  import opened Calendar
  import opened Values
  import opened FieldParser
  import opened Items
  import opened InFieldMapper
  import opened OutFieldMapper

  /*
   * Columns the reader gets back unchanged.
   */

  /**
   * Text that quoting carries through the scanner: not empty, no white
   * space other than the space, and no quote, backslash or brace.
   */
  predicate SafeText(s: string) {
    |s| > 0 && forall i :: 0 <= i < |s| ==> CleanChar(s[i]) && s[i] != '"' && s[i] != '\\' && s[i] != '{' && s[i] != '}'
  }

  /** An object number, which goes into a brace group unquoted: safe text without a space. */
  predicate SafeId(s: string) {
    SafeText(s) && forall i :: 0 <= i < |s| ==> s[i] != ' '
  }

  /** A date whose yyyy field has four digits. */
  predicate FourDigitYear(d: LocalDate) {
    d.year <= 9999
  }

  /** An optional text column that is absent or safe. */
  predicate SafeOption(o: Option<string>) {
    o.Some? ==> SafeText(o.value)
  }

  /** An optional date that is absent or has a four-digit year. */
  predicate DateOption(o: Option<LocalDate>) {
    o.Some? ==> FourDigitYear(o.value)
  }

  /**
   * A transaction the writer writes readably: its texts are safe, its date
   * has four digits, and no optional column is absent before a present
   * one, except the text, whose place the writer holds with "".
   */
  predicate TransactionWellFormed(tx: Transaction) {
    (forall i :: 0 <= i < |tx.objectReferences| ==> SafeId(tx.objectReferences[i].objectNo))
    && DateOption(tx.transactionDate) && SafeOption(tx.text) && SafeOption(tx.sign)
    && (tx.text.Some? || tx.quantity.Some? || tx.sign.Some? ==> tx.transactionDate.Some?)
    && (tx.sign.Some? ==> tx.quantity.Some?)
  }

  /**
   * A record the writer writes readably: every text column is safe, every
   * date and period year has four digits, and no optional column is
   * absent before a present one.
   */
  predicate WellFormed(r: Record) {
    match r
    case Adress(contact, distribution, postal, tel) =>
      SafeText(contact) && SafeText(distribution) && SafeText(postal) && SafeText(tel)
    case Dim(_, name) => SafeText(name)
    case Enhet(_, unit) => SafeText(unit)
    case Fnamn(name) => SafeText(name)
    case Fnr(id) => SafeText(id)
    case Format(format) => SafeText(format) && EqualsIgnoreCase(format, "PC8")
    case Gen(date, signature) => FourDigitYear(date) && SafeOption(signature)
    case Konto(_, name) => SafeText(name)
    case Kptyp(kind) => SafeText(kind)
    case Objekt(_, objectNo, name) => SafeText(objectNo) && SafeText(name)
    case Oib(_, _, reference, _, _) => SafeId(reference.objectNo)
    case Oub(_, _, reference, _, _) => SafeId(reference.objectNo)
    case Omfattn(date) => FourDigitYear(date)
    case OrgNr(orgNr, acq, act) => SafeText(orgNr) && (act.Some? ==> acq.Some?)
    case Pbudget(_, period, _, reference, _, _) =>
      1 <= period.year <= 9999 && (reference.Some? ==> SafeId(reference.value.objectNo))
    case Psaldo(_, period, _, reference, _, _) =>
      1 <= period.year <= 9999 && (reference.Some? ==> SafeId(reference.value.objectNo))
    case Program(name, version) => SafeText(name) && SafeText(version)
    case Prosa(comment) => SafeText(comment)
    case Rar(_, start, end) => FourDigitYear(start) && FourDigitYear(end)
    case Underdim(_, name, _) => SafeText(name)
    case Valuta(code) => SafeText(code)
    case Ver(date, series, number, text, regDate, sign, transactions) =>
      series.Some? && SafeText(series.value) && number.Some? && SafeText(number.value)
      && FourDigitYear(date) && SafeOption(text) && DateOption(regDate) && SafeOption(sign)
      && (regDate.Some? || sign.Some? ==> text.Some?) && (sign.Some? ==> regDate.Some?)
      && forall i :: 0 <= i < |transactions| ==> TransactionWellFormed(transactions[i])
    case Tx(tx) => TransactionWellFormed(tx)
    case _ => true
  }

  /** Quoting a safe text gives a field the scanner reads back as the text. */
  lemma {:induction false} QuotedRenders(s: string)
    requires SafeText(s)
    ensures Renders(Quoted(s), s)
  {
    if IndexOf(s, ' ') >= 0 {
      var p := "\"" + s + "\"";
      assert forall i :: 0 < i < |p| - 1 ==> p[i] == s[i - 1];
      assert p[1..|p| - 1] == s;
    } else {
      assert forall i :: 0 <= i < |s| ==> s[i] != ' ';
    }
  }

  lemma {:induction false} IntRenders(x: int)
    ensures Renders(FormatInt(x), FormatInt(x))
  {
  }

  lemma {:induction false} DecimalRenders(d: Decimal)
    ensures Renders(FormatDecimal(d), FormatDecimal(d))
  {
    FormatDecimalChars(d);
  }

  /** A date with a four-digit year is written as eight digits, a bare field. */
  lemma {:induction false} DateRenders(d: LocalDate)
    requires FourDigitYear(d)
    ensures Renders(FormatDate(d), FormatDate(d))
  {
    var s := FormatDate(d);
    assert |s| == 8 && AllDigits(s) by {
      FormatDateDigits(d);
      DigitFieldsValues(d.year, d.month, d.day);
    }
    DigitsRender(s);
  }

  /** A date with a four-digit year is read back from what it is written as. */
  lemma {:induction false} DateReads(d: LocalDate)
    requires FourDigitYear(d)
    ensures ParseDate(FormatDate(d)) == Ok(d)
  {
    ParseDateFormatDate(d);
  }

  /** A run of digits is a bare field. */
  lemma {:induction false} DigitsRender(s: string)
    requires |s| > 0 && AllDigits(s)
    ensures Renders(s, s)
  {
  }

  /** A period with a four-digit year is written as six digits, a bare field. */
  lemma {:induction false} PeriodRenders(p: Period)
    requires 1 <= p.year <= 9999
    ensures Renders(FormatPeriod(p), FormatPeriod(p))
  {
    var s := FormatPeriod(p);
    assert |s| == 6 && AllDigits(s) by {
      FormatPeriodDigits(p);
      PeriodFieldsValues(p.year, p.month);
    }
    DigitsRender(s);
  }

  lemma {:induction false} PeriodReads(p: Period)
    requires 1 <= p.year <= 9999
    ensures ParsePeriod(FormatPeriod(p)) == Ok(p)
  {
    ParsePeriodFormat(p);
  }

  lemma {:induction false} YearNumberReads(y: YearNumber)
    ensures ParseYearNumber(FormatInt(y)) == Ok(y)
  {
    ParseIntFormatInt(y);
  }

  /*
   * Rows of written columns, over plain strings.
   */

  lemma {:induction false} Row2(a: string, av: string, b: string, bv: string)
    requires Renders(a, av) && Renders(b, bv)
    ensures AllRender([a, b], [av, bv])
  {
  }

  lemma {:induction false} Row3(a: string, av: string, b: string, bv: string, c: string, cv: string)
    requires Renders(a, av) && Renders(b, bv) && Renders(c, cv)
    ensures AllRender([a, b, c], [av, bv, cv])
  {
  }

  lemma {:induction false} Row4(a: string, av: string, b: string, bv: string, c: string, cv: string, d: string, dv: string)
    requires Renders(a, av) && Renders(b, bv) && Renders(c, cv) && Renders(d, dv)
    ensures AllRender([a, b, c, d], [av, bv, cv, dv])
  {
  }

  lemma {:induction false} Row5(a: string, av: string, b: string, bv: string, c: string, cv: string,
                                d: string, dv: string, e: string, ev: string)
    requires Renders(a, av) && Renders(b, bv) && Renders(c, cv) && Renders(d, dv) && Renders(e, ev)
    ensures AllRender([a, b, c, d, e], [av, bv, cv, dv, ev])
  {
  }

  lemma {:induction false} Row6(a: string, av: string, b: string, bv: string, c: string, cv: string,
                                d: string, dv: string, e: string, ev: string, g: string, gv: string)
    requires Renders(a, av) && Renders(b, bv) && Renders(c, cv) && Renders(d, dv) && Renders(e, ev) && Renders(g, gv)
    ensures AllRender([a, b, c, d, e, g], [av, bv, cv, dv, ev, gv])
  {
  }

  /** One more rendered column at the end of a row. */
  lemma {:induction false} RowSnoc(parts: seq<string>, values: seq<string>, p: string, v: string)
    requires AllRender(parts, values) && Renders(p, v)
    ensures AllRender(parts + [p], values + [v])
  {
  }

  /** A row written with every column present: framed, and read back column by column. */
  lemma {:induction false} Plain(parts: seq<string>, values: seq<string>)
    requires |parts| > 0 && AllRender(parts, values)
    ensures Framed(JoinSpace(parts)) && Tokenize(JoinSpace(parts)) == values
  {
    Written(parts, values, 0);
  }

  /** A row followed by `n` absent columns and trimmed: the blanks go, and the row reads back. */
  lemma {:induction false} TrimmedRow(parts: seq<string>, values: seq<string>, n: nat)
    requires |parts| > 0 && AllRender(parts, values)
    ensures Trim(JoinSpace(parts + Blanks(n))) == JoinSpace(parts)
    ensures Framed(JoinSpace(parts)) && Tokenize(JoinSpace(parts)) == values
  {
    Written(parts, values, n);
  }

  lemma {:induction false} SpacesOne()
    ensures Spaces(1) == " "
  {
    assert Spaces(0) == "";
  }

  lemma {:induction false} SpacesTwo()
    ensures Spaces(2) == "  "
  {
    SpacesOne();
  }

  /** Joining absent columns after written ones adds one space per absent column. */
  lemma {:induction false} Blank1After1(a: string)
    ensures JoinSpace([a, ""]) == JoinSpace([a]) + " "
  {
    assert [a, ""][1..] == [""];
    assert JoinSpace([""]) == "";
  }

  lemma {:induction false} Blank1After2(a: string, b: string)
    ensures JoinSpace([a, b, ""]) == JoinSpace([a, b]) + " "
  {
    Blank1After1(b);
    assert [a, b, ""][1..] == [b, ""];
    assert [a, b][1..] == [b];
  }

  lemma {:induction false} Blank1After3(a: string, b: string, c: string)
    ensures JoinSpace([a, b, c, ""]) == JoinSpace([a, b, c]) + " "
  {
    Blank1After2(b, c);
    assert [a, b, c, ""][1..] == [b, c, ""];
    assert [a, b, c][1..] == [b, c];
  }

  lemma {:induction false} Blank1After4(a: string, b: string, c: string, d: string)
    ensures JoinSpace([a, b, c, d, ""]) == JoinSpace([a, b, c, d]) + " "
  {
    Blank1After3(b, c, d);
    assert [a, b, c, d, ""][1..] == [b, c, d, ""];
    assert [a, b, c, d][1..] == [b, c, d];
  }

  lemma {:induction false} Blank1After5(a: string, b: string, c: string, d: string, e: string)
    ensures JoinSpace([a, b, c, d, e, ""]) == JoinSpace([a, b, c, d, e]) + " "
  {
    Blank1After4(b, c, d, e);
    assert [a, b, c, d, e, ""][1..] == [b, c, d, e, ""];
    assert [a, b, c, d, e][1..] == [b, c, d, e];
  }

  lemma {:induction false} Blank2After1(a: string)
    ensures JoinSpace([a, "", ""]) == JoinSpace([a]) + "  "
  {
    assert [a, "", ""][1..] == ["", ""];
    assert ["", ""][1..] == [""];
    assert JoinSpace([""]) == "";
    assert JoinSpace(["", ""]) == " ";
  }

  /** Trim takes exactly the spaces after a row of written columns away. */
  lemma {:induction false} TrimAfter(parts: seq<string>, values: seq<string>, n: nat)
    requires |parts| > 0 && AllRender(parts, values)
    ensures Trim(JoinSpace(parts) + Spaces(n)) == JoinSpace(parts)
  {
    forall i | 0 <= i < |parts|
      ensures |parts[i]| > 0
    {
      PieceFramed(parts[i], values[i]);
    }
    PieceFramed(parts[0], values[0]);
    PieceFramed(parts[|parts| - 1], values[|parts| - 1]);
    JoinSpaceEnds(parts);
    TrimSpaces(JoinSpace(parts), n);
  }

  /** A trimmed row of 1 written column and 1 absent one: framed, and read back as the written columns. */
  lemma {:induction false} Trim1of2(a: string, av: string)
    requires Renders(a, av)
    ensures Framed(Trim(JoinSpace([a, ""]))) && Tokenize(Trim(JoinSpace([a, ""]))) == [av]
  {
    assert AllRender([a], [av]);
    Plain([a], [av]);
    TrimAfter([a], [av], 1);
    Blank1After1(a);
    SpacesOne();
  }

  /** A trimmed row of 2 written columns: framed, and read back as the written columns. */
  lemma {:induction false} Trim2of2(a: string, av: string, b: string, bv: string)
    requires Renders(a, av) && Renders(b, bv)
    ensures Framed(Trim(JoinSpace([a, b]))) && Tokenize(Trim(JoinSpace([a, b]))) == [av, bv]
  {
    Row2(a, av, b, bv);
    Plain([a, b], [av, bv]);
    TrimAfter([a, b], [av, bv], 0);
    assert JoinSpace([a, b]) + Spaces(0) == JoinSpace([a, b]);
  }

  /** A trimmed row of 1 written column and 2 absent ones: framed, and read back as the written columns. */
  lemma {:induction false} Trim1of3(a: string, av: string)
    requires Renders(a, av)
    ensures Framed(Trim(JoinSpace([a, "", ""]))) && Tokenize(Trim(JoinSpace([a, "", ""]))) == [av]
  {
    assert AllRender([a], [av]);
    Plain([a], [av]);
    TrimAfter([a], [av], 2);
    Blank2After1(a);
    SpacesTwo();
  }

  /** A trimmed row of 2 written columns and 1 absent one: framed, and read back as the written columns. */
  lemma {:induction false} Trim2of3(a: string, av: string, b: string, bv: string)
    requires Renders(a, av) && Renders(b, bv)
    ensures Framed(Trim(JoinSpace([a, b, ""]))) && Tokenize(Trim(JoinSpace([a, b, ""]))) == [av, bv]
  {
    Row2(a, av, b, bv);
    Plain([a, b], [av, bv]);
    TrimAfter([a, b], [av, bv], 1);
    Blank1After2(a, b);
    SpacesOne();
  }

  /** A trimmed row of 3 written columns: framed, and read back as the written columns. */
  lemma {:induction false} Trim3of3(a: string, av: string, b: string, bv: string, c: string, cv: string)
    requires Renders(a, av) && Renders(b, bv) && Renders(c, cv)
    ensures Framed(Trim(JoinSpace([a, b, c]))) && Tokenize(Trim(JoinSpace([a, b, c]))) == [av, bv, cv]
  {
    Row3(a, av, b, bv, c, cv);
    Plain([a, b, c], [av, bv, cv]);
    TrimAfter([a, b, c], [av, bv, cv], 0);
    assert JoinSpace([a, b, c]) + Spaces(0) == JoinSpace([a, b, c]);
  }

  /** A trimmed row of 3 written columns and 1 absent one: framed, and read back as the written columns. */
  lemma {:induction false} Trim3of4(a: string, av: string, b: string, bv: string, c: string, cv: string)
    requires Renders(a, av) && Renders(b, bv) && Renders(c, cv)
    ensures Framed(Trim(JoinSpace([a, b, c, ""]))) && Tokenize(Trim(JoinSpace([a, b, c, ""]))) == [av, bv, cv]
  {
    Row3(a, av, b, bv, c, cv);
    Plain([a, b, c], [av, bv, cv]);
    TrimAfter([a, b, c], [av, bv, cv], 1);
    Blank1After3(a, b, c);
    SpacesOne();
  }

  /** A trimmed row of 4 written columns: framed, and read back as the written columns. */
  lemma {:induction false} Trim4of4(a: string, av: string, b: string, bv: string, c: string, cv: string, d: string, dv: string)
    requires Renders(a, av) && Renders(b, bv) && Renders(c, cv) && Renders(d, dv)
    ensures Framed(Trim(JoinSpace([a, b, c, d]))) && Tokenize(Trim(JoinSpace([a, b, c, d]))) == [av, bv, cv, dv]
  {
    Row4(a, av, b, bv, c, cv, d, dv);
    Plain([a, b, c, d], [av, bv, cv, dv]);
    TrimAfter([a, b, c, d], [av, bv, cv, dv], 0);
    assert JoinSpace([a, b, c, d]) + Spaces(0) == JoinSpace([a, b, c, d]);
  }

  /** A trimmed row of 4 written columns and 1 absent one: framed, and read back as the written columns. */
  lemma {:induction false} Trim4of5(a: string, av: string, b: string, bv: string, c: string, cv: string, d: string, dv: string)
    requires Renders(a, av) && Renders(b, bv) && Renders(c, cv) && Renders(d, dv)
    ensures Framed(Trim(JoinSpace([a, b, c, d, ""]))) && Tokenize(Trim(JoinSpace([a, b, c, d, ""]))) == [av, bv, cv, dv]
  {
    Row4(a, av, b, bv, c, cv, d, dv);
    Plain([a, b, c, d], [av, bv, cv, dv]);
    TrimAfter([a, b, c, d], [av, bv, cv, dv], 1);
    Blank1After4(a, b, c, d);
    SpacesOne();
  }

  /** A trimmed row of 5 written columns: framed, and read back as the written columns. */
  lemma {:induction false} Trim5of5(a: string, av: string, b: string, bv: string, c: string, cv: string, d: string, dv: string, e: string, ev: string)
    requires Renders(a, av) && Renders(b, bv) && Renders(c, cv) && Renders(d, dv) && Renders(e, ev)
    ensures Framed(Trim(JoinSpace([a, b, c, d, e]))) && Tokenize(Trim(JoinSpace([a, b, c, d, e]))) == [av, bv, cv, dv, ev]
  {
    Row5(a, av, b, bv, c, cv, d, dv, e, ev);
    Plain([a, b, c, d, e], [av, bv, cv, dv, ev]);
    TrimAfter([a, b, c, d, e], [av, bv, cv, dv, ev], 0);
    assert JoinSpace([a, b, c, d, e]) + Spaces(0) == JoinSpace([a, b, c, d, e]);
  }

  /** A trimmed row of 5 written columns and 1 absent one: framed, and read back as the written columns. */
  lemma {:induction false} Trim5of6(a: string, av: string, b: string, bv: string, c: string, cv: string, d: string, dv: string, e: string, ev: string)
    requires Renders(a, av) && Renders(b, bv) && Renders(c, cv) && Renders(d, dv) && Renders(e, ev)
    ensures Framed(Trim(JoinSpace([a, b, c, d, e, ""]))) && Tokenize(Trim(JoinSpace([a, b, c, d, e, ""]))) == [av, bv, cv, dv, ev]
  {
    Row5(a, av, b, bv, c, cv, d, dv, e, ev);
    Plain([a, b, c, d, e], [av, bv, cv, dv, ev]);
    TrimAfter([a, b, c, d, e], [av, bv, cv, dv, ev], 1);
    Blank1After5(a, b, c, d, e);
    SpacesOne();
  }

  /** A trimmed row of 6 written columns: framed, and read back as the written columns. */
  lemma {:induction false} Trim6of6(a: string, av: string, b: string, bv: string, c: string, cv: string, d: string, dv: string, e: string, ev: string, g: string, gv: string)
    requires Renders(a, av) && Renders(b, bv) && Renders(c, cv) && Renders(d, dv) && Renders(e, ev) && Renders(g, gv)
    ensures Framed(Trim(JoinSpace([a, b, c, d, e, g]))) && Tokenize(Trim(JoinSpace([a, b, c, d, e, g]))) == [av, bv, cv, dv, ev, gv]
  {
    Row6(a, av, b, bv, c, cv, d, dv, e, ev, g, gv);
    Plain([a, b, c, d, e, g], [av, bv, cv, dv, ev, gv]);
    TrimAfter([a, b, c, d, e, g], [av, bv, cv, dv, ev, gv], 0);
    assert JoinSpace([a, b, c, d, e, g]) + Spaces(0) == JoinSpace([a, b, c, d, e, g]);
  }

  /** A row followed by `n` absent columns and stripped at its end: the blanks go, and the row reads back. */
  lemma {:induction false} StrippedRow(parts: seq<string>, values: seq<string>, n: nat)
    requires |parts| > 0 && AllRender(parts, values)
    ensures StripTrailing(JoinSpace(parts + Blanks(n))) == JoinSpace(parts)
    ensures Framed(JoinSpace(parts)) && Tokenize(JoinSpace(parts)) == values
  {
    Written(parts, values, n);
  }

  /*
   * Object references.
   */

  /** The "%d %s" pairs of the references, one string each. */
  function Pairs(refs: seq<ObjectReference>): seq<string> {
    seq(|refs|, i requires 0 <= i < |refs| => ReferencePair(refs[i]))
  }

  /** The tokens of the references: dimension and object number of each, in order. */
  function Flat(refs: seq<ObjectReference>): seq<string> {
    if |refs| == 0 then [] else [FormatInt(refs[0].dimensionNo), refs[0].objectNo] + Flat(refs[1..])
  }

  lemma {:induction false} FlatAt(refs: seq<ObjectReference>)
    ensures |Flat(refs)| == 2 * |refs|
    ensures forall i :: 0 <= i < |refs| ==>
      Flat(refs)[2 * i] == FormatInt(refs[i].dimensionNo) && Flat(refs)[2 * i + 1] == refs[i].objectNo
  {
    if |refs| > 0 {
      FlatAt(refs[1..]);
      var rest := Flat(refs[1..]);
      var r := [FormatInt(refs[0].dimensionNo), refs[0].objectNo] + rest;
      assert Flat(refs) == r;
      forall i | 1 <= i < |refs|
        ensures r[2 * i] == FormatInt(refs[i].dimensionNo) && r[2 * i + 1] == refs[i].objectNo
      {
        assert r[2 * i] == rest[2 * (i - 1)];
        assert r[2 * i + 1] == rest[2 * (i - 1) + 1];
        assert refs[1..][i - 1] == refs[i];
      }
    }
  }

  predicate NoBraces(s: string) {
    forall i :: 0 <= i < |s| ==> s[i] != '{' && s[i] != '}'
  }

  lemma {:induction false} PairsJoinFlat(refs: seq<ObjectReference>)
    ensures JoinSpace(Pairs(refs)) == JoinSpace(Flat(refs))
  {
    if |refs| > 0 {
      var a := FormatInt(refs[0].dimensionNo);
      var b := refs[0].objectNo;
      var rest := Flat(refs[1..]);
      assert Flat(refs) == [a, b] + rest;
      assert ([a, b] + rest)[1..] == [b] + rest;
      if |refs| == 1 {
        assert Pairs(refs) == [a + " " + b];
        assert rest == [];
        assert JoinSpace([b] + rest) == b;
      } else {
        PairsJoinFlat(refs[1..]);
        assert Pairs(refs)[1..] == Pairs(refs[1..]);
        assert |rest| > 0 by { assert rest == [FormatInt(refs[1].dimensionNo), refs[1].objectNo] + Flat(refs[2..]); }
        assert ([b] + rest)[1..] == rest;
        assert JoinSpace([b] + rest) == b + " " + JoinSpace(rest);
        assert JoinSpace(Pairs(refs)) == (a + " " + b) + " " + JoinSpace(Pairs(refs[1..]));
      }
    }
  }

  lemma {:induction false} JoinSpaceNoBraces(parts: seq<string>)
    requires forall i :: 0 <= i < |parts| ==> NoBraces(parts[i])
    ensures NoBraces(JoinSpace(parts))
  {
    if |parts| > 1 {
      JoinSpaceNoBraces(parts[1..]);
    }
  }

  lemma {:induction false} IntToken(x: int)
    ensures Renders(FormatInt(x), FormatInt(x)) && NoBraces(FormatInt(x))
  {
  }

  lemma {:induction false} IdToken(s: string)
    requires SafeId(s)
    ensures Renders(s, s) && NoBraces(s)
  {
  }

  /** Every token of the references is bare text without braces. */
  lemma {:induction false} FlatPieces(refs: seq<ObjectReference>)
    requires forall i :: 0 <= i < |refs| ==> SafeId(refs[i].objectNo)
    ensures forall k :: 0 <= k < |Flat(refs)| ==> Renders(Flat(refs)[k], Flat(refs)[k]) && NoBraces(Flat(refs)[k])
  {
    var flat := Flat(refs);
    assert |flat| == 2 * |refs| by {
      FlatAt(refs);
    }
    forall k | 0 <= k < |flat|
      ensures Renders(flat[k], flat[k]) && NoBraces(flat[k])
    {
      var i := k / 2;
      if k == 2 * i {
        assert flat[k] == FormatInt(refs[i].dimensionNo) by {
          FlatAt(refs);
        }
        IntToken(refs[i].dimensionNo);
      } else {
        assert flat[k] == refs[i].objectNo by {
          FlatAt(refs);
        }
        IdToken(refs[i].objectNo);
      }
    }
  }

  /**
   * The references of a transaction are written as one brace group whose
   * interior the scanner keeps whole, and parseObjectReferences reads the
   * interior back as the same references in the same order.
   */
  lemma {:induction false} ReferencesRender(refs: seq<ObjectReference>)
    requires forall i :: 0 <= i < |refs| ==> SafeId(refs[i].objectNo)
    ensures Renders(ReferencesText(refs), JoinSpace(Pairs(refs)))
    ensures ParseObjectReferences(JoinSpace(Pairs(refs))) == Ok(refs)
  {
    var interior := JoinSpace(Pairs(refs));
    var p := ReferencesText(refs);
    ReferencesInterior(refs);
    assert p[1..|p| - 1] == interior by {
      assert p == "{" + interior + "}";
    }
    ReferencesReadBack(refs);
  }

  /** The interior of the brace group scans as the flat tokens and holds no brace. */
  lemma {:induction false} ReferencesInterior(refs: seq<ObjectReference>)
    requires forall i :: 0 <= i < |refs| ==> SafeId(refs[i].objectNo)
    ensures Tokenize(JoinSpace(Pairs(refs))) == Flat(refs)
    ensures NoBraces(JoinSpace(Pairs(refs)))
  {
    var flat := Flat(refs);
    PairsJoinFlat(refs);
    FlatPieces(refs);
    TokenizeJoin(flat, flat);
    JoinSpaceNoBraces(flat);
  }

  lemma {:induction false} ReferencesReadBack(refs: seq<ObjectReference>)
    requires forall i :: 0 <= i < |refs| ==> SafeId(refs[i].objectNo)
    ensures ParseObjectReferences(JoinSpace(Pairs(refs))) == Ok(refs)
  {
    ReferencesInterior(refs);
    FlatLength(refs);
    ReferencesParse(refs);
  }

  lemma {:induction false} FlatLength(refs: seq<ObjectReference>)
    ensures |Flat(refs)| == 2 * |refs|
  {
    if |refs| > 0 {
      FlatLength(refs[1..]);
    }
  }

  /** parseObjectReferences over the tokens of the references pairs them up again. */
  lemma {:induction false} ReferencesParse(refs: seq<ObjectReference>)
    ensures DimensionsParse(Flat(refs)) && PairUp(Flat(refs)) == refs
  {
    var flat := Flat(refs);
    FlatAt(refs);
    assert |flat| / 2 == |refs|;
    forall i | 0 <= i < |refs|
      ensures ParseInt(flat[2 * i]) == Ok(refs[i].dimensionNo)
    {
      ParseIntFormatInt(refs[i].dimensionNo);
    }
    assert DimensionsParse(flat);
    var pairs := PairUp(flat);
    assert |pairs| == |refs|;
    forall i | 0 <= i < |refs|
      ensures pairs[i] == refs[i]
    {
      assert pairs[i] == ObjectReference(ParseInt(flat[2 * i]).value, flat[2 * i + 1]);
    }
  }

  /** ObjectReference.toString is the brace group of that one reference. */
  lemma {:induction false} ReferenceRenders(r: ObjectReference)
    requires SafeId(r.objectNo)
    ensures Renders(ObjectReferenceText(r), ReferencePair(r))
    ensures ParseObjectReferences(ReferencePair(r)) == Ok([r])
  {
    var pair := ReferencePair(r);
    assert JoinSpace(Pairs([r])) == pair by {
      assert Pairs([r]) == [pair];
    }
    assert ObjectReferenceText(r) == ReferencesText([r]) by {
      assert ObjectReferenceText(r) == "{" + pair + "}";
    }
    ReferencesRender([r]);
  }

  /*
   * Whole fields texts.
   */

  /** The parts are written texts and the values the tokens each stands for. */
  predicate AllRender(parts: seq<string>, values: seq<string>) {
    |parts| == |values| && forall i :: 0 <= i < |parts| ==> Renders(parts[i], values[i])
  }

  /**
   * Written columns followed by `n` absent ones: trim and stripTrailing
   * remove exactly the blanks, the text is framed, and the scanner reads
   * one token per written column.
   */
  lemma {:induction false} Written(parts: seq<string>, values: seq<string>, n: nat)
    requires |parts| > 0 && AllRender(parts, values)
    ensures Trim(JoinSpace(parts + Blanks(n))) == JoinSpace(parts)
    ensures StripTrailing(JoinSpace(parts + Blanks(n))) == JoinSpace(parts)
    ensures Framed(JoinSpace(parts))
    ensures Tokenize(JoinSpace(parts)) == values
  {
    forall i | 0 <= i < |parts|
      ensures |parts[i]| > 0
    {
      PieceFramed(parts[i], values[i]);
    }
    PieceFramed(parts[0], values[0]);
    PieceFramed(parts[|parts| - 1], values[|parts| - 1]);
    JoinSpaceEnds(parts);
    JoinSpaceBlanks(parts, n);
    TrimSpaces(JoinSpace(parts), n);
    StripTrailingSpaces(JoinSpace(parts), n);
    TokenizeJoin(parts, values);
  }

  /** One written column on its own: framed, and read back as one token. */
  lemma {:induction false} Single(p: string, v: string)
    requires Renders(p, v)
    ensures Framed(p) && Tokenize(p) == [v]
  {
    Written([p], [v], 0);
    assert JoinSpace([p]) == p;
  }

  /** A fields text the writer trims after `n` absent trailing columns. */
  lemma {:induction false} WrittenTrimmed(w: string, parts: seq<string>, values: seq<string>, n: nat)
    requires |parts| > 0 && AllRender(parts, values)
    requires w == Trim(JoinSpace(parts + Blanks(n)))
    ensures Framed(w) && Tokenize(w) == values
  {
    Written(parts, values, n);
  }

  /** A fields text the writer does not trim, with every column present. */
  lemma {:induction false} WrittenPlain(w: string, parts: seq<string>, values: seq<string>)
    requires |parts| > 0 && AllRender(parts, values)
    requires w == JoinSpace(parts)
    ensures Framed(w) && Tokenize(w) == values
  {
    Written(parts, values, 0);
  }
}
