/*
 * The entry points of the library: the line loop of SIE4.parse and
 * SIE4Parser.parse, which gathers the lines of a VER block and hands
 * every other line to toModel(String), and SIE4.write, which validates
 * the items under the chosen profile and prints one entry per item.
 */
module Sie4 {
  import opened Wrappers
  import opened Text
  import opened Items
  import opened InFieldMapper
  import opened ItemRoundTrip
  import Content

  /*
   * Reading.
   */

  /** The loop's two locals between lines: the open VER block and the items read so far. */
  datatype Assembly = Assembly(verBuffer: seq<string>, result: seq<Record>)

  /** Both lists empty, as before the first line. */
  const Start: Assembly := Assembly([], [])

  /** The two toModel entry points the loop calls: one for a single line, one for a VER block. */
  datatype Mapper = Mapper(line: string -> Result<Record>, block: seq<string> -> Result<Record>)

  /** InFieldMapper, and FieldMapper, which reads every line the same way. */
  const FieldMapper: Mapper := Mapper(ToModelLine, ToModelBlock)

  /**
   * One pass of the loop body.  The line is stripped; a "#VER" line goes
   * to the buffer; a "}" line reads the buffer as one voucher and clears
   * it; a "{" line is skipped; any other line joins an open block or is
   * read on its own.  A failure of either toModel ends the parse.
   */
  function Step(m: Mapper, a: Assembly, line: string): Result<Assembly> {
    var trimmed := Strip(line);
    if StartsWith(trimmed, "#VER") then Ok(a.(verBuffer := a.verBuffer + [trimmed]))
    else if StartsWith(trimmed, "}") then
      var ver :- m.block(a.verBuffer);
      Ok(Assembly([], a.result + [ver]))
    else if StartsWith(trimmed, "{") then Ok(a)
    else if |a.verBuffer| > 0 then Ok(a.(verBuffer := a.verBuffer + [trimmed]))
    else
      var item :- m.line(trimmed);
      Ok(a.(result := a.result + [item]))
  }

  /** The loop over all remaining lines, from the state `a`. */
  function Run(m: Mapper, a: Assembly, lines: seq<string>): Result<Assembly>
    decreases |lines|
  {
    if |lines| == 0 then Ok(a)
    else
      var b :- Step(m, a, lines[0]);
      Run(m, b, lines[1..])
  }

  /**
   * One line keeps the items read so far and adds at most one; an item is
   * added only by a "}" that closes a block or by a line outside any block.
   */
  lemma {:induction false} StepExtends(m: Mapper, a: Assembly, line: string)
    requires Step(m, a, line).Ok?
    ensures var b := Step(m, a, line).value;
      a.result <= b.result && |b.result| <= |a.result| + 1
      && (|b.result| == |a.result| + 1 ==> b.verBuffer == [] || |a.verBuffer| == 0)
  {
  }

  /** The items read never shrink, and each line adds at most one. */
  lemma {:induction false} RunExtends(m: Mapper, a: Assembly, lines: seq<string>)
    requires Run(m, a, lines).Ok?
    ensures a.result <= Run(m, a, lines).value.result
    ensures |Run(m, a, lines).value.result| <= |a.result| + |lines|
    decreases |lines|
  {
    if |lines| > 0 {
      var b := Step(m, a, lines[0]).value;
      StepExtends(m, a, lines[0]);
      RunExtends(m, b, lines[1..]);
    }
  }

  /** The items the loop has read once the input is exhausted; a VER block still open is dropped. */
  function Assembled(m: Mapper, lines: seq<string>): (r: Result<seq<Record>>)
    ensures r.Ok? ==> |r.value| <= |lines|
  {
    var a :- Run(m, Start, lines);
    RunExtends(m, Start, lines);
    Ok(a.result)
  }

  /**
   * The line loop shared by SIE4.parse and SIE4Parser.parse, over the
   * mapper each of them calls: the buffer and the result are updated in
   * place line by line, and the first failure of a toModel ends it.
   */
  method Assemble(m: Mapper, lines: seq<string>) returns (r: Result<seq<Record>>)
    ensures r == Assembled(m, lines)
  {
    var verBuffer: seq<string> := [];
    var result: seq<Record> := [];
    var i := 0;
    while i < |lines|
      invariant 0 <= i <= |lines|
      invariant Run(m, Start, lines) == Run(m, Assembly(verBuffer, result), lines[i..])
    {
      assert lines[i..][0] == lines[i] && lines[i..][1..] == lines[i + 1..];
      var trimmedLine := Strip(lines[i]);
      if StartsWith(trimmedLine, "#VER") {
        verBuffer := verBuffer + [trimmedLine];
      } else if StartsWith(trimmedLine, "}") {
        var ver := m.block(verBuffer);
        if ver.Err? {
          return Err(ver.error);
        }
        result := result + [ver.value];
        verBuffer := [];
      } else if !StartsWith(trimmedLine, "{") {
        if |verBuffer| > 0 {
          verBuffer := verBuffer + [trimmedLine];
        } else {
          var item := m.line(trimmedLine);
          if item.Err? {
            return Err(item.error);
          }
          result := result + [item.value];
        }
      }
      i := i + 1;
    }
    assert lines[i..] == [];
    return Ok(result);
  }

  /** What SIE4.parse returns for the lines of a file. */
  function Read(lines: seq<string>): (r: Result<Content.Content>)
    ensures r.Ok? ==> |r.value.items| <= |lines|
  {
    var items :- Assembled(FieldMapper, lines);
    Ok(Content.Content(items))
  }

  /** SIE4.parse: the loop over InFieldMapper, its items wrapped as the content of the file. */
  method Parse(lines: seq<string>) returns (r: Result<Content.Content>)
    ensures r == Read(lines)
  {
    var items := Assemble(FieldMapper, lines);
    if items.Err? {
      return Err(items.error);
    }
    return Ok(Content.Content(items.value));
  }

  /** SIE4Parser.parse: the loop over FieldMapper, returning the bare list of items. */
  method ParseItems(lines: seq<string>) returns (r: Result<seq<Record>>)
    ensures r.Ok? <==> Read(lines).Ok?
    ensures r.Ok? ==> r.value == Read(lines).value.items && |r.value| <= |lines|
    ensures r.Err? ==> r.error == Read(lines).error
  {
    r := Assemble(FieldMapper, lines);
  }

  /** Running over two pieces of input is running over the first, then over the second from where it stopped. */
  lemma {:induction false} RunAppend(m: Mapper, a: Assembly, x: seq<string>, y: seq<string>)
    ensures Run(m, a, x + y) == (match Run(m, a, x) case Ok(b) => Run(m, b, y) case Err(e) => Err(e))
    decreases |x|
  {
    if |x| > 0 {
      assert (x + y)[0] == x[0] && (x + y)[1..] == x[1..] + y;
      var s := Step(m, a, x[0]);
      if s.Ok? {
        RunAppend(m, s.value, x[1..], y);
      }
    } else {
      assert x + y == y;
    }
  }

  /** Once the first piece of input is read, the loop goes on over the second from where it stopped. */
  lemma {:induction false} RunAppendOk(m: Mapper, a: Assembly, b: Assembly, x: seq<string>, y: seq<string>)
    requires Run(m, a, x) == Ok(b)
    ensures Run(m, a, x + y) == Run(m, b, y)
  {
    RunAppend(m, a, x, y);
  }

  /** A stripped line that starts with none of "#VER", "}" and "{". */
  predicate Unmarked(trimmed: string) {
    !StartsWith(trimmed, "#VER") && !StartsWith(trimmed, "}") && !StartsWith(trimmed, "{")
  }

  /** A line that is not part of a block's frame: once stripped it is unmarked. */
  predicate Ordinary(line: string) {
    Unmarked(Strip(line))
  }

  /** Outside a block a plain line is read on its own, and its item is appended. */
  lemma {:induction false} OrdinaryStep(m: Mapper, result: seq<Record>, line: string)
    requires Ordinary(line)
    ensures Step(m, Assembly([], result), line)
         == (match m.line(Strip(line)) case Ok(item) => Ok(Assembly([], result + [item])) case Err(e) => Err(e))
  {
  }

  /** Mapping a non-empty list of lines, stripped, is mapping its first line, then the rest. */
  lemma {:induction false} MapStrippedCons(lines: seq<string>, parse: string -> Result<Record>)
    requires |lines| > 0
    ensures MapLines(Stripped(lines), parse)
         == (match parse(Strip(lines[0]))
             case Err(e) => Err(e)
             case Ok(x) => (match MapLines(Stripped(lines[1..]), parse) case Ok(xs) => Ok([x] + xs) case Err(e) => Err(e)))
  {
    var stripped := Stripped(lines);
    assert stripped[0] == Strip(lines[0]) && stripped[1..] == Stripped(lines[1..]);
  }

  /** Outside a block the first plain line is read on its own, and the loop goes on after it. */
  lemma {:induction false} OrdinaryRun(m: Mapper, result: seq<Record>, lines: seq<string>)
    requires |lines| > 0 && Ordinary(lines[0])
    ensures Run(m, Assembly([], result), lines)
         == (match m.line(Strip(lines[0])) case Err(e) => Err(e) case Ok(x) => Run(m, Assembly([], result + [x]), lines[1..]))
  {
    OrdinaryStep(m, result, lines[0]);
  }

  /** Every line of the list is ordinary, stated line after line. */
  predicate AllOrdinary(lines: seq<string>)
    decreases |lines|
  {
    |lines| == 0 || (Ordinary(lines[0]) && AllOrdinary(lines[1..]))
  }

  /** Ordinary at every index is ordinary line after line. */
  lemma {:induction false} AllOrdinaryOf(lines: seq<string>)
    requires forall i :: 0 <= i < |lines| ==> Ordinary(lines[i])
    ensures AllOrdinary(lines)
    decreases |lines|
  {
    if |lines| > 0 {
      assert forall i :: 0 <= i < |lines[1..]| ==> lines[1..][i] == lines[i + 1];
      AllOrdinaryOf(lines[1..]);
    }
  }

  /** The loop over ordinary lines outside a block, line after line. */
  lemma {:induction false} OrdinaryLinesRead(m: Mapper, result: seq<Record>, lines: seq<string>)
    requires AllOrdinary(lines)
    ensures Run(m, Assembly([], result), lines)
         == (match MapLines(Stripped(lines), m.line) case Ok(items) => Ok(Assembly([], result + items)) case Err(e) => Err(e))
    decreases |lines|
  {
    if |lines| == 0 {
      assert result + [] == result;
    } else {
      OrdinaryRun(m, result, lines);
      MapStrippedCons(lines, m.line);
      var first := m.line(Strip(lines[0]));
      if first.Ok? {
        var x := first.value;
        OrdinaryLinesRead(m, result + [x], lines[1..]);
        var rest := MapLines(Stripped(lines[1..]), m.line);
        if rest.Ok? {
          assert result + [x] + rest.value == result + ([x] + rest.value);
        }
      }
    }
  }

  /**
   * Outside a block every plain line yields exactly one item, in input
   * order: the loop reads them as the lines mapped one by one through
   * toModel(String), and stops at the first that fails.
   */
  lemma {:induction false} PlainLinesRead(m: Mapper, result: seq<Record>, lines: seq<string>)
    requires forall i :: 0 <= i < |lines| ==> Ordinary(lines[i])
    ensures Run(m, Assembly([], result), lines)
         == (match MapLines(Stripped(lines), m.line) case Ok(items) => Ok(Assembly([], result + items)) case Err(e) => Err(e))
  {
    AllOrdinaryOf(lines);
    OrdinaryLinesRead(m, result, lines);
  }

  /** A stripped line that starts with "{" starts with neither "#VER" nor "}". */
  lemma {:induction false} BraceIsNothingElse(trimmed: string)
    requires StartsWith(trimmed, "{")
    ensures !StartsWith(trimmed, "#VER") && !StartsWith(trimmed, "}")
  {
    assert trimmed[0] == '{';
  }

  /** A "{" line changes nothing, wherever it stands and whether or not a block is open. */
  lemma {:induction false} BraceLineIgnored(m: Mapper, a: Assembly, before: seq<string>, brace: string, after: seq<string>)
    requires StartsWith(Strip(brace), "{")
    ensures Run(m, a, before + [brace] + after) == Run(m, a, before + after)
  {
    BraceIsNothingElse(Strip(brace));
    RunAppend(m, a, before, [brace] + after);
    RunAppend(m, a, before, after);
    assert before + [brace] + after == before + ([brace] + after);
    var b := Run(m, a, before);
    if b.Ok? {
      assert ([brace] + after)[0] == brace && ([brace] + after)[1..] == after;
      assert Step(m, b.value, brace) == Ok(b.value);
    }
  }

  /** While a block is open and no "}" comes, lines only go to the buffer and no item is added. */
  lemma {:induction false} OpenBlockAbsorbs(m: Mapper, a: Assembly, lines: seq<string>)
    requires |a.verBuffer| > 0
    requires forall i :: 0 <= i < |lines| ==> !StartsWith(Strip(lines[i]), "}")
    ensures Run(m, a, lines).Ok? && Run(m, a, lines).value.result == a.result
    ensures |Run(m, a, lines).value.verBuffer| >= |a.verBuffer|
    decreases |lines|
  {
    if |lines| > 0 {
      var trimmed := Strip(lines[0]);
      var b := Step(m, a, lines[0]);
      assert b.Ok? && b.value.result == a.result && |b.value.verBuffer| >= |a.verBuffer|;
      assert forall i :: 0 <= i < |lines[1..]| ==> lines[1..][i] == lines[i + 1];
      OpenBlockAbsorbs(m, b.value, lines[1..]);
    }
  }

  /** A "#VER" line outside a block opens one, and no "}" after it closes it: nothing more is read. */
  lemma {:induction false} OpenedBlockKept(m: Mapper, items: seq<Record>, ver: string, rest: seq<string>)
    requires StartsWith(Strip(ver), "#VER")
    requires forall i :: 0 <= i < |rest| ==> !StartsWith(Strip(rest[i]), "}")
    ensures Run(m, Assembly([], items), [ver] + rest).Ok?
    ensures Run(m, Assembly([], items), [ver] + rest).value.result == items
  {
    var open := Assembly([Strip(ver)], items);
    assert ([ver] + rest)[0] == ver && ([ver] + rest)[1..] == rest;
    assert [] + [Strip(ver)] == [Strip(ver)];
    assert Step(m, Assembly([], items), ver) == Ok(open);
    OpenBlockAbsorbs(m, open, rest);
  }

  /**
   * A block that the input never closes is dropped without an error: the
   * items are those read before its "#VER" line.
   */
  lemma {:induction false} UnterminatedBlockDropped(m: Mapper, before: seq<string>, ver: string, rest: seq<string>, items: seq<Record>)
    requires Run(m, Start, before) == Ok(Assembly([], items))
    requires StartsWith(Strip(ver), "#VER")
    requires forall i :: 0 <= i < |rest| ==> !StartsWith(Strip(rest[i]), "}")
    ensures Assembled(m, before + [ver] + rest) == Ok(items)
  {
    OpenedBlockKept(m, items, ver, rest);
    assert before + [ver] + rest == before + ([ver] + rest);
    RunAppend(m, Start, before, [ver] + rest);
  }

  /** A "}" with no open block asks toModel(List) for the first of no lines. */
  lemma {:induction false} CloseWithoutBlockFails(result: seq<Record>, close: string)
    requires StartsWith(Strip(close), "}")
    ensures Step(FieldMapper, Assembly([], result), close) == Err(EmptyBlock)
  {
    assert !StartsWith(Strip(close), "#VER") by { assert Strip(close)[0] == '}'; }
  }

  /** Stripping a blank line leaves nothing. */
  lemma {:induction false} StripBlank(line: string)
    requires IsBlank(line)
    ensures StripLeading(line) == ""
    decreases |line|
  {
    if |line| > 0 {
      StripBlank(line[1..]);
    }
  }

  /** A blank line outside a block reaches toModel(String) and is refused. */
  lemma {:induction false} BlankLineFails(result: seq<Record>, line: string)
    requires IsBlank(line)
    ensures Step(FieldMapper, Assembly([], result), line) == Err(BlankLine)
  {
    StripBlank(line);
    assert Strip(line) == "";
  }

  /** The first white space of a line that starts with "#VER" comes after those four characters, if at all. */
  lemma {:induction false} VerLineCut(line: string)
    requires StartsWith(line, "#VER")
    ensures var i := FirstRegexSpace(line); i < 0 || i >= 4
  {
    assert line[..4] == "#VER";
    var i := FirstRegexSpace(line);
  }

  /** Stripping a text that starts with "#VER" keeps those four characters in front. */
  lemma {:induction false} VerHeadStrips(cut: string)
    requires |cut| >= 4 && cut[..4] == "#VER"
    ensures |Strip(cut)| >= 4 && Strip(cut)[1] == 'V' && Strip(cut)[2] == 'E'
  {
    assert cut[0] == '#' && cut[1] == 'V' && cut[2] == 'E' && cut[3] == 'R';
    assert StripLeading(cut) == cut;
    StripTrailingShape(cut);
  }

  /** A line that starts with "#VER" splits, if at all, under the VER label. */
  lemma {:induction false} SplitVerLine(line: string)
    requires StartsWith(line, "#VER")
    ensures SplitLine(line).Ok? ==> SplitLine(line).value.0 == VER
  {
    var i := FirstRegexSpace(line);
    VerLineCut(line);
    var cut := if i < 0 then line else line[..i];
    assert cut[..4] == line[..4];
    VerHeadStrips(cut);
    var name := ToUpper(Strip(cut)[1..]);
    assert name[0] == 'V' && name[1] == 'E';
    LabelOfVe(name);
  }

  /**
   * A line that starts with "#VER" is never read on its own: its label is
   * VER, which toModel(String) refuses, or a label that does not exist.
   */
  lemma {:induction false} VerLineNotSingle(line: string)
    requires StartsWith(line, "#VER")
    ensures ToModelLine(line).Err?
  {
    SplitVerLine(line);
  }

  /** A block holding a second "#VER" line after its first is refused by toModel(List). */
  lemma {:induction false} BlockWithVerRefused(lines: seq<string>, k: nat)
    requires 1 <= k < |lines| && StartsWith(lines[k], "#VER")
    ensures ToModelBlock(lines).Err?
  {
    VerLineNotSingle(lines[k]);
  }

  /** A mapper whose toModel(List) refuses every block with a "#VER" line among its sub-lines. */
  ghost predicate RefusesInnerVer(m: Mapper) {
    forall lines: seq<string>, k: int :: 1 <= k < |lines| && StartsWith(lines[k], "#VER") ==> m.block(lines).Err?
  }

  /** InFieldMapper is such a mapper. */
  lemma {:induction false} FieldMapperRefusesInnerVer()
    ensures RefusesInnerVer(FieldMapper)
  {
    forall lines: seq<string>, k: int | 1 <= k < |lines| && StartsWith(lines[k], "#VER")
      ensures FieldMapper.block(lines).Err?
    {
      BlockWithVerRefused(lines, k);
    }
  }

  /**
   * A second "#VER" line before the "}" joins the open block as one of
   * its sub-lines, and the whole block is refused when it is closed.
   */
  lemma {:induction false} SecondVerRejected(m: Mapper, a: Assembly, k: nat, close: string)
    requires RefusesInnerVer(m)
    requires 1 <= k < |a.verBuffer| && StartsWith(a.verBuffer[k], "#VER")
    requires StartsWith(Strip(close), "}")
    ensures Step(m, a, close).Err?
  {
    assert !StartsWith(Strip(close), "#VER") by { assert Strip(close)[0] == '}'; }
    assert m.block(a.verBuffer).Err?;
  }

  /** Each line stripped, in order. */
  function Stripped(lines: seq<string>): (r: seq<string>)
    ensures |r| == |lines|
  {
    if |lines| == 0 then [] else [Strip(lines[0])] + Stripped(lines[1..])
  }

  /** The i-th stripped line is the i-th line stripped. */
  lemma {:induction false} StrippedAt(lines: seq<string>)
    ensures forall i :: 0 <= i < |lines| ==> Stripped(lines)[i] == Strip(lines[i])
    decreases |lines|
  {
    if |lines| > 0 {
      StrippedAt(lines[1..]);
      assert forall i :: 1 <= i < |lines| ==> lines[1..][i - 1] == lines[i];
    }
  }

  /** Inside an open block an ordinary line only joins the buffer, stripped. */
  lemma {:induction false} OrdinaryLineBuffered(m: Mapper, a: Assembly, line: string)
    requires |a.verBuffer| > 0 && Ordinary(line)
    ensures Step(m, a, line) == Ok(a.(verBuffer := a.verBuffer + [Strip(line)]))
  {
  }

  /** Ordinary lines extend an open block's buffer by their stripped forms, and read nothing. */
  lemma {:induction false} BlockLinesBuffered(m: Mapper, a: Assembly, lines: seq<string>)
    requires |a.verBuffer| > 0 && AllOrdinary(lines)
    ensures Run(m, a, lines) == Ok(a.(verBuffer := a.verBuffer + Stripped(lines)))
    decreases |lines|
  {
    if |lines| == 0 {
      assert a.verBuffer + Stripped(lines) == a.verBuffer;
    } else {
      var b := a.(verBuffer := a.verBuffer + [Strip(lines[0])]);
      OrdinaryLineBuffered(m, a, lines[0]);
      BlockLinesBuffered(m, b, lines[1..]);
      assert a.verBuffer + Stripped(lines) == b.verBuffer + Stripped(lines[1..]);
    }
  }

  /** Outside a block a stripped "#VER" line opens one holding just that line. */
  lemma {:induction false} OpenRun(m: Mapper, result: seq<Record>, header: string, rest: seq<string>)
    requires Strip(header) == header && StartsWith(header, "#VER")
    ensures Run(m, Assembly([], result), [header] + rest) == Run(m, Assembly([header], result), rest)
  {
    assert ([header] + rest)[0] == header && ([header] + rest)[1..] == rest;
    assert [] + [header] == [header];
  }

  /** A "{" line is passed over. */
  lemma {:induction false} BraceStep(m: Mapper, a: Assembly, line: string)
    requires StartsWith(Strip(line), "{")
    ensures Step(m, a, line) == Ok(a)
  {
    BraceIsNothingElse(Strip(line));
  }

  /** A "}" line reads the buffer as one item, or fails as toModel(List) does. */
  lemma {:induction false} CloseStep(m: Mapper, a: Assembly, line: string)
    requires StartsWith(Strip(line), "}")
    ensures Step(m, a, line)
         == (match m.block(a.verBuffer) case Ok(v) => Ok(Assembly([], a.result + [v])) case Err(e) => Err(e))
  {
    assert Strip(line)[0] == '}';
  }

  /** A "{" line is passed over, wherever it stands. */
  lemma {:induction false} BraceRun(m: Mapper, a: Assembly, rest: seq<string>)
    ensures Run(m, a, ["{"] + rest) == Run(m, a, rest)
  {
    assert (["{"] + rest)[0] == "{" && (["{"] + rest)[1..] == rest;
    StripFramed("{");
    BraceStep(m, a, "{");
  }

  /** A "}" line closes the open block: the block is read as one item and the buffer is emptied. */
  lemma {:induction false} CloseRun(m: Mapper, a: Assembly, v: Record)
    requires m.block(a.verBuffer) == Ok(v)
    ensures Run(m, a, ["}"]) == Ok(Assembly([], a.result + [v]))
  {
    StripFramed("}");
    CloseStep(m, a, "}");
    assert ["}"][1..] == [];
  }
}
