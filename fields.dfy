/*
 * The field scanner shared by every line parser, and its two scalar
 * helpers: reading a brace group of object references and reading an
 * optional field.
 *
 * The scanner is the regular expression
 *     "((?:[^"\\]|\\.)*)"  |  \{([^{}]*)}  |  (\S+)
 * applied with repeated find(): at each position the three alternatives
 * are tried in that order, and a position where none matches (a \s
 * character) is skipped.
 */
module FieldParser {
  import opened Wrappers
  import opened Text
  import opened Numbers
  import opened Values

  /*
   * The three alternatives, each as a scan from a start position.
   */

  /**
   * Where the body of a quoted field stops when it is scanned from `i`:
   * a body character is anything but a quote or a backslash, or a
   * backslash together with the next character when that one is not a
   * line terminator. The quoted alternative matches exactly when the scan
   * stops at a quote.
   */
  function QuotedScan(s: string, i: nat): (j: nat)
    requires i <= |s|
    ensures i <= j <= |s|
    ensures j < |s| ==> s[j] == '"' || s[j] == '\\'
    decreases |s| - i
  {
    if i == |s| || s[i] == '"' then i
    else if s[i] == '\\' then
      if i + 1 < |s| && !IsLineTerminator(s[i + 1]) then QuotedScan(s, i + 2) else i
    else QuotedScan(s, i + 1)
  }

  /** Where the interior of a brace group scanned from `i` stops: at the first brace or the end. */
  function BraceScan(s: string, i: nat): (j: nat)
    requires i <= |s|
    ensures i <= j <= |s|
    ensures forall k :: i <= k < j ==> s[k] != '{' && s[k] != '}'
    ensures j < |s| ==> s[j] == '{' || s[j] == '}'
    decreases |s| - i
  {
    if i == |s| || s[i] == '{' || s[i] == '}' then i else BraceScan(s, i + 1)
  }

  /** Where a run of non-\s characters scanned from `i` stops. */
  function BareScan(s: string, i: nat): (j: nat)
    requires i <= |s|
    ensures i <= j <= |s|
    ensures forall k :: i <= k < j ==> !IsRegexSpace(s[k])
    ensures j < |s| ==> IsRegexSpace(s[j])
    decreases |s| - i
  {
    if i == |s| || IsRegexSpace(s[i]) then i else BareScan(s, i + 1)
  }

  /** String.replace("\\\"", "\""): every backslash-quote pair, left to right, becomes a quote. */
  function Unescape(s: string): string {
    if |s| < 2 then s
    else if s[0] == '\\' && s[1] == '"' then "\"" + Unescape(s[2..])
    else [s[0]] + Unescape(s[1..])
  }

  /** One match of the field pattern: the token it contributes and how many characters it consumes. */
  datatype Match = Match(token: string, length: nat)

  /** The match at the start of `s`, whose first character is not \s: quoted, else brace group, else bare run. */
  function MatchAt(s: string): (m: Match)
    requires |s| > 0 && !IsRegexSpace(s[0])
    ensures 0 < m.length <= |s|
  {
    var q := QuotedScan(s, 1);
    var b := BraceScan(s, 1);
    if s[0] == '"' && q < |s| && s[q] == '"' then Match(Unescape(s[1..q]), q + 1)
    else if s[0] == '{' && b < |s| && s[b] == '}' then Match(s[1..b], b + 1)
    else Match(s[..BareScan(s, 0)], BareScan(s, 0))
  }

  /** The tokens tokenizeFields returns for `s`. */
  function Tokenize(s: string): seq<string>
    decreases |s|
  {
    if |s| == 0 then []
    else if IsRegexSpace(s[0]) then Tokenize(s[1..])
    else var m := MatchAt(s); [m.token] + Tokenize(s[m.length..])
  }

  /** tokenizeFields: the find() loop, collecting one token per match. */
  method TokenizeFields(fields: string) returns (tokens: seq<string>)
    ensures tokens == Tokenize(fields)
  {
    tokens := [];
    var pos := 0;
    while pos < |fields|
      invariant pos <= |fields|
      invariant tokens + Tokenize(fields[pos..]) == Tokenize(fields)
      decreases |fields| - pos
    {
      var rest := fields[pos..];
      if IsRegexSpace(fields[pos]) {
        assert rest[1..] == fields[pos + 1..];
        pos := pos + 1;
      } else {
        var m := MatchAt(rest);
        TokenizeStep(tokens, rest, m);
        assert rest[m.length..] == fields[pos + m.length..];
        tokens := tokens + [m.token];
        pos := pos + m.length;
      }
    }
  }

  /** One step of the loop: the tokens so far, then the match, then what follows it. */
  lemma {:induction false} TokenizeStep(tokens: seq<string>, rest: string, m: Match)
    requires |rest| > 0 && !IsRegexSpace(rest[0]) && m == MatchAt(rest)
    ensures tokens + Tokenize(rest) == (tokens + [m.token]) + Tokenize(rest[m.length..])
  {
  }

  /*
   * What each alternative gives on a piece of text followed by \s or by
   * nothing.
   */

  /** A character that is neither any kind of white space nor a control character. */
  predicate Solid(c: char) {
    c > ' ' && !IsWhitespace(c)
  }

  /** A bare field: solid characters, not starting as a quoted field or a brace group would. */
  predicate BarePiece(p: string) {
    |p| > 0 && p[0] != '"' && p[0] != '{' && forall i :: 0 <= i < |p| ==> Solid(p[i])
  }

  /** A quoted field whose interior holds no quote and no backslash. */
  predicate QuotedPiece(p: string) {
    |p| >= 2 && p[0] == '"' && p[|p| - 1] == '"'
    && forall i :: 0 < i < |p| - 1 ==> p[i] != '"' && p[i] != '\\'
  }

  /** A brace group whose interior holds no brace. */
  predicate BracePiece(p: string) {
    |p| >= 2 && p[0] == '{' && p[|p| - 1] == '}'
    && forall i :: 0 < i < |p| - 1 ==> p[i] != '{' && p[i] != '}'
  }

  /** `p` is written text that the scanner reads as the single token `v`. */
  predicate Renders(p: string, v: string) {
    (BarePiece(p) && v == p)
    || ((QuotedPiece(p) || BracePiece(p)) && v == p[1..|p| - 1])
  }

  /** A piece starts and ends with characters that no kind of stripping or trimming removes. */
  lemma {:induction false} PieceFramed(p: string, v: string)
    requires Renders(p, v)
    ensures |p| > 0 && Solid(p[0]) && Solid(p[|p| - 1])
  {
  }

  lemma {:induction false} QuotedScanPlain(s: string, i: nat, k: nat)
    requires i <= k < |s| && s[k] == '"'
    requires forall j :: i <= j < k ==> s[j] != '"' && s[j] != '\\'
    ensures QuotedScan(s, i) == k
    decreases k - i
  {
    if i < k {
      QuotedScanPlain(s, i + 1, k);
    }
  }

  lemma {:induction false} UnescapePlain(s: string)
    requires forall i :: 0 <= i < |s| ==> s[i] != '\\'
    ensures Unescape(s) == s
  {
    if |s| >= 2 {
      UnescapePlain(s[1..]);
    }
  }

  /** A piece followed by \s or by the end is matched whole, as its token. */
  lemma {:induction false} MatchPiece(p: string, v: string, rest: string)
    requires Renders(p, v)
    requires |rest| == 0 || IsRegexSpace(rest[0])
    ensures MatchAt(p + rest) == Match(v, |p|)
  {
    var s := p + rest;
    assert s[..|p|] == p;
    if QuotedPiece(p) {
      QuotedScanPlain(s, 1, |p| - 1);
      UnescapePlain(p[1..|p| - 1]);
      assert s[1..|p| - 1] == p[1..|p| - 1];
    } else if BracePiece(p) {
      assert s[1..|p| - 1] == p[1..|p| - 1];
    }
  }

  /** A piece followed by \s or by the end contributes its token, and scanning goes on after it. */
  lemma {:induction false} TokenizePiece(p: string, v: string, rest: string)
    requires Renders(p, v)
    requires |rest| == 0 || IsRegexSpace(rest[0])
    ensures Tokenize(p + rest) == [v] + Tokenize(rest)
  {
    var s := p + rest;
    PieceFramed(p, v);
    assert s[0] == p[0];
    MatchPiece(p, v, rest);
    assert s[|p|..] == rest;
  }

  /** A leading space is skipped. */
  lemma {:induction false} TokenizeSpace(t: string)
    ensures Tokenize(" " + t) == Tokenize(t)
  {
    assert (" " + t)[1..] == t;
  }

  /** Pieces joined by single spaces scan back as their tokens, one per piece. */
  lemma {:induction false} TokenizeJoin(pieces: seq<string>, values: seq<string>)
    requires |pieces| == |values|
    requires forall i :: 0 <= i < |pieces| ==> Renders(pieces[i], values[i])
    ensures Tokenize(JoinSpace(pieces)) == values
  {
    if |pieces| == 0 {
      assert JoinSpace(pieces) == "";
    } else if |pieces| == 1 {
      assert JoinSpace(pieces) == pieces[0] + "";
      TokenizePiece(pieces[0], values[0], "");
      assert values == [values[0]];
    } else {
      var p := pieces[0];
      var tail := JoinSpace(pieces[1..]);
      assert JoinSpace(pieces) == p + (" " + tail);
      TokenizePiece(p, values[0], " " + tail);
      TokenizeSpace(tail);
      TokenizeJoin(pieces[1..], values[1..]);
      assert values == [values[0]] + values[1..];
    }
  }

  /** \s before the first field changes nothing. */
  lemma {:induction false} TokenizeLeadingSpace(w: string, s: string)
    requires forall i :: 0 <= i < |w| ==> IsRegexSpace(w[i])
    ensures Tokenize(w + s) == Tokenize(s)
  {
    if |w| == 0 {
      assert w + s == s;
    } else {
      assert IsRegexSpace((w + s)[0]);
      assert Tokenize(w + s) == Tokenize((w + s)[1..]);
      assert (w + s)[1..] == w[1..] + s;
      TokenizeLeadingSpace(w[1..], s);
    }
  }

  /** Every match consumes a character, so there are never more tokens than characters. */
  lemma {:induction false} TokenizeCount(s: string)
    ensures |Tokenize(s)| <= |s|
    decreases |s|
  {
    if |s| > 0 {
      if IsRegexSpace(s[0]) {
        TokenizeCount(s[1..]);
      } else {
        TokenizeCount(s[MatchAt(s).length..]);
      }
    }
  }

  /** The characters of `s` other than \s, in order. */
  function RemoveSpaces(s: string): (r: string)
    ensures forall i :: 0 <= i < |r| ==> !IsRegexSpace(r[i])
  {
    if |s| == 0 then []
    else (if IsRegexSpace(s[0]) then [] else [s[0]]) + RemoveSpaces(s[1..])
  }

  function Concat(ts: seq<string>): string {
    if |ts| == 0 then [] else ts[0] + Concat(ts[1..])
  }

  lemma {:induction false} RemoveSpacesRun(s: string, n: nat)
    requires n <= |s|
    requires forall i :: 0 <= i < n ==> !IsRegexSpace(s[i])
    ensures RemoveSpaces(s) == s[..n] + RemoveSpaces(s[n..])
  {
    if n > 0 {
      RemoveSpacesRun(s[1..], n - 1);
      assert s[1..][n - 1..] == s[n..];
      assert [s[0]] + s[1..][..n - 1] == s[..n];
    }
  }

  /**
   * Text without quote or brace characters is split at \s only: every
   * token is non-empty and free of \s, and together the tokens are the
   * text with its white space removed.
   */
  lemma {:induction false} TokenizePlain(s: string)
    requires forall i :: 0 <= i < |s| ==> s[i] != '"' && s[i] != '{'
    ensures forall t :: t in Tokenize(s) ==> |t| > 0 && forall i :: 0 <= i < |t| ==> !IsRegexSpace(t[i])
    ensures Concat(Tokenize(s)) == RemoveSpaces(s)
    decreases |s|
  {
    if |s| > 0 {
      if IsRegexSpace(s[0]) {
        TokenizePlain(s[1..]);
      } else {
        var n := BareScan(s, 0);
        assert MatchAt(s) == Match(s[..n], n);
        TokenizePlain(s[n..]);
        RemoveSpacesRun(s, n);
        assert Tokenize(s) == [s[..n]] + Tokenize(s[n..]);
      }
    }
  }

  /** The scanner on no text and on an empty brace group. */
  lemma {:induction false} TokenizeEmpty()
    ensures Tokenize("") == []
    ensures Tokenize("{}") == [""]
  {
    TokenizeJoin(["{}"], [""]);
    assert JoinSpace(["{}"]) == "{}";
  }

  lemma {:induction false} EscapedQuoteScan()
    ensures QuotedScan("\"gh\\\"i j\"", 1) == 8
  {
    var q := "\"gh\\\"i j\"";
    QuotedScanPlain(q, 5, 8);
  }

  lemma {:induction false} EscapedQuoteUnescape()
    ensures Unescape("gh\\\"i j") == "gh\"i j"
  {
    UnescapePlain("i j");
    assert Unescape("\\\"i j") == "\"" + Unescape("i j");
  }

  /** A quoted field keeps its space and loses the backslash before its inner quote. */
  lemma {:induction false} TokenizeEscapedQuote()
    ensures Tokenize("\"gh\\\"i j\"") == ["gh\"i j"]
  {
    var q := "\"gh\\\"i j\"";
    EscapedQuoteMatch();
    assert q[9..] == "";
  }

  lemma {:induction false} EscapedQuoteMatch()
    ensures MatchAt("\"gh\\\"i j\"") == Match("gh\"i j", 9)
  {
    var q := "\"gh\\\"i j\"";
    EscapedQuoteScan();
    EscapedQuoteUnescape();
    assert q[1..8] == "gh\\\"i j";
  }

  /*
   * parseObjectReferences and parseOptionalField.
   */

  /** Every even-indexed token, the dimension number of a pair, is an int. */
  predicate DimensionsParse(tokens: seq<string>) {
    forall i :: 0 <= i < |tokens| / 2 ==> ParseInt(tokens[2 * i]).Ok?
  }

  /** The index stream of parseObjectReferences: token 2i and token 2i + 1 make reference i. */
  function PairUp(tokens: seq<string>): seq<ObjectReference>
    requires DimensionsParse(tokens)
  {
    seq(|tokens| / 2, i requires 0 <= i < |tokens| / 2 => ObjectReference(ParseInt(tokens[2 * i]).value, tokens[2 * i + 1]))
  }

  /**
   * parseObjectReferences: no tokens is no references, an odd number of
   * tokens is an error, and otherwise each pair of tokens is one reference.
   */
  function ParseObjectReferences(text: string): (r: Result<seq<ObjectReference>>)
    ensures |Tokenize(text)| == 0 ==> r == Ok([])
    ensures |Tokenize(text)| % 2 != 0 ==> r.Err?
    ensures r.Ok? <==> |Tokenize(text)| % 2 == 0 && DimensionsParse(Tokenize(text))
    ensures r.Ok? ==> 2 * |r.value| == |Tokenize(text)|
    ensures r.Ok? ==> forall i :: 0 <= i < |r.value| ==>
      ParseInt(Tokenize(text)[2 * i]) == Ok(r.value[i].dimensionNo) && r.value[i].objectNo == Tokenize(text)[2 * i + 1]
  {
    var tokens := Tokenize(text);
    if |tokens| == 0 then Ok([])
    else if |tokens| % 2 != 0 then Err(OddObjectReferences(text))
    else if !DimensionsParse(tokens) then Err(NumberFormat(text))
    else Ok(PairUp(tokens))
  }

  /** parseObjectReferences on an odd number of fields: an error, whatever the fields are. */
  lemma {:induction false} ParseObjectReferencesOdd(pieces: seq<string>, values: seq<string>)
    requires |pieces| == |values| && |pieces| % 2 == 1
    requires forall i :: 0 <= i < |pieces| ==> Renders(pieces[i], values[i])
    ensures ParseObjectReferences(JoinSpace(pieces)).Err?
  {
    TokenizeJoin(pieces, values);
  }

  /** A dimension and a quoted object number scan as two tokens, the quotes dropped. */
  lemma {:induction false} QuotedPairTokens(dimension: Int32, objectNo: string)
    requires forall i :: 0 <= i < |objectNo| ==> objectNo[i] != '"' && objectNo[i] != '\\'
    ensures Tokenize(FormatInt(dimension) + " " + ("\"" + objectNo + "\"")) == [FormatInt(dimension), objectNo]
  {
    var d := FormatInt(dimension);
    var q := "\"" + objectNo + "\"";
    assert Renders(q, objectNo) by {
      assert q[1..|q| - 1] == objectNo;
    }
    assert Renders(d, d);
    TokenizeJoin([d, q], [d, objectNo]);
    assert [d, q][1..] == [q];
    assert Join([q], " ") == q;
    assert JoinSpace([d, q]) == d + " " + Join([q], " ");
  }

  /** parseObjectReferences on a dimension and a quoted object number: the quotes are dropped. */
  lemma {:induction false} ParseObjectReferencesQuoted(dimension: Int32, objectNo: string)
    requires forall i :: 0 <= i < |objectNo| ==> objectNo[i] != '"' && objectNo[i] != '\\'
    ensures ParseObjectReferences(FormatInt(dimension) + " " + ("\"" + objectNo + "\""))
      == Ok([ObjectReference(dimension, objectNo)])
  {
    var tokens := [FormatInt(dimension), objectNo];
    QuotedPairTokens(dimension, objectNo);
    assert DimensionsParse(tokens) && PairUp(tokens) == [ObjectReference(dimension, objectNo)] by {
      ParseIntFormatInt(dimension);
      assert tokens[2 * 0] == FormatInt(dimension);
    }
  }

  /** parseOptionalField: the empty string is absent, anything else is present and unchanged. */
  function ParseOptionalField(field: string): (r: Option<string>)
    ensures r == None <==> field == ""
    ensures r.Some? ==> r.value == field
  {
    if field == "" then None else Some(field)
  }
}
