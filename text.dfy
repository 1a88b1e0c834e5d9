/*
 * The java.lang.String operations the SIE 4 code relies on, over strings
 * of Unicode scalar values (Dafny's char): the three notions of white space (the regular
 * expression class \s, Character.isWhitespace used by strip() and
 * isBlank(), and the "at most U+0020" test used by trim()), upper-casing,
 * prefix tests and joining.
 */
module Text {

  /** The regular-expression class \s: space, tab, line feed, vertical tab, form feed, carriage return. */
  predicate IsRegexSpace(c: char) {
    c == ' ' || c == '\t' || c == '\n' || c == '\U{B}' || c == '\U{C}' || c == '\r'
  }

  /** The characters `.` does not match in a regular expression without DOTALL. */
  predicate IsLineTerminator(c: char) {
    c == '\n' || c == '\r' || c == '\U{85}' || c == '\U{2028}' || c == '\U{2029}'
  }

  /**
   * Character.isWhitespace: the ASCII controls tab to carriage return and
   * file to unit separator, and the Unicode space, line and paragraph
   * separators other than the non-breaking spaces.
   */
  predicate IsWhitespace(c: char) {
    ('\t' <= c <= '\r') || ('\U{1C}' <= c <= ' ')
    || c == '\U{1680}' || ('\U{2000}' <= c <= '\U{2006}') || ('\U{2008}' <= c <= '\U{200A}')
    || c == '\U{2028}' || c == '\U{2029}' || c == '\U{205F}' || c == '\U{3000}'
  }

  /** A character that every one of the three white-space notions treats alike: space, or none of them. */
  predicate CleanChar(c: char) {
    c == ' ' || (c > ' ' && !IsWhitespace(c))
  }

  predicate Clean(s: string) {
    forall i :: 0 <= i < |s| ==> CleanChar(s[i])
  }

  predicate AllSpaces(s: string) {
    forall i :: 0 <= i < |s| ==> s[i] == ' '
  }

  /** String.isBlank */
  predicate IsBlank(s: string) {
    forall i :: 0 <= i < |s| ==> IsWhitespace(s[i])
  }

  /** The leading part of String.strip: drop Character.isWhitespace characters from the front. */
  function StripLeading(s: string): string {
    if |s| > 0 && IsWhitespace(s[0]) then StripLeading(s[1..]) else s
  }

  /** String.stripTrailing */
  function StripTrailing(s: string): string {
    if |s| > 0 && IsWhitespace(s[|s| - 1]) then StripTrailing(s[..|s| - 1]) else s
  }

  /** stripLeading keeps a suffix: what it drops is white space, and what it keeps does not start with any. */
  lemma {:induction false} StripLeadingShape(s: string)
    ensures var r := StripLeading(s);
      |r| <= |s| && r == s[|s| - |r|..]
      && (forall i :: 0 <= i < |s| - |r| ==> IsWhitespace(s[i]))
      && (|r| > 0 ==> !IsWhitespace(r[0]))
  {
    if |s| > 0 && IsWhitespace(s[0]) {
      StripLeadingShape(s[1..]);
    }
  }

  /** stripTrailing keeps a prefix: what it drops is white space, and what it keeps does not end with any. */
  lemma {:induction false} StripTrailingShape(s: string)
    ensures var r := StripTrailing(s);
      |r| <= |s| && r == s[..|r|]
      && (forall i :: |r| <= i < |s| ==> IsWhitespace(s[i]))
      && (|r| > 0 ==> !IsWhitespace(r[|r| - 1]))
  {
    if |s| > 0 && IsWhitespace(s[|s| - 1]) {
      StripTrailingShape(s[..|s| - 1]);
    }
  }

  /** String.strip */
  function Strip(s: string): string {
    StripTrailing(StripLeading(s))
  }

  /** The leading part of String.trim: drop characters up to U+0020 from the front. */
  function TrimStart(s: string): (r: string)
    ensures |r| <= |s| && r == s[|s| - |r|..]
    ensures forall i :: 0 <= i < |s| - |r| ==> s[i] <= ' '
    ensures |r| > 0 ==> r[0] > ' '
  {
    if |s| > 0 && s[0] <= ' ' then TrimStart(s[1..]) else s
  }

  function TrimEnd(s: string): (r: string)
    ensures |r| <= |s| && r == s[..|r|]
    ensures forall i :: |r| <= i < |s| ==> s[i] <= ' '
    ensures |r| > 0 ==> r[|r| - 1] > ' '
  {
    if |s| > 0 && s[|s| - 1] <= ' ' then TrimEnd(s[..|s| - 1]) else s
  }

  /** String.trim */
  function Trim(s: string): string {
    TrimEnd(TrimStart(s))
  }

  predicate StartsWith(s: string, prefix: string) {
    |prefix| <= |s| && s[..|prefix|] == prefix
  }

  /** Upper-casing of one character, for the ASCII letters. */
  function UpperChar(c: char): char {
    if 'a' <= c <= 'z' then (c as int - 32) as char else c
  }

  /** String.toUpperCase, for the ASCII letters. */
  function ToUpper(s: string): (r: string)
    ensures |r| == |s| && forall i :: 0 <= i < |s| ==> r[i] == UpperChar(s[i])
  {
    if |s| == 0 then [] else [UpperChar(s[0])] + ToUpper(s[1..])
  }

  /** String.equalsIgnoreCase, for the ASCII letters. */
  predicate EqualsIgnoreCase(a: string, b: string) {
    |a| == |b| && forall i :: 0 <= i < |a| ==> UpperChar(a[i]) == UpperChar(b[i])
  }

  /** String.join / Collectors.joining: the parts with `sep` between neighbours. */
  function Join(parts: seq<string>, sep: string): string {
    if |parts| == 0 then ""
    else if |parts| == 1 then parts[0]
    else parts[0] + sep + Join(parts[1..], sep)
  }

  /** A format string of `%s` conversions separated by single spaces, applied to `parts`. */
  function JoinSpace(parts: seq<string>): string {
    Join(parts, " ")
  }

  /** String.indexOf for one character: -1 when absent, otherwise the first position holding it. */
  function IndexOf(s: string, c: char): (r: int)
    ensures -1 <= r < |s|
    ensures r >= 0 ==> s[r] == c
    ensures forall i :: 0 <= i < |s| && (r < 0 || i < r) ==> s[i] != c
  {
    if |s| == 0 then -1
    else if s[0] == c then 0
    else var k := IndexOf(s[1..], c); if k < 0 then -1 else k + 1
  }

  /** Where the first \s character of `s` is, or -1: the first match of \s+ in String.split. */
  function FirstRegexSpace(s: string): (r: int)
    ensures -1 <= r < |s|
    ensures r >= 0 ==> IsRegexSpace(s[r])
    ensures forall i :: 0 <= i < |s| && (r < 0 || i < r) ==> !IsRegexSpace(s[i])
  {
    if |s| == 0 then -1
    else if IsRegexSpace(s[0]) then 0
    else var k := FirstRegexSpace(s[1..]); if k < 0 then -1 else k + 1
  }

  /** The first position holding `c` is what indexOf finds. */
  lemma {:induction false} IndexOfFirst(s: string, c: char, k: nat)
    requires k < |s| && s[k] == c
    requires forall i :: 0 <= i < k ==> s[i] != c
    ensures IndexOf(s, c) == k
  {
    if k > 0 {
      IndexOfFirst(s[1..], c, k - 1);
    }
  }

  /** The first \s character is where the first \s+ run starts. */
  lemma {:induction false} FirstRegexSpaceAt(s: string, k: nat)
    requires k < |s| && IsRegexSpace(s[k])
    requires forall i :: 0 <= i < k ==> !IsRegexSpace(s[i])
    ensures FirstRegexSpace(s) == k
  {
    if k > 0 {
      FirstRegexSpaceAt(s[1..], k - 1);
    }
  }

  lemma {:induction false} IndexOfAbsent(s: string, c: char)
    requires forall i :: 0 <= i < |s| ==> s[i] != c
    ensures IndexOf(s, c) == -1
  {
    if |s| > 0 {
      IndexOfAbsent(s[1..], c);
    }
  }

  /** A string already free of outer white space is its own strip. */
  lemma {:induction false} StripFramed(s: string)
    requires |s| > 0 && !IsWhitespace(s[0]) && !IsWhitespace(s[|s| - 1])
    ensures Strip(s) == s
  {
  }

  /** Leading spaces are removed by strip, the rest is left alone. */
  lemma {:induction false} StripIndented(spaces: string, s: string)
    requires AllSpaces(spaces)
    requires |s| > 0 && !IsWhitespace(s[0]) && !IsWhitespace(s[|s| - 1])
    ensures Strip(spaces + s) == s
  {
    if |spaces| == 0 {
      assert spaces + s == s;
    } else {
      assert (spaces + s)[1..] == spaces[1..] + s;
      StripIndented(spaces[1..], s);
    }
  }

  /** Over clean text, stripTrailing and the trailing half of trim remove exactly the same characters. */
  lemma {:induction false} StripTrailingClean(s: string)
    requires Clean(s)
    ensures StripTrailing(s) == TrimEnd(s)
  {
    if |s| > 0 {
      assert Clean(s[..|s| - 1]);
      StripTrailingClean(s[..|s| - 1]);
    }
  }

  /** Upper-casing an upper-case ASCII word changes nothing. */
  lemma {:induction false} ToUpperOfUpper(s: string)
    requires forall i :: 0 <= i < |s| ==> 'A' <= s[i] <= 'Z'
    ensures ToUpper(s) == s
  {
  }

  /** `n` spaces. */
  function Spaces(n: nat): (s: string)
    ensures |s| == n && AllSpaces(s)
  {
    if n == 0 then "" else " " + Spaces(n - 1)
  }

  /** `n` empty strings: the columns a format fills with absent optionals. */
  function Blanks(n: nat): (r: seq<string>)
    ensures |r| == n && forall i :: 0 <= i < n ==> r[i] == ""
  {
    seq(n, i => "")
  }

  lemma {:induction false} JoinSpaceOfBlanks(n: nat)
    requires n > 0
    ensures JoinSpace(Blanks(n)) == Spaces(n - 1)
  {
    if n > 1 {
      assert Blanks(n)[1..] == Blanks(n - 1);
      JoinSpaceOfBlanks(n - 1);
    }
  }

  /** Empty columns after the parts only add the spaces that separate them. */
  lemma {:induction false} JoinSpaceBlanks(parts: seq<string>, n: nat)
    requires |parts| > 0
    ensures JoinSpace(parts + Blanks(n)) == JoinSpace(parts) + Spaces(n)
  {
    var all := parts + Blanks(n);
    if n == 0 {
      assert all == parts;
    } else if |parts| == 1 {
      assert all[1..] == Blanks(n);
      JoinSpaceOfBlanks(n);
      assert all[0] + " " + Spaces(n - 1) == parts[0] + Spaces(n);
    } else {
      assert all[1..] == parts[1..] + Blanks(n);
      JoinSpaceBlanks(parts[1..], n);
    }
  }

  /** Joining one more part adds the separator and the part at the end. */
  lemma {:induction false} JoinSnoc(parts: seq<string>, p: string, sep: string)
    requires |parts| > 0
    ensures Join(parts + [p], sep) == Join(parts, sep) + sep + p
  {
    var all := parts + [p];
    if |parts| > 1 {
      assert all[1..] == parts[1..] + [p];
      JoinSnoc(parts[1..], p, sep);
    } else {
      assert all[1..] == [p];
    }
  }

  lemma {:induction false} JoinSpaceEnds(parts: seq<string>)
    requires |parts| > 0 && forall i :: 0 <= i < |parts| ==> |parts[i]| > 0
    ensures var s := JoinSpace(parts);
      |s| > 0 && s[0] == parts[0][0] && s[|s| - 1] == parts[|parts| - 1][|parts[|parts| - 1]| - 1]
  {
    if |parts| > 1 {
      JoinSpaceEnds(parts[1..]);
    }
  }

  lemma {:induction false} SpacesSnoc(n: nat)
    requires n > 0
    ensures Spaces(n) == Spaces(n - 1) + " "
  {
    if n > 1 {
      SpacesSnoc(n - 1);
    }
  }

  /** trim's trailing half drops a final space. */
  lemma {:induction false} TrimEndSnoc(u: string)
    ensures TrimEnd(u + " ") == TrimEnd(u)
  {
    var t := u + " ";
    assert t[..|t| - 1] == u;
  }

  /** stripTrailing drops a final space. */
  lemma {:induction false} StripTrailingSnoc(u: string)
    ensures StripTrailing(u + " ") == StripTrailing(u)
  {
    var t := u + " ";
    assert t[..|t| - 1] == u;
  }

  /** The trailing half of trim removes trailing spaces up to a character above U+0020. */
  lemma {:induction false} TrimEndSpaces(s: string, n: nat)
    requires |s| > 0 && s[|s| - 1] > ' '
    ensures TrimEnd(s + Spaces(n)) == s
  {
    if n == 0 {
      assert s + Spaces(0) == s;
    } else {
      SpacesSnoc(n);
      assert s + Spaces(n) == (s + Spaces(n - 1)) + " ";
      TrimEndSnoc(s + Spaces(n - 1));
      TrimEndSpaces(s, n - 1);
    }
  }

  /** stripTrailing removes trailing spaces up to a character that is not white space. */
  lemma {:induction false} StripTrailingSpaces(s: string, n: nat)
    requires |s| > 0 && !IsWhitespace(s[|s| - 1])
    ensures StripTrailing(s + Spaces(n)) == s
  {
    if n == 0 {
      assert s + Spaces(0) == s;
    } else {
      SpacesSnoc(n);
      assert s + Spaces(n) == (s + Spaces(n - 1)) + " ";
      StripTrailingSnoc(s + Spaces(n - 1));
      StripTrailingSpaces(s, n - 1);
    }
  }

  /** trim of a text with solid ends followed by spaces is the text. */
  lemma {:induction false} TrimSpaces(s: string, n: nat)
    requires |s| > 0 && s[0] > ' ' && s[|s| - 1] > ' '
    ensures Trim(s + Spaces(n)) == s
  {
    assert TrimStart(s + Spaces(n)) == s + Spaces(n);
    TrimEndSpaces(s, n);
  }
}
