/** The Python string operations the back end uses: `str.strip()` with no
    argument and `str.splitlines()`, both over Python's own character
    tables. */
module PyStrings {
  import Text

  /** The characters `str.isspace()` accepts, which `str.strip()` removes:
      the C0 separators TAB..CR and FS..US, SP, NEL, NBSP and the Unicode
      space separators, LS and PS. */
  predicate IsPySpace(c: char)
  {
    var n := c as int;
    9 <= n <= 13 || 28 <= n <= 32 || n == 0x85 || n == 0xA0 || n == 0x1680 || 0x2000 <= n <= 0x200A ||
    n == 0x2028 || n == 0x2029 || n == 0x202F || n == 0x205F || n == 0x3000
  }

  const PyWhitespace: set<char> := set c: char | IsPySpace(c)

  /** The ASCII members of `PyWhitespace`: all that can remain once every
      non-ASCII character has been removed. */
  const AsciiWhitespace: set<char> := {'\t', '\n', '\U{B}', '\U{C}', '\r', '\U{1C}', '\U{1D}', '\U{1E}', '\U{1F}', ' '}

  lemma AsciiWhitespaceIsPyWhitespace(c: char)
    requires c as int <= 0x7F
    ensures c in PyWhitespace <==> c in AsciiWhitespace
  {
  }

  /** `s.strip()`. */
  function Strip(s: string): (r: string)
    ensures |r| <= |s|
    ensures r == [] || (!IsPySpace(r[0]) && !IsPySpace(r[|r| - 1]))
  {
    Text.Strip(s, PyWhitespace)
  }

  /** The characters `str.splitlines()` ends a line at. */
  const LineBoundaries: set<char> := {
    '\n', '\r', '\U{B}', '\U{C}', '\U{1C}', '\U{1D}', '\U{1E}', '\U{85}', '\U{2028}', '\U{2029}'
  }

  /** Index of the first line boundary in `s`, or `|s|`. */
  function BoundaryIndex(s: string): (i: nat)
    ensures i <= |s|
    ensures forall j :: 0 <= j < i ==> s[j] !in LineBoundaries
    ensures i < |s| ==> s[i] in LineBoundaries
  {
    if s == [] then 0
    else if s[0] in LineBoundaries then 0
    else 1 + BoundaryIndex(s[1..])
  }

  /** `s.splitlines()`: lines end at any boundary character, "\r\n" ends a
      line as one boundary, and a boundary at the very end does not start an
      empty last line; the empty string has no lines. */
  function SplitLines(s: string): (lines: seq<string>)
    ensures s == [] <==> lines == []
    decreases |s|
  {
    if s == [] then []
    else
      var i := BoundaryIndex(s);
      if i == |s| then [s]
      else [s[..i]] + SplitLines(s[NextLineStart(s, i)..])
  }

  /** Where the next line starts after the boundary at `i`: past both
      characters of a "\r\n", past the one character of any other break. */
  function NextLineStart(s: string, i: nat): (j: nat)
    requires i < |s|
    ensures i < j <= |s|
  {
    if s[i] == '\r' && i + 1 < |s| && s[i + 1] == '\n' then i + 2 else i + 1
  }

  /** "\r\n" is one break, an empty line between two breaks is kept, and a
      break at the very end adds no line. */
  lemma SplitLinesExamples()
    ensures SplitLines("a\r\nb") == ["a", "b"]
    ensures SplitLines("a\n\nb") == ["a", "", "b"]
    ensures SplitLines("a\n") == ["a"]
    ensures SplitLines("a\n\n") == ["a", ""]
  {
    CrLfIsOneBreak();
    InnerBlankLineKept();
    TrailingBreakAddsNoLine();
    TrailingBlankLineKept();
  }

  lemma CrLfIsOneBreak()
    ensures SplitLines("a\r\nb") == ["a", "b"]
  {
    var crlf := "a\r\nb";
    assert BoundaryIndex(crlf[1..]) == 0;
    assert BoundaryIndex(crlf) == 1;
    assert crlf[..1] == "a" && crlf[3..] == "b";
    SingleLine("b");
  }

  lemma InnerBlankLineKept()
    ensures SplitLines("a\n\nb") == ["a", "", "b"]
  {
    var blank := "a\n\nb";
    assert BoundaryIndex(blank[1..]) == 0;
    assert BoundaryIndex(blank) == 1;
    SplitLinesAtNewline(blank);
    assert blank[..1] == "a" && blank[2..] == "\nb";
    var rest := "\nb";
    assert BoundaryIndex(rest) == 0;
    SplitLinesAtNewline(rest);
    assert rest[..0] == "" && rest[1..] == "b";
    SingleLine("b");
  }

  lemma TrailingBreakAddsNoLine()
    ensures SplitLines("a\n") == ["a"]
  {
    var trailing := "a\n";
    assert BoundaryIndex(trailing[1..]) == 0;
    assert BoundaryIndex(trailing) == 1;
    assert trailing[..1] == "a" && trailing[2..] == "";
  }

  lemma TrailingBlankLineKept()
    ensures SplitLines("a\n\n") == ["a", ""]
  {
    var twice := "a\n\n";
    assert BoundaryIndex(twice[1..]) == 0;
    assert BoundaryIndex(twice) == 1;
    assert twice[..1] == "a" && twice[2..] == "\n";
    assert BoundaryIndex("\n") == 0;
    assert "\n"[..0] == "" && "\n"[1..] == "";
    assert SplitLines("\n") == [""];
  }

  /** At the first boundary the first line ends and the next line starts. */
  lemma SplitLinesStep(s: string)
    requires BoundaryIndex(s) < |s|
    ensures SplitLines(s) == [s[..BoundaryIndex(s)]] + SplitLines(s[NextLineStart(s, BoundaryIndex(s))..])
  {
    assert s != [];
  }

  /** At a "\n" the first line ends and the rest of the text follows. */
  lemma SplitLinesAtNewline(s: string)
    requires BoundaryIndex(s) < |s| && s[BoundaryIndex(s)] == '\n'
    ensures SplitLines(s) == [s[..BoundaryIndex(s)]] + SplitLines(s[BoundaryIndex(s) + 1..])
  {
    SplitLinesStep(s);
    assert NextLineStart(s, BoundaryIndex(s)) == BoundaryIndex(s) + 1;
  }

  /** `line` holds no boundary character. */
  predicate BoundaryFree(line: string)
  {
    forall j :: 0 <= j < |line| ==> line[j] !in LineBoundaries
  }

  /** No line holds a boundary character. */
  lemma {:induction false} SplitLinesNoBoundary(s: string)
    ensures forall k :: 0 <= k < |SplitLines(s)| ==> BoundaryFree(SplitLines(s)[k])
    decreases |s|
  {
    var lines := SplitLines(s);
    if s != [] {
      var i := BoundaryIndex(s);
      if i < |s| {
        var rest := SplitLines(s[NextLineStart(s, i)..]);
        SplitLinesNoBoundary(s[NextLineStart(s, i)..]);
        SplitLinesStep(s);
        assert BoundaryFree(s[..i]);
        forall k | 1 <= k < |lines|
          ensures BoundaryFree(lines[k])
        {
          assert lines[k] == rest[k - 1];
        }
      } else {
        assert BoundaryFree(s);
        SingleLine(s);
      }
    }
  }

  /** Text without boundary characters is a single line. */
  lemma SingleLine(s: string)
    requires s != [] && BoundaryFree(s)
    ensures SplitLines(s) == [s]
  {
  }
}
