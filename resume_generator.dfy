/** The back end's resume post-processing: the template key taken from the
    request, and the per-template rewrite of the text the language model
    returned. The model call itself is outside this module: its text is a
    parameter. */
module ResumeGenerator {
  import Text
  import opened Wrappers
  import opened PyStrings

  const DefaultTemplate := "modern-2"

  /** `user_input.get("template", "modern-2").lower()`. */
  function TemplateKey(template: Option<string>): (k: string)
    ensures template.None? ==> k == DefaultTemplate
    ensures template.Some? ==> |k| == |template.value|
    ensures forall j :: 0 <= j < |k| ==> !('A' <= k[j] <= 'Z')
  {
    Text.AsciiLower(template.GetOr(DefaultTemplate))
  }

  /** The key does not depend on how the template was capitalised, and a key
      is its own key. */
  lemma TemplateKeyCanonical(template: Option<string>)
    ensures TemplateKey(Some(TemplateKey(template))) == TemplateKey(template)
  {
    Text.AsciiLowerIdempotent(template.GetOr(DefaultTemplate));
  }

  lemma TemplateKeyExamples()
    ensures TemplateKey(Some("MODERN-3")) == "modern-3"
    ensures TemplateKey(Some("Modern-1")) == "modern-1"
  {
    LowerExample("MODERN-3", "modern-3");
    LowerExample("Modern-1", "modern-1");
  }

  lemma LowerExample(s: string, k: string)
    requires |s| == |k| && forall i :: 0 <= i < |s| ==> Text.LowerChar(s[i]) == k[i]
    ensures TemplateKey(Some(s)) == k
  {
  }

  // modern-1: long lines are cut

  const MaxLine := 200

  /** One line of the modern-1 rewrite: the test is on the stripped line, the
      cut on the raw line. */
  function ShortenLine(line: string): string
  {
    if |Strip(line)| > MaxLine then line[..MaxLine] + "..." else line
  }

  /** A line is kept when its stripped form fits, and otherwise becomes its
      first 200 raw characters followed by "...". */
  lemma ShortenLineRule(line: string)
    ensures |Strip(line)| <= MaxLine ==> ShortenLine(line) == line
    ensures |Strip(line)| > MaxLine ==> |line| > MaxLine && |ShortenLine(line)| == MaxLine + 3
    ensures |Strip(line)| > MaxLine ==>
              ShortenLine(line)[..MaxLine] == line[..MaxLine] && ShortenLine(line)[MaxLine..] == "..."
  {
  }

  /** Cutting a line puts no line break into it. */
  lemma ShortenLineNoBreak(line: string)
    requires '\n' !in line
    ensures '\n' !in ShortenLine(line)
  {
    if |Strip(line)| > MaxLine {
      var cut := line[..MaxLine];
      assert '\n' !in cut;
      assert ShortenLine(line) == cut + "...";
    }
  }

  /** A raw line of 201 spaces strips to nothing, so it is kept whole although
      it is longer than the limit. */
  lemma LongBlankLineKept()
    ensures var line := seq(MaxLine + 1, _ => ' ');
            |line| > MaxLine && ShortenLine(line) == line
  {
    var line := seq(MaxLine + 1, _ => ' ');
    assert forall j :: 0 <= j < |line| ==> line[j] in PyWhitespace;
    Text.StripEmptyIff(line, PyWhitespace);
    assert |Strip(line)| == 0;
  }

  /** `f` applied to each element, in order. */
  function Map<A, B>(f: A -> B, s: seq<A>): (r: seq<B>)
    ensures |r| == |s|
    ensures forall i :: 0 <= i < |s| ==> r[i] == f(s[i])
  {
    seq(|s|, i requires 0 <= i < |s| => f(s[i]))
  }

  /** Mapping one more element appends its image. */
  lemma MapSnoc<A, B>(f: A -> B, s: seq<A>, i: nat)
    requires i < |s|
    ensures Map(f, s[..i + 1]) == Map(f, s[..i]) + [f(s[i])]
  {
    var a, b := Map(f, s[..i + 1]), Map(f, s[..i]) + [f(s[i])];
    assert |a| == |b|;
    forall j | 0 <= j < |a|
      ensures a[j] == b[j]
    {
      if j < i {
        assert s[..i + 1][j] == s[..i][j];
      }
    }
  }

  function ShortenAll(lines: seq<string>): (r: seq<string>)
    ensures |r| == |lines|
    ensures forall i :: 0 <= i < |lines| ==> r[i] == ShortenLine(lines[i])
  {
    Map(ShortenLine, lines)
  }

  /** Lines that all fit are kept as they are. */
  lemma ShortLinesKept(lines: seq<string>)
    requires forall k :: 0 <= k < |lines| ==> |Strip(lines[k])| <= MaxLine
    ensures ShortenAll(lines) == lines
  {
    var r := ShortenAll(lines);
    forall k | 0 <= k < |lines|
      ensures r[k] == lines[k]
    {
      ShortenLineRule(lines[k]);
    }
  }

  /** The modern-1 rewrite: split into lines, cut each, and join with "\n". */
  function Modern1(text: string): string
  {
    Text.Join(ShortenAll(SplitLines(text)), '\n')
  }

  /** A non-empty text gives as many "\n"-separated lines as it had lines,
      each the shortened input line. */
  lemma Modern1Lines(text: string)
    requires text != []
    ensures Text.Split(Modern1(text), '\n') == ShortenAll(SplitLines(text))
    ensures |Text.Split(Modern1(text), '\n')| == |SplitLines(text)|
  {
    var lines := SplitLines(text);
    SplitLinesNoBoundary(text);
    var short := ShortenAll(lines);
    forall k | 0 <= k < |short|
      ensures '\n' !in short[k]
    {
      assert BoundaryFree(lines[k]);
      ShortenLineNoBreak(lines[k]);
    }
    Text.SplitJoin(short, '\n');
  }

  /** Every index of `s` is a "\n" or holds no line boundary. */
  predicate OnlyNewlineBreaks(s: string)
  {
    forall j :: 0 <= j < |s| ==> s[j] == '\n' || s[j] !in LineBoundaries
  }

  /** On text whose only breaks are "\n" and that does not end in one,
      `splitlines` is the split on "\n". */
  lemma {:induction false} SplitLinesIsSplit(s: string)
    requires s != [] && s[|s| - 1] != '\n'
    requires OnlyNewlineBreaks(s)
    ensures SplitLines(s) == Text.Split(s, '\n')
    decreases |s|
  {
    var i := BoundaryIndex(s);
    FirstBreakIsNewline(s);
    var c := Text.IndexOf(s, '\n');
    assert i == c;
    if c < |s| {
      var rest := s[i + 1..];
      assert s[c] == '\n';
      SplitLinesAtNewline(s);
      assert Text.Split(s, '\n') == [s[..i]] + Text.Split(rest, '\n');
      assert rest != [] && rest[|rest| - 1] == s[|s| - 1];
      assert OnlyNewlineBreaks(rest) by {
        assert forall j :: 0 <= j < |rest| ==> rest[j] == s[i + 1 + j];
      }
      SplitLinesIsSplit(rest);
      assert SplitLines(s) == [s[..i]] + Text.Split(rest, '\n');
    } else {
      assert SplitLines(s) == [s];
      assert Text.Split(s, '\n') == [s];
    }
  }

  /** Where "\n" is the only break, the first break is the first "\n". */
  lemma FirstBreakIsNewline(s: string)
    requires OnlyNewlineBreaks(s)
    ensures BoundaryIndex(s) == Text.IndexOf(s, '\n')
  {
    var i, c := BoundaryIndex(s), Text.IndexOf(s, '\n');
    if c < |s| {
      assert s[c] in LineBoundaries;
    }
    if i < |s| {
      assert s[i] == '\n';
    }
  }

  /** Text with "\n" breaks only, no trailing break and no line over the
      limit comes back from modern-1 unchanged. */
  lemma Modern1KeepsShortText(text: string)
    requires text != [] && text[|text| - 1] != '\n'
    requires OnlyNewlineBreaks(text)
    requires forall k :: 0 <= k < |SplitLines(text)| ==> |Strip(SplitLines(text)[k])| <= MaxLine
    ensures Modern1(text) == text
  {
    SplitLinesIsSplit(text);
    var lines := SplitLines(text);
    ShortLinesKept(lines);
    Text.JoinSplit(text, '\n');
  }

  /** A trailing empty line is lost: "a\n\n" has the lines "a" and "", and
      modern-1 turns it into "a\n", which has the single line "a". */
  lemma Modern1DropsTrailingBlankLine()
    ensures SplitLines("a\n\n") == ["a", ""]
    ensures Modern1("a\n\n") == "a\n"
    ensures SplitLines("a\n") == ["a"]
  {
    TrailingBlankLineKept();
    TrailingBreakAddsNoLine();
    var lines := ["a", ""];
    assert SplitLines("a\n\n") == lines;
    assert |Strip(lines[0])| <= 1 && |Strip(lines[1])| == 0;
    ShortLinesKept(lines);
    assert Text.Join(lines, '\n') == "a\n";
    assert Modern1("a\n\n") == Text.Join(ShortenAll(lines), '\n');
  }

  // modern-2: a line break before each section keyword

  const Keywords := ["Summary", "Skills", "Experience", "Projects", "Education"]

  /** The keyword the regular expression's alternation matches at the start
      of `s`, trying the alternatives in order. */
  function KeywordAt(s: string): (r: Option<string>)
    ensures r.Some? ==> r.value in Keywords && Text.StartsWith(s, r.value)
    ensures r.None? ==> forall k :: k in Keywords ==> !Text.StartsWith(s, k)
  {
    if Text.StartsWith(s, "Summary") then Some("Summary")
    else if Text.StartsWith(s, "Skills") then Some("Skills")
    else if Text.StartsWith(s, "Experience") then Some("Experience")
    else if Text.StartsWith(s, "Projects") then Some("Projects")
    else if Text.StartsWith(s, "Education") then Some("Education")
    else None
  }

  /** `re.sub(r"(Summary|...|Education)", r"\n\1", text)`: the text is scanned
      left to right and a "\n" is put before each match. */
  function InsertBreaks(s: string): string
    decreases |s|
  {
    if s == [] then []
    else
      match KeywordAt(s)
      case Some(k) => "\n" + k + InsertBreaks(s[|k|..])
      case None => [s[0]] + InsertBreaks(s[1..])
  }

  /** Number of indices of `s` at which a keyword starts. */
  function KeywordStarts(s: string): nat
    decreases |s|
  {
    if s == [] then 0
    else (if KeywordAt(s).Some? then 1 else 0) + KeywordStarts(s[1..])
  }

  /** Every keyword is a capital letter followed by lower-case letters. */
  lemma KeywordShape(k: string)
    requires k in Keywords
    ensures |k| >= 1 && 'A' <= k[0] <= 'Z'
    ensures forall j :: 1 <= j < |k| ==> 'a' <= k[j] <= 'z'
    ensures '\n' !in k
  {
  }

  lemma LowerNoKeyword(s: string)
    requires s != [] && 'a' <= s[0] <= 'z'
    ensures KeywordAt(s).None?
  {
    forall k | k in Keywords
      ensures !Text.StartsWith(s, k)
    {
      KeywordShape(k);
    }
  }

  /** No keyword starts at a lower-case letter, so none starts inside another. */
  lemma {:induction false} SkipLower(s: string, n: nat)
    requires n <= |s|
    requires forall j :: 0 <= j < n ==> 'a' <= s[j] <= 'z'
    ensures KeywordStarts(s) == KeywordStarts(s[n..])
    decreases n
  {
    if n > 0 {
      LowerNoKeyword(s);
      assert s[1..][n - 1..] == s[n..];
      SkipLower(s[1..], n - 1);
    }
  }

  /** Matches never overlap, so modern-2 grows the text by exactly one
      character per keyword occurrence. */
  lemma {:induction false} InsertBreaksLength(s: string)
    ensures |InsertBreaks(s)| == |s| + KeywordStarts(s)
    decreases |s|
  {
    if s != [] {
      InsertBreaksStep(s);
      assert KeywordStarts(s) == (if KeywordAt(s).Some? then 1 else 0) + KeywordStarts(s[1..]);
      match KeywordAt(s)
      case Some(k) =>
        LowerAfterCapital(s, k);
        SkipLower(s[1..], |k| - 1);
        InsertBreaksLength(s[|k|..]);
      case None =>
        InsertBreaksLength(s[1..]);
    }
  }

  /** After a keyword's capital come only lower-case letters up to its end. */
  lemma LowerAfterCapital(s: string, k: string)
    requires k in Keywords && Text.StartsWith(s, k)
    ensures 1 <= |k| <= |s|
    ensures forall j :: 0 <= j < |k| - 1 ==> 'a' <= s[1..][j] <= 'z'
    ensures s[1..][|k| - 1..] == s[|k|..]
  {
    KeywordShape(k);
    assert s[..|k|] == k;
    forall j | 0 <= j < |k| - 1
      ensures 'a' <= s[1..][j] <= 'z'
    {
      assert s[1..][j] == k[j + 1];
    }
  }

  function RemoveNewlines(s: string): (r: string)
    ensures '\n' !in r
    ensures |r| <= |s|
  {
    if s == [] then [] else (if s[0] == '\n' then [] else [s[0]]) + RemoveNewlines(s[1..])
  }

  lemma {:induction false} RemoveNewlinesAppend(a: string, b: string)
    ensures RemoveNewlines(a + b) == RemoveNewlines(a) + RemoveNewlines(b)
    decreases |a|
  {
    if a == [] {
      assert a + b == b;
    } else {
      var h := if a[0] == '\n' then [] else [a[0]];
      var ab := a + b;
      assert ab[0] == a[0] && ab[1..] == a[1..] + b;
      assert RemoveNewlines(ab) == h + RemoveNewlines(a[1..] + b);
      RemoveNewlinesAppend(a[1..], b);
      assert h + (RemoveNewlines(a[1..]) + RemoveNewlines(b)) == (h + RemoveNewlines(a[1..])) + RemoveNewlines(b);
    }
  }

  lemma {:induction false} RemoveNewlinesFree(s: string)
    requires '\n' !in s
    ensures RemoveNewlines(s) == s
    decreases |s|
  {
    if s != [] {
      RemoveNewlinesFree(s[1..]);
    }
  }

  /** Modern-2 only adds line breaks: without its "\n"s the output is the
      input without its "\n"s. */
  lemma {:induction false} InsertBreaksOnlyAddsNewlines(s: string)
    ensures RemoveNewlines(InsertBreaks(s)) == RemoveNewlines(s)
    decreases |s|
  {
    if s != [] {
      InsertBreaksStep(s);
      match KeywordAt(s)
      case Some(k) =>
        var rest := s[|k|..];
        InsertBreaksOnlyAddsNewlines(rest);
        BreakBeforeKeyword(k, rest, InsertBreaks(rest));
      case None =>
        var rest := s[1..];
        InsertBreaksOnlyAddsNewlines(rest);
        RemoveNewlinesAppend([s[0]], InsertBreaks(rest));
        RemoveNewlinesAppend([s[0]], rest);
    }
  }

  /** One step of the scan: a keyword at the front gets its break, any other
      character is copied. */
  lemma InsertBreaksStep(s: string)
    requires s != []
    ensures KeywordAt(s).Some? ==>
              var k := KeywordAt(s).value;
              && '\n' !in k && |k| <= |s| && s == k + s[|k|..]
              && InsertBreaks(s) == ("\n" + k) + InsertBreaks(s[|k|..])
    ensures KeywordAt(s).None? ==> s == [s[0]] + s[1..] && InsertBreaks(s) == [s[0]] + InsertBreaks(s[1..])
  {
    if KeywordAt(s).Some? {
      var k := KeywordAt(s).value;
      KeywordShape(k);
      assert s[..|k|] == k;
    }
  }

  lemma BreakBeforeKeyword(k: string, rest: string, out: string)
    requires '\n' !in k
    requires RemoveNewlines(out) == RemoveNewlines(rest)
    ensures RemoveNewlines(("\n" + k) + out) == RemoveNewlines(k + rest)
  {
    RemoveNewlinesFree(k);
    assert RemoveNewlines("\n") == [];
    RemoveNewlinesAppend("\n", k);
    assert RemoveNewlines("\n" + k) == k;
    RemoveNewlinesAppend("\n" + k, out);
    assert RemoveNewlines(("\n" + k) + out) == k + RemoveNewlines(rest);
    RemoveNewlinesAppend(k, rest);
  }

  /** Text without any keyword passes modern-2 unchanged. */
  lemma {:induction false} InsertBreaksNoKeyword(s: string)
    requires KeywordStarts(s) == 0
    ensures InsertBreaks(s) == s
    decreases |s|
  {
    if s != [] {
      InsertBreaksNoKeyword(s[1..]);
    }
  }

  /** Every "\n" of `out` is followed by a keyword. */
  predicate BreaksBeforeKeywords(out: string)
  {
    forall j :: 0 <= j < |out| && out[j] == '\n' ==> KeywordAt(out[j + 1..]).Some?
  }

  /** On text without line breaks of its own, every "\n" of the modern-2
      output stands right before a keyword; with InsertBreaksLength and
      InsertBreaksOnlyAddsNewlines this places each inserted break. */
  lemma {:induction false} InsertBreaksBeforeKeywords(s: string)
    requires '\n' !in s
    ensures BreaksBeforeKeywords(InsertBreaks(s))
    decreases |s|
  {
    if s != [] {
      InsertBreaksStep(s);
      if KeywordAt(s).Some? {
        var k := KeywordAt(s).value;
        NoNewlineSuffix(s, |k|);
        InsertBreaksBeforeKeywords(s[|k|..]);
        KeywordBreakPlaced(k, InsertBreaks(s[|k|..]));
      } else {
        NoNewlineSuffix(s, 1);
        InsertBreaksBeforeKeywords(s[1..]);
        BreaksAppend([s[0]], InsertBreaks(s[1..]));
      }
    }
  }

  lemma NoNewlineSuffix(s: string, n: nat)
    requires '\n' !in s && n <= |s|
    ensures '\n' !in s[n..]
  {
    assert forall j :: 0 <= j < |s[n..]| ==> s[n..][j] == s[n + j];
  }

  /** The break modern-2 writes before a keyword stands right before it. */
  lemma KeywordBreakPlaced(k: string, tail: string)
    requires k in Keywords && '\n' !in k && BreaksBeforeKeywords(tail)
    ensures BreaksBeforeKeywords(("\n" + k) + tail)
  {
    BreaksAppend(k, tail);
    assert Text.StartsWith(k + tail, k) by {
      assert (k + tail)[..|k|] == k;
    }
    BreakThenKeyword(k + tail);
    assert ("\n" + k) + tail == "\n" + (k + tail);
  }

  /** Text without breaks in front keeps the property of what follows. */
  lemma BreaksAppend(a: string, b: string)
    requires '\n' !in a && BreaksBeforeKeywords(b)
    ensures BreaksBeforeKeywords(a + b)
  {
    var ab := a + b;
    assert forall j :: 0 <= j < |a| ==> ab[j] == a[j];
    forall j | |a| <= j < |ab| && ab[j] == '\n'
      ensures KeywordAt(ab[j + 1..]).Some?
    {
      assert ab[j] == b[j - |a|];
      assert ab[j + 1..] == b[j - |a| + 1..];
    }
  }

  /** A "\n" put in front of a keyword. */
  lemma BreakThenKeyword(x: string)
    requires BreaksBeforeKeywords(x)
    requires exists k :: k in Keywords && Text.StartsWith(x, k)
    ensures BreaksBeforeKeywords("\n" + x)
  {
    var nx := "\n" + x;
    assert nx[1..] == x;
    forall j | 0 <= j < |nx| && nx[j] == '\n'
      ensures KeywordAt(nx[j + 1..]).Some?
    {
      if j > 0 {
        assert nx[j] == x[j - 1];
        assert nx[j + 1..] == x[j..];
      }
    }
  }

  // modern-3: bullets to "-", only ASCII, stripped

  /** The bullet characters the first substitution turns into "-". */
  const Bullets: set<char> := {
    '\U{2022}', '\U{25CF}', '\U{25AA}', '\U{25B6}', '\U{2714}', '\U{2713}', '\U{2726}', '\U{27A4}', '\U{2794}'
  }

  predicate IsAscii(c: char)
  {
    c as int <= 0x7F
  }

  function ReplaceBullets(s: string): (r: string)
    ensures |r| == |s|
    ensures forall j :: 0 <= j < |s| ==> r[j] == (if s[j] in Bullets then '-' else s[j])
  {
    if s == [] then [] else [if s[0] in Bullets then '-' else s[0]] + ReplaceBullets(s[1..])
  }

  /** `re.sub(r"[^\x00-\x7F]+", "", text)`: removing each run of non-ASCII
      characters is removing each non-ASCII character. */
  function DropNonAscii(s: string): (r: string)
    ensures |r| <= |s|
    ensures forall j :: 0 <= j < |r| ==> IsAscii(r[j])
    ensures (forall j :: 0 <= j < |s| ==> IsAscii(s[j])) ==> r == s
  {
    if s == [] then [] else (if IsAscii(s[0]) then [s[0]] else []) + DropNonAscii(s[1..])
  }

  /** The modern-3 rewrite. */
  function Modern3(text: string): string
  {
    Strip(DropNonAscii(ReplaceBullets(text)))
  }

  /** The two substitutions as one pass: each bullet becomes "-", each other
      ASCII character is kept, in order, and everything else goes. */
  function Sanitize(s: string): string
  {
    if s == [] then []
    else (if s[0] in Bullets then "-" else if IsAscii(s[0]) then [s[0]] else "") + Sanitize(s[1..])
  }

  lemma {:induction false} SubstitutionsAreSanitize(s: string)
    ensures DropNonAscii(ReplaceBullets(s)) == Sanitize(s)
    decreases |s|
  {
    if s != [] {
      var t := ReplaceBullets(s);
      assert t[1..] == ReplaceBullets(s[1..]);
      SubstitutionsAreSanitize(s[1..]);
    }
  }

  /** Modern-3 output is ASCII only and starts and ends with something other
      than whitespace. */
  lemma Modern3Shape(text: string)
    ensures forall j :: 0 <= j < |Modern3(text)| ==> IsAscii(Modern3(text)[j])
    ensures Modern3(text) == [] ||
            (Modern3(text)[0] !in PyWhitespace && Modern3(text)[|Modern3(text)| - 1] !in PyWhitespace)
  {
    var d := DropNonAscii(ReplaceBullets(text));
    Text.StripKeepsChars(d, PyWhitespace);
  }

  /** ASCII text holds no bullet, so the bullet substitution leaves it alone. */
  lemma ReplaceBulletsAscii(s: string)
    requires forall j :: 0 <= j < |s| ==> IsAscii(s[j])
    ensures ReplaceBullets(s) == s
  {
    assert forall c :: c in Bullets ==> !IsAscii(c);
    assert forall j :: 0 <= j < |s| ==> s[j] !in Bullets;
  }

  /** Applying modern-3 to its own output changes nothing. */
  lemma Modern3Idempotent(text: string)
    ensures Modern3(Modern3(text)) == Modern3(text)
  {
    var t := Modern3(text);
    Modern3Shape(text);
    ReplaceBulletsAscii(t);
    assert DropNonAscii(t) == t;
    Text.StripKeepsEdges(t, PyWhitespace);
  }

  /** The rewrite for a template key; other keys leave the text alone. */
  function Postprocessed(text: string, template: string): string
  {
    if template == "modern-1" then Modern1(text)
    else if template == "modern-2" then InsertBreaks(text)
    else if template == "modern-3" then Modern3(text)
    else text
  }

  /** The modern-1 loop of `_postprocess_resume`: each line whose stripped
      form is longer than the limit is cut to its first 200 characters and
      marked with "...". */
  method ShortenLines(lines: seq<string>) returns (shortLines: seq<string>)
    ensures shortLines == ShortenAll(lines)
  {
    shortLines := [];
    var i := 0;
    while i < |lines|
      invariant 0 <= i <= |lines|
      invariant shortLines == ShortenAll(lines[..i])
    {
      var line := lines[i];
      if |Strip(line)| > MaxLine {
        line := line[..MaxLine] + "...";
      }
      assert line == ShortenLine(lines[i]);
      MapSnoc(ShortenLine, lines, i);
      shortLines := shortLines + [line];
      i := i + 1;
    }
    assert lines[..i] == lines;
  }

  /** `_postprocess_resume`. */
  method PostprocessResume(text: string, template: string) returns (out: string)
    ensures out == Postprocessed(text, template)
  {
    if template == "modern-1" {
      var shortLines := ShortenLines(SplitLines(text));
      out := Text.Join(shortLines, '\n');
    } else if template == "modern-2" {
      out := InsertBreaks(text);
    } else if template == "modern-3" {
      out := Modern3(text);
    } else {
      out := text;
    }
  }

  /** The text `generate_resume` returns for the request's template and the
      model's raw text. */
  function Generate(template: Option<string>, llmText: string): string
  {
    Postprocessed(llmText, TemplateKey(template))
  }

  /** Any template gives what its key gives: capitalisation never changes the
      rewrite. */
  lemma GenerateIgnoresCase(template: string, llmText: string)
    ensures Generate(Some(template), llmText) == Generate(Some(TemplateKey(Some(template))), llmText)
  {
    TemplateKeyCanonical(Some(template));
  }

  /** A template whose key is none of the three returns the model's text as it is. */
  lemma GenerateUnknownTemplate(template: string, llmText: string)
    requires TemplateKey(Some(template)) !in {"modern-1", "modern-2", "modern-3"}
    ensures Generate(Some(template), llmText) == llmText
  {
  }

  /** A template spelt with any capitalisation of one of the three keys gets
      that key's rewrite. */
  lemma GenerateCaseVariant(template: string, key: string, llmText: string)
    requires key in {"modern-1", "modern-2", "modern-3"}
    requires |template| == |key| && forall i :: 0 <= i < |template| ==> Text.LowerChar(template[i]) == key[i]
    ensures Generate(Some(template), llmText) == Postprocessed(llmText, key)
  {
    LowerExample(template, key);
  }

  /** Without a template the modern-2 rewrite applies; the template is
      matched case-insensitively; an unknown template returns the raw text. */
  lemma GenerateTemplates(llmText: string)
    ensures Generate(None, llmText) == InsertBreaks(llmText)
    ensures Generate(Some("MODERN-3"), llmText) == Modern3(llmText)
    ensures Generate(Some("classic"), llmText) == llmText
  {
    TemplateKeyExamples();
    assert "modern-2" != "modern-1";
    assert "modern-3" != "modern-1" && "modern-3" != "modern-2";
    var other := TemplateKey(Some("classic"));
    assert other[0] == 'c';
  }
}
