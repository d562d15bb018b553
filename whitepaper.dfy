// The whitepaper processor (agent/dqda/data_collectors/whitepaper_processor.py):
// the document-type rule, the text cleaner, the line-based section tagger, the
// syllable counter, the writing-quality indicators, the startup relevance, and
// the processing and collection pipeline. Downloads, file reads and the
// PDF/HTML text extraction are oracle parameters.

module Whitepaper {
  import opened Values
  import opened Gathering

  // ---------------------------------------------------------- document type

  const Pdf := "pdf"
  const Txt := "txt"
  const Doc := "doc"
  const Html := "html"
  const UnknownType := "unknown"

  /** `_determine_document_type`: the URL's extension first, then the
    * content type, then any `http` URL is HTML. */
  function DocumentType(url: string, contentType: string): (r: string)
    ensures r == Pdf || r == Txt || r == Doc || r == Html || r == UnknownType
  {
    var u := Lower(url);
    var ct := Lower(contentType);
    if EndsWith(u, ".pdf") then Pdf
    else if EndsWith(u, ".txt") then Txt
    else if EndsWith(u, ".doc") || EndsWith(u, ".docx") then Doc
    else if Contains(ct, "pdf") then Pdf
    else if Contains(ct, "html") then Html
    else if Contains(ct, "text") then Txt
    else if Contains(u, "http") then Html
    else UnknownType
  }

  /** The URL's extension wins over the content type, and the type is unknown
    * exactly when no rule applies. */
  lemma DocumentTypeExtensionFirst(url: string, contentType: string)
    requires EndsWith(Lower(url), ".pdf")
    ensures DocumentType(url, contentType) == Pdf
  {
  }

  lemma DocumentTypeUnknown(url: string, contentType: string)
    ensures DocumentType(url, contentType) == UnknownType <==>
      (&& !EndsWith(Lower(url), ".pdf") && !EndsWith(Lower(url), ".txt")
       && !EndsWith(Lower(url), ".doc") && !EndsWith(Lower(url), ".docx")
       && !Contains(Lower(contentType), "pdf") && !Contains(Lower(contentType), "html")
       && !Contains(Lower(contentType), "text") && !Contains(Lower(url), "http"))
  {
  }

  const Example := "https://example.com"
  const PdfUrl := Example + "/document.pdf"
  const PdfContentType := "application/pdf"
  const HtmlUrl := Example + "/whitepaper"
  const HtmlContentType := "text/html"
  const TxtUrl := Example + "/paper.txt"
  const TxtContentType := "text/plain"

  /** The regression test's three documents. */
  lemma DocumentTypePdfSample()
    ensures DocumentType(PdfUrl, PdfContentType) == Pdf
  {
    LowerIdentity(PdfUrl);
    assert PdfUrl[|PdfUrl| - 4..] == ".pdf";
  }

  lemma DocumentTypeTxtSample()
    ensures DocumentType(TxtUrl, TxtContentType) == Txt
  {
    LowerIdentity(TxtUrl);
    assert TxtUrl[|TxtUrl| - 4..] == ".txt";
    assert TxtUrl[|TxtUrl| - 4..][3] != ".pdf"[3];
  }

  lemma DocumentTypeHtmlSample()
    ensures DocumentType(HtmlUrl, HtmlContentType) == Html
  {
    LowerIdentity(HtmlUrl);
    LowerIdentity(HtmlContentType);
    assert HtmlUrl[|HtmlUrl| - 1] == 'r';
    MissingCharNotContained(HtmlContentType, "pdf", 'p');
    assert OccursAt(HtmlContentType, "html", 5);
    HtmlByContentType(HtmlUrl, HtmlContentType);
  }

  /** A lower-case URL ending in `r` has none of the extensions, so an HTML
    * content type decides. */
  lemma HtmlByContentType(url: string, contentType: string)
    requires Lower(url) == url && Lower(contentType) == contentType
    requires |url| > 0 && url[|url| - 1] == 'r'
    requires !Contains(contentType, "pdf") && Contains(contentType, "html")
    ensures DocumentType(url, contentType) == Html
  {
    assert !EndsWith(url, ".pdf") && !EndsWith(url, ".txt") && !EndsWith(url, ".doc") && !EndsWith(url, ".docx");
  }

  // -------------------------------------------------------------- cleaning

  /** `re.sub(r'\s+', ' ', s)`: each run of whitespace becomes one space. */
  function CollapseWs(s: string): (r: string)
    ensures forall i :: 0 <= i < |r| && IsSpace(r[i]) ==> r[i] == ' '
    decreases |s|
  {
    if |s| == 0 then ""
    else if IsSpace(s[0]) then [' '] + CollapseWs(StripLeft(s[1..]))
    else [s[0]] + CollapseWs(s[1..])
  }

  /** Collapsing only brings in spaces: a property of every character of
    * `s` and of the space holds of every character of the result. */
  lemma {:induction false} CollapsePreserves(s: string, q: char -> bool)
    requires q(' ') && forall i :: 0 <= i < |s| ==> q(s[i])
    ensures forall i :: 0 <= i < |CollapseWs(s)| ==> q(CollapseWs(s)[i])
    decreases |s|
  {
    if |s| > 0 {
      var rest := s[1..];
      assert forall i :: 0 <= i < |rest| ==> q(rest[i]) by {
        forall i | 0 <= i < |rest| ensures q(rest[i]) {
          assert rest[i] == s[i + 1];
        }
      }
      if IsSpace(s[0]) {
        var t := StripLeft(rest);
        SuffixPreserves(rest, t, q);
        CollapsePreserves(t, q);
      } else {
        CollapsePreserves(rest, q);
      }
    }
  }

  lemma SuffixPreserves(s: string, t: string, q: char -> bool)
    requires |t| <= |s| && t == s[|s| - |t|..]
    requires forall i :: 0 <= i < |s| ==> q(s[i])
    ensures forall i :: 0 <= i < |t| ==> q(t[i])
  {
    forall i | 0 <= i < |t| ensures q(t[i]) {
      assert t[i] == s[|s| - |t| + i];
    }
  }

  /** The characters `_clean_text` keeps besides word characters and
    * whitespace. */
  const Punctuation: set<char> := {'.', ',', ';', ':', '!', '?', '-', '\'', '"', '(', ')', '[', ']', '{', '}'}

  predicate Allowed(c: char) {
    IsWordChar(c) || IsSpace(c) || c in Punctuation
  }

  /** The characters of `s` that satisfy `keep`, in order. */
  function KeepChars(s: string, keep: char -> bool): (r: string)
    ensures |r| <= |s|
    ensures forall i :: 0 <= i < |r| ==> keep(r[i])
    ensures (forall i :: 0 <= i < |s| ==> keep(s[i])) ==> r == s
  {
    if |s| == 0 then ""
    else if keep(s[0]) then [s[0]] + KeepChars(s[1..], keep)
    else KeepChars(s[1..], keep)
  }

  /** Dropping characters keeps any property every character has. */
  lemma {:induction false} KeepPreserves(s: string, keep: char -> bool, q: char -> bool)
    requires forall i :: 0 <= i < |s| ==> q(s[i])
    ensures forall i :: 0 <= i < |KeepChars(s, keep)| ==> q(KeepChars(s, keep)[i])
  {
    if |s| > 0 {
      assert forall i :: 0 <= i < |s[1..]| ==> s[1..][i] == s[i + 1];
      KeepPreserves(s[1..], keep, q);
    }
  }

  /** No whitespace other than the space. */
  predicate OnlySpaces(c: char) {
    IsSpace(c) ==> c == ' '
  }

  /** A character the cleaned text can hold. */
  predicate CleanChar(c: char) {
    Allowed(c) && OnlySpaces(c)
  }

  lemma PrefixPreserves(s: string, t: string, q: char -> bool)
    requires |t| <= |s| && t == s[..|t|]
    requires forall i :: 0 <= i < |s| ==> q(s[i])
    ensures forall i :: 0 <= i < |t| ==> q(t[i])
  {
    forall i | 0 <= i < |t| ensures q(t[i]) {
      assert t[i] == s[i];
    }
  }

  /** `_clean_text`: collapse whitespace, drop every character that is not a
    * word character, whitespace or listed punctuation, and strip. The third
    * substitution, of blank-line runs, finds no newline left to match. */
  function CleanText(text: string): (r: string)
    ensures |r| > 0 ==> !IsSpace(r[0]) && !IsSpace(r[|r| - 1])
    ensures forall i :: 0 <= i < |r| ==> Allowed(r[i]) && OnlySpaces(r[i])
  {
    var c := CollapseWs(text);
    var kept := KeepChars(c, Allowed);
    KeepPreserves(c, Allowed, OnlySpaces);
    var l := StripLeft(kept);
    SuffixPreserves(kept, l, CleanChar);
    var r := StripRight(l);
    PrefixPreserves(l, r, CleanChar);
    r
  }

  /** The cleaned text has no newline or tab, so no blank-line run. */
  lemma CleanTextNoLineBreaks(text: string)
    ensures forall i :: 0 <= i < |CleanText(text)| ==> CleanText(text)[i] != '\n' && CleanText(text)[i] != '\t'
  {
  }

  /** No two spaces side by side. */
  predicate SingleSpaced(s: string) {
    forall i :: 0 <= i < |s| - 1 ==> !(s[i] == ' ' && s[i + 1] == ' ')
  }

  lemma SingleSpacedSlice(s: string, a: nat, b: nat)
    requires SingleSpaced(s) && a <= b <= |s|
    ensures SingleSpaced(s[a..b])
  {
    var t := s[a..b];
    forall i | 0 <= i < |t| - 1 ensures !(t[i] == ' ' && t[i + 1] == ' ') {
      assert t[i] == s[a + i] && t[i + 1] == s[a + i + 1];
    }
  }

  /** The collapsed text never has two spaces side by side. */
  lemma {:induction false} CollapseSingleSpaced(s: string)
    ensures SingleSpaced(CollapseWs(s))
    ensures |CollapseWs(s)| > 0 ==> |s| > 0 && (CollapseWs(s)[0] == ' ' <==> IsSpace(s[0]))
    decreases |s|
  {
    if |s| > 0 {
      if IsSpace(s[0]) {
        var t := StripLeft(s[1..]);
        CollapseSingleSpaced(t);
      } else {
        CollapseSingleSpaced(s[1..]);
      }
    }
  }

  /** Stripping keeps a text single-spaced. */
  lemma StripSingleSpaced(s: string)
    requires SingleSpaced(s)
    ensures SingleSpaced(Strip(s))
  {
    var l := StripLeft(s);
    SingleSpacedSlice(s, |s| - |l|, |s|);
    SingleSpacedSlice(l, 0, |StripRight(l)|);
  }

  /** When every character is one the cleaner keeps, no two spaces end up
    * side by side. */
  lemma CleanTextSingleSpaces(text: string)
    requires forall i :: 0 <= i < |text| ==> Allowed(text[i])
    ensures SingleSpaced(CleanText(text))
  {
    var c := CollapseWs(text);
    CollapseSingleSpaced(text);
    CollapsePreserves(text, Allowed);
    assert KeepChars(c, Allowed) == c;
    StripSingleSpaced(c);
  }

  /** Text already single-spaced, with no whitespace but spaces, collapses
    * to itself. */
  lemma {:induction false} CollapseIdentity(s: string)
    requires SingleSpaced(s) && forall i :: 0 <= i < |s| && IsSpace(s[i]) ==> s[i] == ' '
    ensures CollapseWs(s) == s
  {
    if |s| > 0 {
      assert SingleSpaced(s[1..]) by { SingleSpacedSlice(s, 1, |s|); }
      CollapseIdentity(s[1..]);
      if IsSpace(s[0]) {
        assert |s| > 1 ==> !IsSpace(s[1]);
        assert StripLeft(s[1..]) == s[1..];
      }
    }
  }

  lemma KeepDropMiddle(a: char, x: char, b: char)
    requires Allowed(a) && Allowed(b) && !Allowed(x)
    ensures KeepChars([a, ' ', x, ' ', b], Allowed) == [a, ' ', ' ', b]
  {
    var s := [a, ' ', x, ' ', b];
    assert KeepChars(s[4..], Allowed) == [b];
    assert KeepChars(s[3..], Allowed) == [' ', b];
    assert KeepChars(s[2..], Allowed) == [' ', b];
  }

  /** Cleaning `a x b`, where `x` is a character the cleaner drops, leaves
    * two spaces between `a` and `b`. */
  lemma CleanTextDropBetween(a: char, x: char, b: char)
    requires IsWordChar(a) && IsWordChar(b) && !Allowed(x)
    ensures CleanText([a, ' ', x, ' ', b]) == [a, ' ', ' ', b]
  {
    var s := [a, ' ', x, ' ', b];
    assert SingleSpaced(s);
    CollapseIdentity(s);
    KeepDropMiddle(a, x, b);
    StripNoEdges([a, ' ', ' ', b]);
  }

  /** A text without whitespace at either end strips to itself. */
  lemma StripNoEdges(k: string)
    requires |k| > 0 && !IsSpace(k[0]) && !IsSpace(k[|k| - 1])
    ensures Strip(k) == k
  {
    assert StripLeft(k) == k;
  }

  const DoubleSpaceInput := "a @ b"
  const DoubleSpaceOutput := "a  b"

  /** So a dropped character can leave two spaces together, since whitespace
    * is collapsed before the drop, and cleaning is not idempotent: a second
    * pass joins them. */
  lemma CleanTextDoubleSpaceSample()
    ensures CleanText(DoubleSpaceInput) == DoubleSpaceOutput
    ensures CleanText(CleanText(DoubleSpaceInput)) != CleanText(DoubleSpaceInput)
  {
    assert DoubleSpaceInput == ['a', ' ', '@', ' ', 'b'];
    assert DoubleSpaceOutput == ['a', ' ', ' ', 'b'];
    assert IsWordChar('a') && IsWordChar('b') && !Allowed('@');
    CleanTextDropBetween('a', '@', 'b');
    var once := DoubleSpaceOutput;
    assert forall i :: 0 <= i < |once| ==> Allowed(once[i]);
    CleanTextSingleSpaces(once);
    assert !SingleSpaced(once) by {
      assert once[1] == ' ' && once[2] == ' ';
    }
  }

  // -------------------------------------------------------------- sections

  /** The characters the section-name substitution keeps: `[a-z0-9]`. */
  predicate IsKeyChar(c: char) {
    IsLowerLetter(c) || IsDigit(c)
  }

  /** `re.sub(r'[^a-z0-9]', '_', s)`. */
  function SectionKey(s: string): (r: string)
    ensures |r| == |s|
    ensures forall i :: 0 <= i < |r| ==> IsKeyChar(r[i]) || r[i] == '_'
    ensures forall i :: 0 <= i < |s| && IsKeyChar(s[i]) ==> r[i] == s[i]
  {
    seq(|s|, i requires 0 <= i < |s| => if IsKeyChar(s[i]) then s[i] else '_')
  }

  predicate IsHash(c: char) {
    c == '#'
  }

  /** The characters stripped from a Markdown header's name. */
  const HashOrSpace: set<char> := {'#', ' '}

  /** `re.match(r'^#+\s+(.+?)$', line)` on a line without a newline: one or
    * more '#', whitespace, then at least one more character. */
  predicate MarkdownHeader(line: string) {
    var k := RunEnd(line, 0, IsHash);
    1 <= k && k + 1 < |line| && IsSpace(line[k])
  }

  /** `re.match(r'^\d+\.?\s+[^.]+$', line)`: digits, an optional dot,
    * whitespace, then at least one more character and no dot to the end. */
  predicate NumberedHeader(line: string) {
    var d := RunEnd(line, 0, IsDigit);
    1 <= d < |line| &&
    var p := if line[d] == '.' then d + 1 else d;
    p + 1 < |line| && IsSpace(line[p]) && forall j :: p < j < |line| ==> line[j] != '.'
  }

  /** `len(line) < 50 and line.isupper() and len(line.split()) < 8`. */
  predicate CapsHeader(line: string) {
    && |line| < 50
    && (exists i :: 0 <= i < |line| && IsUpperLetter(line[i]))
    && (forall i :: 0 <= i < |line| ==> !IsLowerLetter(line[i]))
    && |SplitWs(line)| < 8
  }

  /** The section a header line opens, tried in the order markdown, numbered,
    * all caps; `None` for a content line. */
  function HeaderName(line: string): (r: Option<string>)
    ensures r.Some? <==> MarkdownHeader(line) || NumberedHeader(line) || CapsHeader(line)
    ensures r.Some? ==> forall i :: 0 <= i < |r.value| ==> IsKeyChar(r.value[i]) || r.value[i] == '_'
  {
    if MarkdownHeader(line) then Some(SectionKey(StripChars(Lower(line), HashOrSpace)))
    else if NumberedHeader(line) || CapsHeader(line) then Some(SectionKey(Lower(line)))
    else None
  }

  /** What the loop makes of one line. */
  datatype Line = Blank | Header(name: string) | Content(text: string)

  /** Strip the line; an empty line is skipped, a header opens a section,
    * anything else is content. */
  function Classify(raw: string): (r: Line)
    ensures r.Content? ==> r.text != "" && HeaderName(r.text).None?
    ensures r.Header? ==> forall i :: 0 <= i < |r.name| ==> IsKeyChar(r.name[i]) || r.name[i] == '_'
  {
    var line := Strip(raw);
    if line == "" then Blank
    else match HeaderName(line)
      case Some(n) => Header(n)
      case None => Content(line)
  }

  function ClassifyAll(lines: seq<string>): (r: seq<Line>)
    ensures |r| == |lines|
    ensures forall i :: 0 <= i < |lines| ==> r[i] == Classify(lines[i])
  {
    seq(|lines|, i requires 0 <= i < |lines| => Classify(lines[i]))
  }

  /** The loop state of `_identify_sections`: the sections so far, the
    * current section's name and its content lines. */
  datatype Tagger = Tagger(sections: map<string, string>, current: string, content: seq<string>)

  const Introduction := "introduction"
  const Start := Tagger(map[], Introduction, [])

  /** The current section is written only when it has content. */
  function Save(t: Tagger): map<string, string> {
    if |t.content| > 0 then t.sections[t.current := Join(t.content, " ")] else t.sections
  }

  /** One line of the loop: blank lines are skipped, a header saves the
    * current section and opens a new one, content is appended. */
  function Step(t: Tagger, line: Line): Tagger {
    match line
    case Blank => t
    case Header(n) => Tagger(Save(t), n, [])
    case Content(c) => t.(content := t.content + [c])
  }

  function Fold(ls: seq<Line>): Tagger
    decreases |ls|
  {
    if |ls| == 0 then Start else Step(Fold(ls[..|ls| - 1]), ls[|ls| - 1])
  }

  /** `_identify_sections`. */
  function Sections(text: string): map<string, string> {
    Save(Fold(ClassifyAll(SplitOn(text, '\n'))))
  }

  lemma FoldSnoc(ls: seq<Line>, line: Line)
    ensures Fold(ls + [line]) == Step(Fold(ls), line)
  {
    assert (ls + [line])[..|ls|] == ls;
  }

  lemma ClassifyPrefix(lines: seq<string>, i: nat)
    requires i < |lines|
    ensures ClassifyAll(lines[..i + 1]) == ClassifyAll(lines[..i]) + [Classify(lines[i])]
  {
    assert lines[..i + 1][..i] == lines[..i];
    assert lines[..i + 1][i] == lines[i];
  }

  /** One pass of the loop body, on the three loop variables. */
  method TagLine(sections: map<string, string>, current: string, content: seq<string>, raw: string)
    returns (sections': map<string, string>, current': string, content': seq<string>)
    ensures Tagger(sections', current', content') == Step(Tagger(sections, current, content), Classify(raw))
  {
    sections', current', content' := sections, current, content;
    var line := Strip(raw);
    if line == "" {
      return;
    }
    var isHeader := false;
    if MarkdownHeader(line) {
      if |content| > 0 {
        sections' := sections[current := Join(content, " ")];
      }
      current' := SectionKey(StripChars(Lower(line), HashOrSpace));
      content' := [];
      isHeader := true;
    } else if NumberedHeader(line) {
      if |content| > 0 {
        sections' := sections[current := Join(content, " ")];
      }
      current' := SectionKey(Lower(line));
      content' := [];
      isHeader := true;
    } else if CapsHeader(line) {
      if |content| > 0 {
        sections' := sections[current := Join(content, " ")];
      }
      current' := SectionKey(Lower(line));
      content' := [];
      isHeader := true;
    }
    if !isHeader {
      content' := content + [line];
    }
  }

  /** The loop of `_identify_sections` over its lines. */
  method TagLines(lines: seq<string>) returns (sections: map<string, string>, current: string, content: seq<string>)
    ensures Tagger(sections, current, content) == Fold(ClassifyAll(lines))
  {
    sections := map[];
    current := Introduction;
    content := [];
    var i := 0;
    while i < |lines|
      invariant 0 <= i <= |lines|
      invariant Tagger(sections, current, content) == Fold(ClassifyAll(lines[..i]))
    {
      ClassifyPrefix(lines, i);
      FoldSnoc(ClassifyAll(lines[..i]), Classify(lines[i]));
      sections, current, content := TagLine(sections, current, content, lines[i]);
      i := i + 1;
    }
    assert lines[..|lines|] == lines;
  }

  /** `_identify_sections`: the line loop, then the last section is saved. */
  method IdentifySections(text: string) returns (sections: map<string, string>)
    ensures sections == Sections(text)
  {
    var current, content;
    sections, current, content := TagLines(SplitOn(text, '\n'));
    if |content| > 0 {
      sections := sections[current := Join(content, " ")];
    }
  }

  // ------------------------------------------------------ section properties

  /** `k` is the introduction or the name of one of the header lines. */
  predicate Named(ls: seq<Line>, k: string) {
    k == Introduction || exists i :: 0 <= i < |ls| && ls[i] == Header(k)
  }

  /** What the loop keeps: recorded sections are non-empty and named by a
    * header (or are the introduction), and content lines are non-empty. */
  predicate Tagged(ls: seq<Line>, t: Tagger) {
    && (forall k :: k in t.sections ==> |t.sections[k]| > 0 && Named(ls, k))
    && Named(ls, t.current)
    && (forall j :: 0 <= j < |t.content| ==> |t.content[j]| > 0)
  }

  /** Lines that pass `Classify` have non-empty content. */
  predicate WellFormed(ls: seq<Line>) {
    forall i :: 0 <= i < |ls| && ls[i].Content? ==> ls[i].text != ""
  }

  lemma JoinNonEmpty(parts: seq<string>, sep: string)
    requires |parts| > 0 && |parts[0]| > 0
    ensures |Join(parts, sep)| > 0
  {
  }

  lemma {:induction false} FoldTagged(ls: seq<Line>)
    requires WellFormed(ls)
    ensures Tagged(ls, Fold(ls))
    decreases |ls|
  {
    if |ls| > 0 {
      var n := |ls| - 1;
      var prefix := ls[..n];
      var t := Fold(prefix);
      assert forall i :: 0 <= i < n ==> prefix[i] == ls[i];
      FoldTagged(prefix);
      assert forall k :: Named(prefix, k) ==> Named(ls, k);
      if |t.content| > 0 {
        JoinNonEmpty(t.content, " ");
      }
      if ls[n].Header? {
        assert Named(ls, ls[n].name);
      }
    }
  }

  /** Header names made of `[a-z0-9_]`. */
  predicate KeyNamed(ls: seq<Line>) {
    forall i :: 0 <= i < |ls| && ls[i].Header? ==>
      forall j :: 0 <= j < |ls[i].name| ==> IsKeyChar(ls[i].name[j]) || ls[i].name[j] == '_'
  }

  lemma Classified(lines: seq<string>)
    ensures WellFormed(ClassifyAll(lines)) && KeyNamed(ClassifyAll(lines))
  {
  }

  /** Every section is non-empty and is the introduction or a header's name. */
  lemma SectionsOfLinesNamed(ls: seq<Line>)
    requires WellFormed(ls)
    ensures forall k :: k in Save(Fold(ls)) ==> |Save(Fold(ls))[k]| > 0 && Named(ls, k)
  {
    FoldTagged(ls);
  }

  /** So every section of `_identify_sections` is non-empty and is the
    * introduction or the name a header line gives, made of `[a-z0-9_]`. */
  lemma SectionsNamed(text: string)
    ensures forall k :: k in Sections(text) ==>
      && |Sections(text)[k]| > 0
      && (k == Introduction || forall i :: 0 <= i < |k| ==> IsKeyChar(k[i]) || k[i] == '_')
  {
    var ls := ClassifyAll(SplitOn(text, '\n'));
    Classified(SplitOn(text, '\n'));
    SectionsOfLinesKeyed(ls, Save(Fold(ls)));
  }

  /** The same over the tagged lines, for the map the loop saves. */
  lemma SectionsOfLinesKeyed(ls: seq<Line>, saved: map<string, string>)
    requires WellFormed(ls) && KeyNamed(ls) && saved == Save(Fold(ls))
    ensures forall k :: k in saved ==>
      && |saved[k]| > 0
      && (k == Introduction || forall i :: 0 <= i < |k| ==> IsKeyChar(k[i]) || k[i] == '_')
  {
    SectionsOfLinesNamed(ls);
    forall k | k in saved && k != Introduction
      ensures forall i :: 0 <= i < |k| ==> IsKeyChar(k[i]) || k[i] == '_'
    {
      var j :| 0 <= j < |ls| && ls[j] == Header(k);
    }
  }

  /** A header straight after a header: the first one's section is not
    * recorded, since it has no content. */
  lemma HeaderThenHeader(ls: seq<Line>, i: nat)
    requires i + 2 <= |ls| && ls[i].Header? && ls[i + 1].Header?
    ensures Fold(ls[..i + 2]) == Tagger(Save(Fold(ls[..i])), ls[i + 1].name, [])
  {
    assert ls[..i + 1] == ls[..i] + [ls[i]];
    assert ls[..i + 2] == ls[..i + 1] + [ls[i + 1]];
    FoldSnoc(ls[..i], ls[i]);
    FoldSnoc(ls[..i + 1], ls[i + 1]);
  }

  /** The content lines, in order. */
  function Contents(ls: seq<Line>): (r: seq<string>)
    ensures |r| <= |ls|
    decreases |ls|
  {
    if |ls| == 0 then []
    else
      var last := ls[|ls| - 1];
      Contents(ls[..|ls| - 1]) + (if last.Content? then [last.text] else [])
  }

  lemma {:induction false} FoldNoHeaders(ls: seq<Line>)
    requires forall i :: 0 <= i < |ls| ==> !ls[i].Header?
    ensures Fold(ls) == Tagger(map[], Introduction, Contents(ls))
    decreases |ls|
  {
    if |ls| > 0 {
      var n := |ls| - 1;
      assert forall i :: 0 <= i < n ==> ls[..n][i] == ls[i];
      FoldNoHeaders(ls[..n]);
    }
  }

  /** Without headers, all content goes to the introduction, joined by single
    * spaces. */
  lemma IntroductionOnly(ls: seq<Line>)
    requires forall i :: 0 <= i < |ls| ==> !ls[i].Header?
    ensures Save(Fold(ls)) ==
      if |Contents(ls)| > 0 then map[Introduction := Join(Contents(ls), " ")] else map[]
  {
    FoldNoHeaders(ls);
  }

  /** Line `i` is a header and line `i + 1` is content. */
  predicate OpensWith(ls: seq<Line>, i: nat) {
    i + 2 <= |ls| && ls[i].Header? && ls[i + 1].Content?
  }

  /** A header followed by one content line records, at the next header or
    * the end, that line under the header's name over whatever was there. */
  lemma SavedAfterContent(ls: seq<Line>, i: nat)
    requires OpensWith(ls, i)
    ensures Save(Fold(ls[..i + 2])) == Save(Fold(ls[..i]))[ls[i].name := ls[i + 1].text]
  {
    assert ls[..i + 1] == ls[..i] + [ls[i]];
    assert ls[..i + 2] == ls[..i + 1] + [ls[i + 1]];
    FoldSnoc(ls[..i], ls[i]);
    FoldSnoc(ls[..i + 1], ls[i + 1]);
  }

  /** A repeated section name overwrites the earlier entry. */
  lemma RepeatedNameOverwrites(ls: seq<Line>, i: nat)
    requires OpensWith(ls, i) && OpensWith(ls, i + 2) && ls[i] == ls[i + 2]
    ensures Save(Fold(ls[..i + 4])) == Save(Fold(ls[..i]))[ls[i].name := ls[i + 3].text]
  {
    SavedAfterContent(ls, i);
    SavedAfterContent(ls, i + 2);
  }

  /** The sections that alternating header and content lines give: header
    * `k` (line `2k`) names the section and line `2k + 1` is its content. */
  function Alternating(ls: seq<Line>, n: nat): map<string, string>
    requires 2 * n <= |ls| && forall k :: 0 <= k < n ==> OpensWith(ls, 2 * k)
    decreases n
  {
    if n == 0 then map[]
    else
      assert OpensWith(ls, 2 * (n - 1));
      Alternating(ls, n - 1)[ls[2 * n - 2].name := ls[2 * n - 1].text]
  }

  /** Headers each followed by one content line: every header's section holds
    * its content line, a later header of the same name overwriting. */
  lemma {:induction false} AlternatingSections(ls: seq<Line>, n: nat)
    requires 2 * n <= |ls|
    requires forall k :: 0 <= k < n ==> OpensWith(ls, 2 * k)
    ensures Save(Fold(ls[..2 * n])) == Alternating(ls, n)
    decreases n
  {
    if n == 0 {
      assert ls[..0] == [];
    } else {
      AlternatingSections(ls, n - 1);
      assert OpensWith(ls, 2 * (n - 1));
      SavedAfterContent(ls, 2 * (n - 1));
    }
  }

  /** `s.split(sep)` of a text without `sep` is the text alone. */
  lemma {:induction false} SplitOnAbsent(s: string, sep: char)
    requires forall i :: 0 <= i < |s| ==> s[i] != sep
    ensures SplitOn(s, sep) == [s]
    decreases |s|
  {
    if |s| > 0 {
      SplitOnAbsent(s[1..], sep);
      assert [s[0]] + s[1..] == s;
    }
  }

  /** One line yields at most one section. */
  lemma OneLineOneSection(line: Line)
    ensures |Save(Fold([line]))| <= 1
  {
    assert [line] == [] + [line];
    FoldSnoc([], line);
  }

  /** The cleaned text the analysis hands to the tagger has no newline, so it
    * is one line, and at most one section comes out. */
  lemma CleanTextOneSection(text: string)
    ensures |Sections(CleanText(text))| <= 1
  {
    CleanTextNoLineBreaks(text);
    OneLineText(CleanText(text));
  }

  /** A text without newlines is one line. */
  lemma OneLineText(c: string)
    requires forall i :: 0 <= i < |c| ==> c[i] != '\n'
    ensures |Sections(c)| <= 1
  {
    assert ClassifyAll(SplitOn(c, '\n')) == [Classify(c)] by {
      SplitOnAbsent(c, '\n');
    }
    OneLineOneSection(Classify(c));
  }

  // ------------------------------------------------- the header rule itself

  /** A content line: no edge whitespace, no leading '#' or digit, and a
    * lowercase letter somewhere, so no header rule applies. */
  predicate PlainLine(c: string) {
    && |c| > 0 && !IsSpace(c[0]) && !IsSpace(c[|c| - 1])
    && c[0] != '#' && !IsDigit(c[0])
    && exists i :: 0 <= i < |c| && IsLowerLetter(c[i])
  }

  lemma PlainContent(c: string)
    requires PlainLine(c)
    ensures Classify(c) == Content(c)
  {
    StripNoEdges(c);
    assert HeaderName(c) == None;
  }

  /** `# Word` names the section by the lowercased word. */
  lemma MarkdownTitle(w: string)
    requires |w| > 0 && forall i :: 0 <= i < |w| ==> IsLetter(w[i])
    ensures Strip("# " + w) == "# " + w
    ensures HeaderName("# " + w) == Some(Lower(w))
  {
    HashLineStripped(w);
    HashSpaceHeader(w);
    LowerHashSpace(w);
    StripLowered(w);
    LettersAreKeys(w);
    MarkdownName("# " + w, Lower(w));
  }

  lemma HashLineStripped(w: string)
    requires |w| > 0 && !IsSpace(w[|w| - 1])
    ensures Strip("# " + w) == "# " + w
  {
    var line := "# " + w;
    assert line[0] == '#' && line[|line| - 1] == w[|w| - 1];
    StripNoEdges(line);
  }

  lemma StripLowered(w: string)
    requires |w| > 0 && forall i :: 0 <= i < |w| ==> IsLetter(w[i])
    ensures StripChars("# " + Lower(w), HashOrSpace) == Lower(w)
  {
    var lw := Lower(w);
    assert lw[0] == LowerChar(w[0]) && lw[|lw| - 1] == LowerChar(w[|w| - 1]);
    StripHashSpace(lw);
  }

  lemma LettersAreKeys(w: string)
    requires forall i :: 0 <= i < |w| ==> IsLetter(w[i])
    ensures SectionKey(Lower(w)) == Lower(w)
  {
    var lw := Lower(w);
    assert forall i :: 0 <= i < |lw| ==> IsKeyChar(lw[i]) by {
      forall i | 0 <= i < |lw| ensures IsKeyChar(lw[i]) {
        assert lw[i] == LowerChar(w[i]);
      }
    }
  }

  lemma HashSpaceHeader(w: string)
    requires |w| > 0
    ensures MarkdownHeader("# " + w)
  {
    var line := "# " + w;
    assert line[1] == ' ' && IsSpace(line[1]);
    assert RunEnd(line, 1, IsHash) == 1;
  }

  lemma LowerHashSpace(w: string)
    ensures Lower("# " + w) == "# " + Lower(w)
  {
    LowerAppend("# ", w);
    LowerIdentity("# ");
  }

  lemma StripHashSpace(s: string)
    requires |s| > 0 && s[0] !in HashOrSpace && s[|s| - 1] !in HashOrSpace
    ensures StripChars("# " + s, HashOrSpace) == s
  {
    var t := "# " + s;
    assert t[0] == '#' && t[1..] == " " + s;
    assert StripChars(t, HashOrSpace) == StripChars(" " + s, HashOrSpace);
    assert (" " + s)[0] == ' ' && (" " + s)[1..] == s;
    assert StripChars(" " + s, HashOrSpace) == StripChars(s, HashOrSpace);
  }

  lemma MarkdownName(line: string, name: string)
    requires MarkdownHeader(line)
    requires StripChars(Lower(line), HashOrSpace) == name && SectionKey(name) == name
    ensures HeaderName(line) == Some(name)
  {
  }

  const AbstractHeader := "# Abstract"
  const IntroductionHeader := "# Introduction"
  const MethodologyHeader := "# Methodology"
  const ResultsHeader := "# Results"
  const ConclusionHeader := "# Conclusion"

  /** A `# Word` line, checked character by character. */
  lemma TitleLine(line: string, name: string)
    requires |line| > 2 && line[0] == '#' && line[1] == ' '
    requires forall i :: 2 <= i < |line| ==> IsLetter(line[i])
    requires Lower(line[2..]) == name
    ensures Classify(line) == Header(name)
  {
    assert line == "# " + line[2..];
    MarkdownTitle(line[2..]);
  }

  lemma AbstractTitle(line: string)
    requires line == AbstractHeader
    ensures Classify(line) == Header("abstract")
  {
    assert line[2..] == "Abstract";
    TitleLine(line, "abstract");
  }

  lemma IntroductionTitle(line: string)
    requires line == IntroductionHeader
    ensures Classify(line) == Header("introduction")
  {
    assert line[2..] == "Introduction";
    TitleLine(line, "introduction");
  }

  lemma MethodologyTitle(line: string)
    requires line == MethodologyHeader
    ensures Classify(line) == Header("methodology")
  {
    assert line[2..] == "Methodology";
    TitleLine(line, "methodology");
  }

  lemma ResultsTitle(line: string)
    requires line == ResultsHeader
    ensures Classify(line) == Header("results")
  {
    assert line[2..] == "Results";
    TitleLine(line, "results");
  }

  lemma ConclusionTitle(line: string)
    requires line == ConclusionHeader
    ensures Classify(line) == Header("conclusion")
  {
    assert line[2..] == "Conclusion";
    TitleLine(line, "conclusion");
  }

  /** A blank line leaves the loop state as it was. */
  lemma BlankSkipped(ls: seq<Line>, i: nat)
    requires i < |ls| && ls[i].Blank?
    ensures Fold(ls[..i + 1]) == Fold(ls[..i])
  {
    assert ls[..i + 1] == ls[..i] + [ls[i]];
    FoldSnoc(ls[..i], ls[i]);
  }

  /** A header, a blank line, one content line and a blank line record that
    * line under the header's name, as a header directly followed by the
    * line does. */
  predicate SpacedAt(ls: seq<Line>, i: nat) {
    i + 4 <= |ls| && ls[i].Header? && ls[i + 1].Blank? && ls[i + 2].Content? && ls[i + 3].Blank?
  }

  lemma SavedAfterSpacedContent(ls: seq<Line>, i: nat)
    requires SpacedAt(ls, i)
    ensures Save(Fold(ls[..i + 4])) == Save(Fold(ls[..i]))[ls[i].name := ls[i + 2].text]
  {
    BlankSkipped(ls, i + 3);
    assert ls[..i + 3] == ls[..i + 2] + [ls[i + 2]];
    FoldSnoc(ls[..i + 2], ls[i + 2]);
    BlankSkipped(ls, i + 1);
    assert ls[..i + 1] == ls[..i] + [ls[i]];
    FoldSnoc(ls[..i], ls[i]);
  }

  /** Five spaced sections after an opening blank line: each header's
    * section holds the content line two below it. */
  lemma SpacedSections(ls: seq<Line>)
    requires |ls| == 21 && ls[0].Blank? && ls[20].Blank?
    requires SpacedAt(ls, 1) && SpacedAt(ls, 5) && SpacedAt(ls, 9) && SpacedAt(ls, 13) && SpacedAt(ls, 17)
    ensures Save(Fold(ls)) ==
      map[ls[1].name := ls[3].text][ls[5].name := ls[7].text][ls[9].name := ls[11].text]
         [ls[13].name := ls[15].text][ls[17].name := ls[19].text]
  {
    BlankSkipped(ls, 0);
    assert ls[..0] == [];
    SavedAfterSpacedContent(ls, 1);
    SavedAfterSpacedContent(ls, 5);
    SavedAfterSpacedContent(ls, 9);
    SavedAfterSpacedContent(ls, 13);
    SavedAfterSpacedContent(ls, 17);
    BlankSkipped(ls, 20);
    assert ls[..21] == ls;
  }

  /** A line whose stripped form is already stripped is read as that form. */
  lemma ClassifyStripped(raw: string, line: string)
    requires Strip(raw) == line && |line| > 0
    ensures Classify(raw) == Classify(line)
  {
    StripNoEdges(line);
  }

  /** Text lines that strip to a header, a blank line, a content line and a
    * blank line. */
  predicate SpacedText(lines: seq<string>, i: nat, header: string) {
    && i + 4 <= |lines| && Strip(lines[i]) == header && Strip(lines[i + 1]) == ""
    && PlainLine(Strip(lines[i + 2])) && Strip(lines[i + 3]) == ""
  }

  /** Such lines classify as a spaced section under the header's name. */
  lemma SpacedClassified(lines: seq<string>, i: nat, header: string, name: string)
    requires SpacedText(lines, i, header) && Classify(header) == Header(name)
    ensures SpacedAt(ClassifyAll(lines), i)
    ensures ClassifyAll(lines)[i] == Header(name)
    ensures ClassifyAll(lines)[i + 2] == Content(Strip(lines[i + 2]))
  {
    ClassifyStripped(lines[i], header);
    PlainContent(Strip(lines[i + 2]));
    ClassifyStripped(lines[i + 2], Strip(lines[i + 2]));
  }

  /** The regression test's document, line by line: an empty first line, then
    * five markdown headers, each followed by a blank line, a content line and
    * a blank line, all indented, and a last blank line. It gives the five
    * sections, each holding its stripped content line. */
  lemma TestSections(lines: seq<string>)
    requires |lines| == 21 && Strip(lines[0]) == "" && Strip(lines[20]) == ""
    requires SpacedText(lines, 1, AbstractHeader) && SpacedText(lines, 5, IntroductionHeader)
    requires SpacedText(lines, 9, MethodologyHeader) && SpacedText(lines, 13, ResultsHeader)
    requires SpacedText(lines, 17, ConclusionHeader)
    ensures Save(Fold(ClassifyAll(lines))) ==
      map["abstract" := Strip(lines[3]), "introduction" := Strip(lines[7]), "methodology" := Strip(lines[11]),
          "results" := Strip(lines[15]), "conclusion" := Strip(lines[19])]
  {
    AbstractTitle(AbstractHeader);
    IntroductionTitle(IntroductionHeader);
    MethodologyTitle(MethodologyHeader);
    ResultsTitle(ResultsHeader);
    ConclusionTitle(ConclusionHeader);
    SpacedClassified(lines, 1, AbstractHeader, "abstract");
    SpacedClassified(lines, 5, IntroductionHeader, "introduction");
    SpacedClassified(lines, 9, MethodologyHeader, "methodology");
    SpacedClassified(lines, 13, ResultsHeader, "results");
    SpacedClassified(lines, 17, ConclusionHeader, "conclusion");
    SpacedSections(ClassifyAll(lines));
  }

  // ------------------------------------------------------------- syllables

  predicate IsVowel(c: char) {
    c == 'a' || c == 'e' || c == 'i' || c == 'o' || c == 'u' || c == 'y'
  }

  predicate AllLetters(w: string) {
    forall j :: 0 <= j < |w| ==> IsLetter(w[j])
  }

  /** The runs among `ws` made of letters only, in order. */
  function LetterRuns(ws: seq<string>): (r: seq<string>)
    ensures |r| <= |ws|
    ensures forall k :: 0 <= k < |r| ==> AllLetters(r[k]) && r[k] in ws
  {
    if |ws| == 0 then []
    else if AllLetters(ws[0]) then [ws[0]] + LetterRuns(ws[1..])
    else LetterRuns(ws[1..])
  }

  /** `re.findall(r'\b[a-zA-Z]+\b', text.lower())`: the maximal runs of word
    * characters of the lowercased text that consist of letters only. */
  function LetterWords(text: string): (r: seq<string>)
    ensures forall k :: 0 <= k < |r| ==> |r[k]| > 0 && AllLetters(r[k])
  {
    LetterRuns(Runs(Lower(text), IsWordChar))
  }

  /** The syllables of one word: its vowel groups, one fewer for a final
    * silent 'e' when there is more than one group, and at least one. */
  function WordSyllables(w: string): (r: nat)
    ensures 1 <= r
    ensures |w| > 0 ==> r <= |w|
  {
    var v := |Runs(w, IsVowel)|;
    var adjusted := if EndsWith(w, "e") && v > 1 then v - 1 else v;
    if adjusted > 1 then adjusted else 1
  }

  /** The syllables of a word list, summed left to right. */
  function Syllables(words: seq<string>): nat {
    if |words| == 0 then 0
    else Syllables(words[..|words| - 1]) + WordSyllables(words[|words| - 1])
  }

  /** The total number of characters of a word list. */
  function Letters(words: seq<string>): nat {
    if |words| == 0 then 0 else Letters(words[..|words| - 1]) + |words[|words| - 1]|
  }

  /** `_count_syllables`. */
  method CountSyllables(text: string) returns (n: nat)
    ensures n == Syllables(LetterWords(text))
  {
    var words := LetterWords(text);
    n := 0;
    var i := 0;
    while i < |words|
      invariant 0 <= i <= |words|
      invariant n == Syllables(words[..i])
    {
      assert words[..i + 1][..i] == words[..i];
      var word := words[i];
      var vowels := |Runs(word, IsVowel)|;
      if EndsWith(word, "e") && vowels > 1 {
        vowels := vowels - 1;
      }
      n := n + (if vowels > 1 then vowels else 1);
      i := i + 1;
    }
    assert words[..i] == words;
  }

  /** Every word adds at least one syllable and at most one per letter. */
  lemma {:induction false} SyllableBounds(words: seq<string>)
    requires forall k :: 0 <= k < |words| ==> |words[k]| > 0
    ensures |words| <= Syllables(words) <= Letters(words)
  {
    if |words| > 0 {
      var init := words[..|words| - 1];
      assert forall k :: 0 <= k < |init| ==> init[k] == words[k];
      SyllableBounds(init);
    }
  }

  /** The syllable count of a text is at least its number of letter-only
    * words. */
  lemma SyllablesAtLeastWords(text: string)
    ensures |LetterWords(text)| <= Syllables(LetterWords(text))
  {
    SyllableBounds(LetterWords(text));
  }

  /** A final silent 'e' after another vowel group does not count, and a
    * word without vowels still has one syllable. */
  lemma SilentE(c: char, d: char)
    requires IsVowel(c) && !IsVowel(d)
    ensures WordSyllables([d, c, d, 'e']) == 1
  {
    var w := [d, c, d, 'e'];
    var e: string := ['e'];
    assert RunEnd(e, 1, IsVowel) == 1;
    assert RunEnd(e, 0, IsVowel) == 1;
    assert Runs(e[1..], IsVowel) == [];
    assert e[..1] == e;
    assert Runs(e, IsVowel) == [e];
    assert Runs([d] + e, IsVowel) == [e] by { assert ([d] + e)[1..] == e; }
    var t := [c, d, 'e'];
    assert RunEnd(t, 1, IsVowel) == 1;
    assert RunEnd(t, 0, IsVowel) == 1;
    assert t[1..] == [d] + e && t[..1] == [c];
    assert Runs(t, IsVowel) == [[c], e];
    assert w[1..] == t;
    assert |Runs(w, IsVowel)| == 2;
    assert EndsWith(w, "e") by { assert w[|w| - 1..] == "e"; }
  }

  // ------------------------------------------------------- writing quality

  const WordCountKey := "word_count"
  const SentenceCountKey := "sentence_count"
  const AvgWordsKey := "avg_words_per_sentence"
  const ReadingEaseKey := "reading_ease"
  const HasAbstractKey := "has_abstract"
  const HasReferencesKey := "has_references"
  const HasFiguresKey := "has_figures"
  const AcademicKey := "academic_language"

  /** The five indicators that are rates: each present one is a number in [0, 1]. */
  const RateKeys: set<string> := {ReadingEaseKey, HasAbstractKey, HasReferencesKey, AcademicKey, HasFiguresKey}

  predicate IsTerminal(c: char) { c == '.' || c == '!' || c == '?' }

  /** `len(re.split(r'[.!?]+', text))`: one piece more than there are runs
    * of sentence terminators. */
  function SentenceCount(text: string): nat {
    |Runs(text, IsTerminal)| + 1
  }

  /** The simplified Flesch reading ease, clamped to [0, 100] and scaled to
    * [0, 1]. The constants are taken as exact decimals. */
  function ReadingEase(words: nat, sentences: nat, syllables: nat): (r: real)
    requires words > 0 && sentences > 0
    ensures 0.0 <= r <= 1.0
  {
    var ease := 206.835 - 1.015 * (words as real / sentences as real) - 84.6 * (syllables as real / words as real);
    Max(0.0, Min(100.0, ease)) / 100.0
  }

  function Indicator(b: bool): real { if b then 1.0 else 0.0 }

  /** `re.search(r'(?i)abstract|summary', text[:500])`. */
  predicate HasAbstract(text: string) {
    var head := Lower(PySlice(text, 500));
    Contains(head, "abstract") || Contains(head, "summary")
  }

  /** `re.search(r'(?i)references|bibliography|citations?', text)`: the
    * optional plural adds nothing to "citation". */
  predicate HasReferences(text: string) {
    var l := Lower(text);
    Contains(l, "references") || Contains(l, "bibliography") || Contains(l, "citation")
  }

  predicate HasFigures(text: string) {
    var l := Lower(text);
    Contains(l, "figure") || Contains(l, "table") || Contains(l, "diagram")
  }

  const AcademicWords: seq<string> :=
    ["analysis", "methodology", "framework", "algorithm", "implementation",
     "evaluation", "performance", "optimization", "architecture", "design"]

  /** The indicators `_assess_writing_quality` returns. `readingEase` is
    * absent when the text has no words. */
  datatype Quality = Quality(
    wordCount: nat, sentenceCount: nat, avgWords: real, readingEase: Option<real>,
    hasAbstract: real, hasReferences: real, hasFigures: real, academic: real)

  /** Every rate is in [0, 1] and the structure indicators are 0 or 1. */
  predicate RatesInRange(q: Quality) {
    && (q.readingEase.Some? ==> 0.0 <= q.readingEase.value <= 1.0)
    && 0.0 <= q.academic <= 1.0
    && Flag(q.hasAbstract) && Flag(q.hasReferences) && Flag(q.hasFigures)
  }

  predicate Flag(x: real) {
    x == 0.0 || x == 1.0
  }

  /** The indicators from the counts and the structure tests. */
  function QualityOf(wc: nat, sc: nat, syllables: nat, hasAbstract: bool, hasReferences: bool,
                     hasFigures: bool, academicHits: nat): (q: Quality)
    requires sc >= 1
    ensures q.wordCount == wc && q.sentenceCount == sc
    ensures RatesInRange(q)
    ensures q.readingEase.Some? <==> wc > 0
    ensures q.hasAbstract == 1.0 <==> hasAbstract
    ensures q.hasReferences == 1.0 <==> hasReferences
    ensures q.hasFigures == 1.0 <==> hasFigures
    ensures q.avgWords * sc as real == wc as real
  {
    Quality(wc, sc, wc as real / (if sc > 1 then sc else 1) as real,
            if wc > 0 then Some(ReadingEase(wc, sc, syllables)) else None,
            Indicator(hasAbstract), Indicator(hasReferences), Indicator(hasFigures),
            Min(academicHits as real / 10.0, 1.0))
  }

  /** `_assess_writing_quality`. */
  function WritingQuality(text: string): (q: Quality)
    ensures q.sentenceCount >= 1
    ensures RatesInRange(q)
    ensures q.readingEase.Some? <==> |SplitWs(text)| > 0
    ensures q.hasAbstract == 1.0 <==> HasAbstract(text)
    ensures q.hasReferences == 1.0 <==> HasReferences(text)
    ensures q.hasFigures == 1.0 <==> HasFigures(text)
  {
    QualityOf(|SplitWs(text)|, SentenceCount(text), Syllables(LetterWords(text)),
              HasAbstract(text), HasReferences(text), HasFigures(text), Hits(Lower(text), AcademicWords))
  }

  /** The abstract is looked for in the first 500 characters only. */
  lemma AbstractInHead(head: string, tail: string)
    requires |head| >= 500
    ensures HasAbstract(head + tail) == HasAbstract(head)
  {
    assert PySlice(head + tail, 500) == PySlice(head, 500);
  }

  /** The writing-quality map of the record. */
  function QualityMap(q: Quality): map<string, Json> {
    var counts := map[WordCountKey := Num(q.wordCount as real), SentenceCountKey := Num(q.sentenceCount as real),
                      AvgWordsKey := Num(q.avgWords)];
    var withEase := if q.readingEase.Some? then counts[ReadingEaseKey := Num(q.readingEase.value)] else counts;
    withEase[HasAbstractKey := Num(q.hasAbstract)][HasReferencesKey := Num(q.hasReferences)]
            [HasFiguresKey := Num(q.hasFigures)][AcademicKey := Num(q.academic)]
  }

  /** Every rate in the record's map is a number in [0, 1], and reading ease
    * is there exactly when the indicators hold one. */
  lemma QualityMapRates(q: Quality)
    requires RatesInRange(q)
    ensures var m := QualityMap(q);
      forall k :: k in m && k in RateKeys ==> m[k].Num? && 0.0 <= m[k].n <= 1.0
    ensures ReadingEaseKey in QualityMap(q) <==> q.readingEase.Some?
  {
    assert |ReadingEaseKey| == 12 && |WordCountKey| == 10 && |SentenceCountKey| == 14 && |AvgWordsKey| == 22;
    assert ReadingEaseKey[0] != HasAbstractKey[0] && ReadingEaseKey[0] != HasReferencesKey[0];
    assert ReadingEaseKey[0] != HasFiguresKey[0] && ReadingEaseKey[0] != AcademicKey[0];
  }

  /** A text with no sentence terminator is one sentence. */
  lemma {:induction false} NoTerminatorOneSentence(text: string)
    requires forall i :: 0 <= i < |text| ==> !IsTerminal(text[i])
    ensures SentenceCount(text) == 1
  {
    NoRuns(text, IsTerminal);
  }

  lemma {:induction false} NoRuns(s: string, p: char -> bool)
    requires forall i :: 0 <= i < |s| ==> !p(s[i])
    ensures Runs(s, p) == []
    decreases |s|
  {
    if |s| > 0 {
      NoRuns(s[1..], p);
    }
  }

  // ------------------------------------------------------------- relevance

  const BusinessKeywords: seq<string> :=
    ["startup", "company", "business", "commercial", "enterprise",
     "market", "customers", "users", "revenue", "profit", "scalability",
     "implementation", "deployment", "production"]

  const TechnicalIndicators: seq<string> :=
    ["algorithm", "implementation", "optimization", "performance",
     "architecture", "framework", "system", "platform"]

  /** 0.5·min(n/3, 1) + 0.3·min(k/14, 1) + 0.2·min(t/8, 1), capped at 1. */
  function RelevanceScore(mentions: nat, business: nat, technical: nat): (r: real)
    ensures 0.0 <= r <= 1.0
  {
    var nameScore := Min(mentions as real / 3.0, 1.0);
    var keywordScore := Min(business as real / 14.0, 1.0);
    var technicalScore := Min(technical as real / 8.0, 1.0);
    Min(nameScore * 0.5 + keywordScore * 0.3 + technicalScore * 0.2, 1.0)
  }

  /** `_calculate_startup_relevance` as written: the name is searched
    * unchanged in the lowercased text. */
  function RelevanceAsWritten(text: string, name: string): (r: real)
    ensures 0.0 <= r <= 1.0
  {
    if name == "" then 0.5
    else
      var l := Lower(text);
      RelevanceScore(Count(l, name), Hits(l, BusinessKeywords), Hits(l, TechnicalIndicators))
  }

  /** The intended relevance: the name is lowercased like the text. */
  function Relevance(text: string, name: string): (r: real)
    ensures 0.0 <= r <= 1.0
  {
    if name == "" then 0.5
    else
      var l := Lower(text);
      RelevanceScore(Count(l, Lower(name)), Hits(l, BusinessKeywords), Hits(l, TechnicalIndicators))
  }

  /** More mentions never lower the score. */
  lemma ScoreMonotone(m1: nat, m2: nat, business: nat, technical: nat)
    requires m1 <= m2
    ensures RelevanceScore(m1, business, technical) <= RelevanceScore(m2, business, technical)
  {
  }

  /** The empty name is neutral, in both readings. */
  lemma EmptyNameNeutral(text: string)
    ensures RelevanceAsWritten(text, "") == 0.5 && Relevance(text, "") == 0.5
  {
  }

  /** Lowercased text holds no uppercase letter, so a name with one is never
    * found as written. */
  lemma CapitalisedNameNeverFound(text: string, name: string, i: nat)
    requires i < |name| && IsUpperLetter(name[i])
    ensures Count(Lower(text), name) == 0
  {
    MissingCharNotContained(Lower(text), name, name[i]);
    CountPositive(Lower(text), name);
  }

  /** As written, a capitalised name scores at most 0.5 whatever the text. */
  lemma CapitalisedNameCapped(text: string, name: string, i: nat)
    requires i < |name| && IsUpperLetter(name[i])
    ensures RelevanceAsWritten(text, name) <= 0.5
  {
    CapitalisedNameNeverFound(text, name, i);
  }

  /** The two readings agree on names without uppercase letters, and the
    * as-written score is never the higher one. */
  lemma RelevanceAgreesOnLowercase(text: string, name: string)
    requires forall i :: 0 <= i < |name| ==> !IsUpperLetter(name[i])
    ensures RelevanceAsWritten(text, name) == Relevance(text, name)
  {
    LowerIdentity(name);
  }

  lemma RelevanceAsWrittenAtMost(text: string, name: string)
    ensures RelevanceAsWritten(text, name) <= Relevance(text, name)
  {
    if name != "" {
      if i :| 0 <= i < |name| && IsUpperLetter(name[i]) {
        CapitalisedNameNeverFound(text, name, i);
        var l := Lower(text);
        ScoreMonotone(0, Count(l, Lower(name)), Hits(l, BusinessKeywords), Hits(l, TechnicalIndicators));
      } else {
        RelevanceAgreesOnLowercase(text, name);
      }
    }
  }

  /** The discrepancy: for a capitalised name that the lowercased text
    * mentions ("Acme" in "Acme"), the as-written score misses at least the
    * 1/6 that one mention is worth. */
  lemma CapitalisedMentionMissed(text: string, name: string, i: nat)
    requires i < |name| && IsUpperLetter(name[i])
    requires Contains(Lower(text), Lower(name))
    ensures RelevanceAsWritten(text, name) + 1.0 / 6.0 <= Relevance(text, name)
  {
    CapitalisedNameNeverFound(text, name, i);
    CountPositive(Lower(text), Lower(name));
  }

  // -------------------------------------------------------------- pipeline

  /** The document types `_extract_and_clean_text` has an extractor for. */
  predicate Supported(t: string) { t == Pdf || t == Html || t == Txt }

  /** The record's `collection_method`: "pdf_processing" for a download,
    * "local_pdf_processing" for a local file. */
  function CollectionMethod(prefix: string, docType: string): string { prefix + docType + "_processing" }

  const RawTextKey := "raw_text"
  /** The key every extractor stores the cleaned text under. */
  const CleanedTextKey := "cleaned_text"
  /** The key `_analyze_whitepaper_content` reads, as written. */
  const CleanTextKey := "clean_text"

  /** `_extract_and_clean_text`: `raw` is what the PDF, HTML or plain-text
    * extractor produced for the document, `None` when it failed. Other
    * document types are unsupported. */
  function ExtractAndClean(docType: string, raw: Option<string>): (r: Option<map<string, string>>)
    ensures r.Some? <==> Supported(docType) && raw.Some?
    ensures r.Some? ==> CleanedTextKey in r.value && r.value[CleanedTextKey] == CleanText(raw.value)
    ensures r.Some? ==> RawTextKey in r.value && r.value[RawTextKey] == raw.value
    ensures r.Some? ==> CleanTextKey !in r.value
  {
    if !Supported(docType) || raw.None? then None
    else
      Some(TextMap(raw.value, CleanText(raw.value)))
  }

  /** The extractors' result: the raw and the cleaned text under their keys. */
  function TextMap(raw: string, clean: string): (m: map<string, string>)
    ensures RawTextKey in m && m[RawTextKey] == raw
    ensures CleanedTextKey in m && m[CleanedTextKey] == clean
    ensures CleanTextKey !in m
  {
    assert |CleanTextKey| != |RawTextKey| && |CleanTextKey| != |CleanedTextKey| && |RawTextKey| != |CleanedTextKey|;
    map[RawTextKey := raw, CleanedTextKey := clean]
  }

  /** What `_analyze_whitepaper_content` returns. The technical terminology
    * and the key insights come from regex extractors that are parameters
    * here. */
  datatype Analysis = Analysis(
    cleanText: string, sections: map<string, string>, terminology: Json,
    quality: Quality, insights: Json, relevance: real)

  /** The analysis of a cleaned text: its sections, terminology, writing
    * quality, insights and relevance. `relevance` is the startup-relevance
    * rule: `RelevanceAsWritten` for the code as written, `Relevance` for the
    * corrected one. */
  function AnalyzeText(clean: string, name: string, terms: string -> Json,
                       insights: (string, Json) -> Json, relevance: (string, string) -> real): (a: Analysis)
    ensures a.cleanText == clean && a.quality == WritingQuality(clean)
    ensures a.sections == Sections(clean) && a.relevance == relevance(clean, name)
  {
    var terminology := terms(clean);
    Analysis(clean, Sections(clean), terminology, WritingQuality(clean),
             insights(clean, terminology), relevance(clean, name))
  }

  /** Under either relevance rule the analysis has its relevance in [0, 1];
    * the two analyses differ in nothing else, and the code as written never
    * scores higher than the corrected rule. */
  lemma AnalysisReadings(clean: string, name: string, terms: string -> Json, insights: (string, Json) -> Json)
    ensures var w := AnalyzeText(clean, name, terms, insights, RelevanceAsWritten);
      var c := AnalyzeText(clean, name, terms, insights, Relevance);
      && 0.0 <= w.relevance <= c.relevance <= 1.0
      && w == c.(relevance := w.relevance)
  {
    RelevanceAsWrittenAtMost(clean, name);
  }

  /** `_analyze_whitepaper_content`, reading the text under `key`; a missing
    * key raises `KeyError`, which the callers turn into `None`. */
  function Analyze(processed: map<string, string>, key: string, name: string,
                   terms: string -> Json, insights: (string, Json) -> Json, relevance: (string, string) -> real): (r: Option<Analysis>)
    ensures r.Some? <==> key in processed
    ensures r.Some? ==> r.value == AnalyzeText(processed[key], name, terms, insights, relevance)
  {
    if key !in processed then None
    else Some(AnalyzeText(processed[key], name, terms, insights, relevance))
  }

  const UrlKey := "url"
  const ContentKey := "content"
  const DocumentTypeKey := "document_type"
  const SectionsKey := "sections"
  const TerminologyKey := "technical_terminology"
  const WritingQualityKey := "writing_quality"
  const InsightsKey := "key_insights"
  const MethodKey := "collection_method"
  const StartupNameKey := "startup_name"
  const KeywordsKey := "search_keywords"

  /** The raw record of one processed whitepaper. */
  function Record(url: string, docType: string, a: Analysis, collection: string,
                  name: string, keywords: seq<string>): map<string, Json> {
    map[UrlKey := Str(url), SectionsKey := StrMap(a.sections), TerminologyKey := a.terminology,
        InsightsKey := a.insights, MethodKey := Str(collection), StartupNameKey := Str(name),
        KeywordsKey := StrList(keywords), DocumentTypeKey := Str(docType),
        ContentKey := Str(a.cleanText), WritingQualityKey := Obj(QualityMap(a.quality))]
  }

  /** The record carries the cleaned text, the document type and the
    * writing-quality map. */
  lemma RecordFields(url: string, docType: string, a: Analysis, collection: string,
                     name: string, keywords: seq<string>)
    ensures var r := Record(url, docType, a, collection, name, keywords);
      && r[WritingQualityKey] == Obj(QualityMap(a.quality))
      && r[ContentKey] == Str(a.cleanText)
      && r[DocumentTypeKey] == Str(docType)
  {
    assert |ContentKey| == 7 && |WritingQualityKey| == 15 && |DocumentTypeKey| == 13;
  }

  /** The steps `_process_whitepaper_url` and `_process_whitepaper_file`
    * share once the document type is known: the format check, the
    * extraction, the analysis and the record, whose collection method is
    * `prefix` + type + "_processing". */
  function ProcessDocument(key: string, recordUrl: string, docType: string, raw: Option<string>,
                           formats: seq<string>, name: string, keywords: seq<string>,
                           terms: string -> Json, insights: (string, Json) -> Json, relevance: (string, string) -> real,
                           prefix: string): Option<map<string, Json>> {
    if docType !in formats then None
    else
      var processed := ExtractAndClean(docType, raw);
      if processed.None? then None
      else
        var a := Analyze(processed.value, key, name, terms, insights, relevance);
        if a.None? then None
        else Some(Record(recordUrl, docType, a.value, CollectionMethod(prefix, docType), name, keywords))
  }

  /** `_process_whitepaper_url`. `contentType` is the downloaded document's
    * lowercased content type, `None` when the download failed or there is
    * no session; `raw` is the extractor's text. `key` is the key the
    * analysis reads. */
  function ProcessUrl(key: string, url: string, contentType: Option<string>, raw: Option<string>,
                      formats: seq<string>, name: string, keywords: seq<string>,
                      terms: string -> Json, insights: (string, Json) -> Json, relevance: (string, string) -> real): Option<map<string, Json>> {
    if contentType.None? then None
    else ProcessDocument(key, url, DocumentType(url, contentType.value), raw, formats, name, keywords,
                         terms, insights, relevance, "")
  }

  /** The document type of a local file, from its extension alone. */
  function FileDocumentType(path: string): (r: string)
    ensures r == Pdf || r == Txt || r == Html || r == UnknownType
    ensures r == Html <==> !EndsWith(Lower(path), ".pdf") && !EndsWith(Lower(path), ".txt") &&
                           (EndsWith(Lower(path), ".html") || EndsWith(Lower(path), ".htm"))
  {
    var p := Lower(path);
    if EndsWith(p, ".pdf") then Pdf
    else if EndsWith(p, ".txt") then Txt
    else if EndsWith(p, ".html") || EndsWith(p, ".htm") then Html
    else UnknownType
  }

  /** For .pdf and .txt names the file rule and the URL rule agree, whatever
    * the content type. */
  lemma FileTypeAgrees(path: string, contentType: string)
    requires EndsWith(Lower(path), ".pdf") || EndsWith(Lower(path), ".txt")
    ensures FileDocumentType(path) == DocumentType(path, contentType)
  {
  }

  /** `_process_whitepaper_file`. `absPath` is `os.path.abspath(path)`;
    * `raw` is the extractor's text, `None` when the file cannot be read or
    * the extraction failed. */
  function ProcessFile(key: string, path: string, absPath: string, raw: Option<string>,
                       formats: seq<string>, name: string, keywords: seq<string>,
                       terms: string -> Json, insights: (string, Json) -> Json, relevance: (string, string) -> real): Option<map<string, Json>> {
    ProcessDocument(key, "file://" + absPath, FileDocumentType(path), raw, formats, name, keywords,
                    terms, insights, relevance, "local_")
  }

  /** As written the analysis reads a key no extractor writes, so no
    * document yields a record, whatever its type. */
  lemma AsWrittenNoDocument(recordUrl: string, docType: string, raw: Option<string>, formats: seq<string>,
                            name: string, keywords: seq<string>,
                            terms: string -> Json, insights: (string, Json) -> Json, relevance: (string, string) -> real, prefix: string)
    ensures ProcessDocument(CleanTextKey, recordUrl, docType, raw, formats, name, keywords, terms, insights, relevance, prefix) == None
  {
  }

  /** Hence no URL and no file ever yields a record. */
  lemma AsWrittenNeverProcesses(url: string, path: string, absPath: string, contentType: Option<string>,
                                raw: Option<string>, formats: seq<string>, name: string, keywords: seq<string>,
                                terms: string -> Json, insights: (string, Json) -> Json, relevance: (string, string) -> real)
    ensures ProcessUrl(CleanTextKey, url, contentType, raw, formats, name, keywords, terms, insights, relevance) == None
    ensures ProcessFile(CleanTextKey, path, absPath, raw, formats, name, keywords, terms, insights, relevance) == None
  {
    if contentType.Some? {
      AsWrittenNoDocument(url, DocumentType(url, contentType.value), raw, formats, name, keywords, terms, insights, relevance, "");
    }
    AsWrittenNoDocument("file://" + absPath, FileDocumentType(path), raw, formats, name, keywords, terms, insights, relevance, "local_");
  }

  /** Reading the key the extractors write, a document of an accepted,
    * supported type whose text was extracted yields the record of the
    * cleaned text's analysis. */
  lemma DocumentSucceeds(recordUrl: string, docType: string, raw: string, formats: seq<string>,
                         name: string, keywords: seq<string>,
                         terms: string -> Json, insights: (string, Json) -> Json, relevance: (string, string) -> real, prefix: string)
    requires docType in formats && Supported(docType)
    ensures ProcessDocument(CleanedTextKey, recordUrl, docType, Some(raw), formats, name, keywords,
                            terms, insights, relevance, prefix)
         == Some(Record(recordUrl, docType, AnalyzeText(CleanText(raw), name, terms, insights, relevance),
                        CollectionMethod(prefix, docType), name, keywords))
  {
    var p := ExtractAndClean(docType, Some(raw));
    var a := AnalyzeText(CleanText(raw), name, terms, insights, relevance);
    assert p.Some? && CleanedTextKey in p.value && p.value[CleanedTextKey] == CleanText(raw);
    assert Analyze(p.value, CleanedTextKey, name, terms, insights, relevance) == Some(a);
    ProcessDocumentOf(CleanedTextKey, recordUrl, docType, Some(raw), formats, name, keywords, terms, insights, relevance, prefix, a);
  }

  lemma ProcessDocumentOf(key: string, recordUrl: string, docType: string, raw: Option<string>,
                          formats: seq<string>, name: string, keywords: seq<string>,
                          terms: string -> Json, insights: (string, Json) -> Json, relevance: (string, string) -> real,
                          prefix: string, a: Analysis)
    requires docType in formats && ExtractAndClean(docType, raw).Some?
    requires Analyze(ExtractAndClean(docType, raw).value, key, name, terms, insights, relevance) == Some(a)
    ensures ProcessDocument(key, recordUrl, docType, raw, formats, name, keywords, terms, insights, relevance, prefix)
         == Some(Record(recordUrl, docType, a, CollectionMethod(prefix, docType), name, keywords))
  {
  }

  lemma ProcessUrlSucceeds(url: string, contentType: string, raw: string, formats: seq<string>,
                           name: string, keywords: seq<string>,
                           terms: string -> Json, insights: (string, Json) -> Json, relevance: (string, string) -> real)
    requires DocumentType(url, contentType) in formats && Supported(DocumentType(url, contentType))
    ensures ProcessUrl(CleanedTextKey, url, Some(contentType), Some(raw), formats, name, keywords, terms, insights, relevance)
         == Some(Record(url, DocumentType(url, contentType), AnalyzeText(CleanText(raw), name, terms, insights, relevance),
                        CollectionMethod("", DocumentType(url, contentType)), name, keywords))
  {
    DocumentSucceeds(url, DocumentType(url, contentType), raw, formats, name, keywords, terms, insights, relevance, "");
  }

  /** The writing quality that reaches the record of a processed document
    * has every rate in [0, 1]. */
  lemma RecordQualityRates(recordUrl: string, docType: string, clean: string, collection: string,
                           name: string, keywords: seq<string>,
                           terms: string -> Json, insights: (string, Json) -> Json, relevance: (string, string) -> real)
    ensures var r := Record(recordUrl, docType, AnalyzeText(clean, name, terms, insights, relevance), collection, name, keywords);
      && r[WritingQualityKey].Obj?
      && forall k :: k in r[WritingQualityKey].fields && k in RateKeys ==>
           r[WritingQualityKey].fields[k].Num? && 0.0 <= r[WritingQualityKey].fields[k].n <= 1.0
  {
    var a := AnalyzeText(clean, name, terms, insights, relevance);
    RecordFields(recordUrl, docType, a, collection, name, keywords);
    QualityMapRates(a.quality);
  }

  /** A processed document's text is cleaned, so it has no line break and
    * its sections are at most one. */
  lemma ProcessedSectionsAtMostOne(processed: map<string, string>, docType: string, raw: Option<string>,
                                   name: string, terms: string -> Json, insights: (string, Json) -> Json, relevance: (string, string) -> real)
    requires ExtractAndClean(docType, raw) == Some(processed)
    ensures var a := Analyze(processed, CleanedTextKey, name, terms, insights, relevance);
      a.Some? && |a.value.sections| <= 1
  {
    CleanTextOneSection(raw.value);
  }

  // ------------------------------------------------------------ collection

  /** `_search_for_whitepapers`: a placeholder that finds nothing. */
  function SearchForWhitepapers(name: string, keywords: seq<string>, maxResults: int): seq<string> {
    []
  }

  type Rec = map<string, Json>

  /** `_collect_raw_data`: the local file's record first (`local` is `None`
    * when no path is given, the file is missing or its processing failed),
    * then the given URLs up to the cap, then the search results. */
  function CollectRaw(local: Option<Rec>, urls: seq<string>, process: string -> Option<Rec>,
                      name: string, keywords: seq<string>, maxResults: int): seq<Rec> {
    var fromFile := if local.Some? then [local.value] else [];
    var fromUrls := if |urls| > 0 && |fromFile| < maxResults
                    then Gather(fromFile, PySlice(urls, maxResults - |fromFile|), process, maxResults)
                    else fromFile;
    if |fromUrls| < maxResults
    then Gather(fromUrls, SearchForWhitepapers(name, keywords, maxResults - |fromUrls|), process, maxResults)
    else fromUrls
  }

  /** `_collect_raw_data`. */
  method CollectRawData(local: Option<Rec>, urls: seq<string>, process: string -> Option<Rec>,
                        name: string, keywords: seq<string>, maxResults: int)
    returns (results: seq<Rec>)
    ensures results == CollectRaw(local, urls, process, name, keywords, maxResults)
  {
    results := [];
    if local.Some? {
      results := results + [local.value];
      assert results == [local.value];
    }
    if |urls| > 0 && |results| < maxResults {
      results := GatherAll(results, PySlice(urls, maxResults - |results|), process, maxResults);
    }
    if |results| < maxResults {
      var searchUrls := SearchForWhitepapers(name, keywords, maxResults - |results|);
      results := GatherAll(results, searchUrls, process, maxResults);
    }
  }

  /** At most `maxResults` records, the local file's record first; with a
    * cap below one only the local record can be there. */
  lemma CollectCapped(local: Option<Rec>, urls: seq<string>, process: string -> Option<Rec>,
                      name: string, keywords: seq<string>, maxResults: int)
    ensures var r := CollectRaw(local, urls, process, name, keywords, maxResults);
      && (maxResults >= 1 ==> |r| <= maxResults)
      && (maxResults < 1 ==> r == if local.Some? then [local.value] else [])
      && (local.Some? ==> |r| >= 1 && r[0] == local.value)
  {
    var fromFile := if local.Some? then [local.value] else [];
    var fromUrls := if |urls| > 0 && |fromFile| < maxResults
                    then Gather(fromFile, PySlice(urls, maxResults - |fromFile|), process, maxResults)
                    else fromFile;
    if |urls| > 0 && |fromFile| < maxResults {
      GatherCapped(fromFile, PySlice(urls, maxResults - |fromFile|), process, maxResults);
      GatherExtends(fromFile, PySlice(urls, maxResults - |fromFile|), process, maxResults);
    }
    assert |fromUrls| >= |fromFile| && fromUrls[..|fromFile|] == fromFile;
    assert maxResults >= 1 ==> |fromUrls| <= maxResults;
    var search := SearchForWhitepapers(name, keywords, maxResults - |fromUrls|);
    if |fromUrls| < maxResults {
      GatherCapped(fromUrls, search, process, maxResults);
      GatherExtends(fromUrls, search, process, maxResults);
    }
    var r := CollectRaw(local, urls, process, name, keywords, maxResults);
    assert |r| >= |fromUrls| && r[..|fromUrls|] == fromUrls;
    if local.Some? {
      assert r[0] == r[..|fromUrls|][0] == fromUrls[..|fromFile|][0];
    }
  }

  /** When no URL yields a record (no session, so every download fails), the
    * result is the local file's record alone. */
  lemma CollectNothingFromUrls(local: Option<Rec>, urls: seq<string>, process: string -> Option<Rec>,
                               name: string, keywords: seq<string>, maxResults: int)
    requires forall u :: process(u).None?
    ensures CollectRaw(local, urls, process, name, keywords, maxResults) ==
      if local.Some? then [local.value] else []
  {
    var fromFile := if local.Some? then [local.value] else [];
    GatherNothing(fromFile, PySlice(urls, maxResults - |fromFile|), process, maxResults);
    GatherNothing(fromFile, SearchForWhitepapers(name, keywords, maxResults - |fromFile|), process, maxResults);
  }

  /** As written, the collector returns no records at all, whatever the
    * inputs: the local file and every URL fail in the analysis. */
  lemma AsWrittenCollectsNothing(path: string, absPath: string, fileText: Option<string>, urls: seq<string>,
                                 download: string -> Option<string>, extract: string -> Option<string>,
                                 formats: seq<string>, name: string, keywords: seq<string>,
                                 terms: string -> Json, insights: (string, Json) -> Json, relevance: (string, string) -> real, maxResults: int)
    ensures var local := ProcessFile(CleanTextKey, path, absPath, fileText, formats, name, keywords, terms, insights, relevance);
      var process := u => ProcessUrl(CleanTextKey, u, download(u), extract(u), formats, name, keywords, terms, insights, relevance);
      CollectRaw(local, urls, process, name, keywords, maxResults) == []
  {
    var local := ProcessFile(CleanTextKey, path, absPath, fileText, formats, name, keywords, terms, insights, relevance);
    var process := u => ProcessUrl(CleanTextKey, u, download(u), extract(u), formats, name, keywords, terms, insights, relevance);
    AsWrittenNeverProcesses("", path, absPath, None, fileText, formats, name, keywords, terms, insights, relevance);
    forall u ensures process(u).None? {
      AsWrittenNeverProcesses(u, path, absPath, download(u), extract(u), formats, name, keywords, terms, insights, relevance);
    }
    CollectNothingFromUrls(local, urls, process, name, keywords, maxResults);
  }
}
