// The pitch deck collector (agent/dqda/data_collectors/pitch_deck_parser.py):
// the PDF download's acceptance test, the keyword section finder, the four
// quality indicators, the startup-relevance score, the analysis that adds
// them to the PDF metadata, the raw record, and the capped collection loop.
// The PDF text extraction itself (pdfplumber / PyPDF2) is a parameter.

module PitchDeck {
  import opened Values
  import opened Gathering

  // --------------------------------------------------------------- download

  /** What the HTTP GET of a PDF URL returned: its content type header and body. */
  datatype Response = Response(contentType: string, content: seq<int>)

  /** The content type mentions "pdf" or the URL ends in ".pdf" (both
    * lowercased first). */
  predicate LooksLikePdf(url: string, contentType: string) {
    Contains(Lower(contentType), "pdf") || EndsWith(Lower(url), ".pdf")
  }

  /** `_download_pdf`. `hasSession` says whether an HTTP session exists
    * (`requests` is importable); `response` is the GET's outcome, `None` when
    * it raised. */
  function DownloadPdf(hasSession: bool, url: string, response: Option<Response>): (r: Option<seq<int>>)
    ensures r.Some? <==> hasSession && response.Some? && LooksLikePdf(url, response.value.contentType)
    ensures r.Some? ==> r.value == response.value.content
  {
    if !hasSession || response.None? then None
    else if !LooksLikePdf(url, response.value.contentType) then None
    else Some(response.value.content)
  }

  /** A URL ending in ".pdf", in any case, is downloaded whatever its content type. */
  lemma PdfSuffixAccepted(url: string, body: seq<int>, contentType: string)
    requires EndsWith(Lower(url), ".pdf")
    ensures DownloadPdf(true, url, Some(Response(contentType, body))) == Some(body)
  {
  }

  // --------------------------------------------------------------- sections

  /** The keys of `section_patterns`, in the dictionary's order. */
  const SectionNames: seq<string> :=
    ["problem", "solution", "market_size", "business_model", "competitive_advantage",
     "team", "financials", "traction", "roadmap"]

  /** Each section's pattern `(?i)(a|b|c)` as its list of alternatives. The
    * patterns run on the lowercased text and hold no other regex syntax. */
  const SectionPatterns: seq<seq<string>> :=
    [["problem", "challenge", "market need"],
     ["solution", "product", "service"],
     ["market size", "market opportunity", "addressable market"],
     ["business model", "revenue", "monetization"],
     ["competitive advantage", "moat", "differentiation"],
     ["team", "founders", "management"],
     ["financials", "funding", "investment", "use of funds"],
     ["traction", "milestones", "growth"],
     ["roadmap", "future plans", "vision"]]

  /** The length of the match of the alternation `alts` at `i`: the first
    * alternative that occurs there, as the regex engine tries them. */
  function AltAt(s: string, alts: seq<string>, i: nat): (r: Option<nat>)
    ensures r.Some? ==> i + r.value <= |s|
  {
    if |alts| == 0 then None
    else if OccursAt(s, alts[0], i) then Some(|alts[0]|)
    else AltAt(s, alts[1..], i)
  }

  /** The alternation matches at `i` exactly when one of its alternatives occurs there. */
  lemma {:induction false} AltAtMatches(s: string, alts: seq<string>, i: nat)
    ensures AltAt(s, alts, i).Some? <==> exists k :: 0 <= k < |alts| && OccursAt(s, alts[k], i)
  {
    if |alts| > 0 && !OccursAt(s, alts[0], i) {
      AltAtMatches(s, alts[1..], i);
      if exists k :: 0 <= k < |alts| && OccursAt(s, alts[k], i) {
        var k :| 0 <= k < |alts| && OccursAt(s, alts[k], i);
        assert alts[1..][k - 1] == alts[k];
      }
    }
  }

  /** The start of the leftmost match of `alts` at or after `from`: the
    * first item of `re.finditer`. */
  function SearchFrom(s: string, alts: seq<string>, from: nat): (r: Option<nat>)
    ensures r.Some? ==> from <= r.value <= |s| && AltAt(s, alts, r.value).Some?
    ensures r.Some? ==> forall j :: from <= j < r.value ==> AltAt(s, alts, j).None?
    ensures r.None? ==> forall j :: from <= j <= |s| ==> AltAt(s, alts, j).None?
    decreases |s| + 1 - from
  {
    if from > |s| then None
    else if AltAt(s, alts, from).Some? then Some(from)
    else SearchFrom(s, alts, from + 1)
  }

  /** The starts of the matches `re.finditer` yields from `from` on: after
    * each match the search resumes where it ended. */
  function MatchStarts(s: string, alts: seq<string>, from: nat): (r: seq<nat>)
    ensures forall k :: 0 <= k < |r| ==> from <= r[k] <= |s| && AltAt(s, alts, r[k]).Some?
    decreases |s| + 1 - from
  {
    match SearchFrom(s, alts, from)
    case None => []
    case Some(i) =>
      var n := AltAt(s, alts, i).value;
      [i] + MatchStarts(s, alts, i + (if n == 0 then 1 else n))
  }

  /** `next_section_pos` for a match at `start`: the nearest match of any of
    * `pats` strictly after `start`, or `textLen` when there is none nearer. */
  function NextPos(lower: string, pats: seq<seq<string>>, start: nat, textLen: nat): (r: nat)
    ensures r <= textLen && (r == textLen || r >= start + 1)
  {
    if |pats| == 0 then textLen
    else
      var prev := NextPos(lower, pats[..|pats| - 1], start, textLen);
      match SearchFrom(lower, pats[|pats| - 1], start + 1)
      case None => prev
      case Some(p) => if p < prev then p else prev
  }

  /** The section boundary is the nearest match of any pattern after the
    * start: no pattern matches before it, and it is either the end of the
    * text or itself a match. */
  lemma {:induction false} NextPosIsNearest(lower: string, pats: seq<seq<string>>, start: nat, textLen: nat)
    ensures var r := NextPos(lower, pats, start, textLen);
      && (forall k :: 0 <= k < |pats| && SearchFrom(lower, pats[k], start + 1).Some? ==>
            r <= SearchFrom(lower, pats[k], start + 1).value)
      && (r == textLen || exists k :: 0 <= k < |pats| && SearchFrom(lower, pats[k], start + 1) == Some(r))
  {
    if |pats| > 0 {
      var init := pats[..|pats| - 1];
      NextPosIsNearest(lower, init, start, textLen);
      forall k | 0 <= k < |pats| - 1 ensures pats[k] == init[k] { }
    }
  }

  /** The stripped text from a match at `start` up to the next section
    * boundary, the nearest later match of any of `pats`. */
  function Candidate(text: string, lower: string, pats: seq<seq<string>>, start: nat): string
    requires start <= |text|
  {
    Strip(text[start..NextPos(lower, pats, start, |text|)])
  }

  /** A candidate counts as the section when it is longer than 50 characters. */
  predicate Qualifies(text: string, lower: string, pats: seq<seq<string>>, start: nat)
    requires start <= |text|
  {
    |Candidate(text, lower, pats, start)| > 50
  }

  /** The first qualifying candidate among the match starts. */
  function FirstSection(text: string, lower: string, pats: seq<seq<string>>, starts: seq<nat>): Option<string>
    requires forall k :: 0 <= k < |starts| ==> starts[k] <= |text|
  {
    if |starts| == 0 then None
    else if Qualifies(text, lower, pats, starts[0]) then Some(Candidate(text, lower, pats, starts[0]))
    else FirstSection(text, lower, pats, starts[1..])
  }

  /** A section is found exactly when some match qualifies, and then it is
    * the candidate of the first qualifying match. */
  lemma {:induction false} FirstSectionIsFirst(text: string, lower: string, pats: seq<seq<string>>, starts: seq<nat>)
    requires forall k :: 0 <= k < |starts| ==> starts[k] <= |text|
    ensures var r := FirstSection(text, lower, pats, starts);
      && (r.Some? <==> exists k :: 0 <= k < |starts| && Qualifies(text, lower, pats, starts[k]))
      && (r.Some? ==> exists k :: (0 <= k < |starts| && Qualifies(text, lower, pats, starts[k])
            && r.value == Candidate(text, lower, pats, starts[k])
            && forall j :: 0 <= j < k ==> !Qualifies(text, lower, pats, starts[j])))
  {
    if |starts| > 0 && !Qualifies(text, lower, pats, starts[0]) {
      var tail := starts[1..];
      FirstSectionIsFirst(text, lower, pats, tail);
      var r := FirstSection(text, lower, pats, starts);
      assert r == FirstSection(text, lower, pats, tail);
      if r.Some? {
        var k :| 0 <= k < |tail| && Qualifies(text, lower, pats, tail[k])
          && r.value == Candidate(text, lower, pats, tail[k])
          && forall j :: 0 <= j < k ==> !Qualifies(text, lower, pats, tail[j]);
        assert starts[k + 1] == tail[k];
        forall j | 0 <= j < k + 1 ensures !Qualifies(text, lower, pats, starts[j]) {
          if j > 0 {
            assert starts[j] == tail[j - 1];
          }
        }
      } else {
        forall k | 0 <= k < |starts| ensures !Qualifies(text, lower, pats, starts[k]) {
          if k > 0 {
            assert starts[k] == tail[k - 1];
          }
        }
      }
    }
  }

  /** The section the `n`-th of `pats` yields, if any. */
  function SectionOf(text: string, pats: seq<seq<string>>, n: nat): Option<string>
    requires n < |pats|
  {
    var lower := Lower(text);
    FirstSection(text, lower, pats, MatchStarts(lower, pats[n], 0))
  }

  /** What each of `pats` yields, in order. */
  function Findings(text: string, pats: seq<seq<string>>): (r: seq<Option<string>>)
    ensures |r| == |pats| && forall n :: 0 <= n < |pats| ==> r[n] == SectionOf(text, pats, n)
  {
    seq(|pats|, n requires 0 <= n < |pats| => SectionOf(text, pats, n))
  }

  /** The dictionary built by storing each found section under its name, in
    * order, so that a later name overwrites an earlier equal one. */
  function Assemble(names: seq<string>, found: seq<Option<string>>): map<string, string>
    requires |names| == |found|
  {
    if |names| == 0 then map[]
    else
      var prev := Assemble(names[..|names| - 1], found[..|found| - 1]);
      match found[|found| - 1]
      case None => prev
      case Some(v) => prev[names[|names| - 1] := v]
  }

  /** `_identify_pitch_deck_sections`. */
  function PitchSections(text: string): map<string, string> {
    Assemble(SectionNames, Findings(text, SectionPatterns))
  }

  /** Every key is one of the names and holds what was found for it; every
    * name something was found for is a key. */
  lemma {:induction false} AssembleSpec(names: seq<string>, found: seq<Option<string>>)
    requires |names| == |found|
    ensures var secs := Assemble(names, found);
      && (forall key :: key in secs ==> exists n :: (0 <= n < |names| && names[n] == key && found[n] == Some(secs[key])))
      && (forall n :: 0 <= n < |names| && found[n].Some? ==> names[n] in secs)
  {
    if |names| > 0 {
      var m := |names| - 1;
      var ns, fs := names[..m], found[..m];
      AssembleSpec(ns, fs);
      var prev := Assemble(ns, fs);
      var secs := Assemble(names, found);
      forall key | key in secs
        ensures exists n :: (0 <= n < |names| && names[n] == key && found[n] == Some(secs[key]))
      {
        if found[m].None? || key != names[m] {
          var n :| 0 <= n < m && ns[n] == key && fs[n] == Some(prev[key]);
          assert names[n] == key && found[n] == Some(secs[key]);
        }
      }
      forall n | 0 <= n < |names| && found[n].Some? ensures names[n] in secs {
        if n < m {
          assert ns[n] == names[n] && fs[n] == found[n];
        }
      }
    }
  }

  /** The sections found: keys among the nine names, each value the first
    * qualifying candidate of its own pattern, and a key for every pattern
    * with a qualifying candidate. */
  lemma PitchSectionsSpec(text: string)
    ensures var secs := PitchSections(text);
      && (forall key :: key in secs ==> key in SectionNames)
      && (forall key :: key in secs ==> exists n :: (0 <= n < |SectionNames| && SectionNames[n] == key
            && SectionOf(text, SectionPatterns, n) == Some(secs[key])))
      && (forall n :: 0 <= n < |SectionNames| && SectionOf(text, SectionPatterns, n).Some? ==> SectionNames[n] in secs)
  {
    AssembleSpec(SectionNames, Findings(text, SectionPatterns));
  }

  /** The inner loop over `section_patterns.values()`. */
  method NextSectionPosition(lower: string, pats: seq<seq<string>>, start: nat, textLen: nat) returns (next: nat)
    ensures next == NextPos(lower, pats, start, textLen)
  {
    next := textLen;
    for p := 0 to |pats|
      invariant next == NextPos(lower, pats[..p], start, textLen)
    {
      assert pats[..p + 1][..p] == pats[..p];
      var found := SearchFrom(lower, pats[p], start + 1);
      if found.Some? && found.value < next {
        next := found.value;
      }
    }
    assert pats[..|pats|] == pats;
  }

  /** The loop over one pattern's matches, which stops at the first that
    * qualifies. */
  method FindSection(text: string, lower: string, pats: seq<seq<string>>, starts: seq<nat>) returns (r: Option<string>)
    requires forall k :: 0 <= k < |starts| ==> starts[k] <= |text|
    ensures r == FirstSection(text, lower, pats, starts)
  {
    r := None;
    var j := 0;
    while j < |starts|
      invariant 0 <= j <= |starts|
      invariant FirstSection(text, lower, pats, starts[j..]) == FirstSection(text, lower, pats, starts)
    {
      assert starts[j..][0] == starts[j] && starts[j..][1..] == starts[j + 1..];
      var next := NextSectionPosition(lower, pats, starts[j], |text|);
      var sectionText := Strip(text[starts[j]..next]);
      if |sectionText| > 50 {
        r := Some(sectionText);
        return;
      }
      j := j + 1;
    }
  }

  /** `_identify_pitch_deck_sections`, loop by loop. */
  method IdentifyPitchDeckSections(text: string) returns (sections: map<string, string>)
    ensures sections == PitchSections(text)
  {
    sections := FindSections(text, SectionNames, SectionPatterns);
  }

  /** The outer loop, over the names and their patterns. */
  method FindSections(text: string, names: seq<string>, pats: seq<seq<string>>) returns (sections: map<string, string>)
    requires |names| == |pats|
    ensures sections == Assemble(names, Findings(text, pats))
  {
    sections := map[];
    var lower := Lower(text);
    ghost var found := Findings(text, pats);
    for n := 0 to |names|
      invariant sections == Assemble(names[..n], found[..n])
    {
      assert names[..n + 1][..n] == names[..n] && found[..n + 1][..n] == found[..n];
      var starts := MatchStarts(lower, pats[n], 0);
      var section := FindSection(text, lower, pats, starts);
      assert section == found[n];
      if section.Some? {
        sections := sections[names[n] := section.value];
      }
    }
    assert names[..|names|] == names && found[..|found|] == found;
  }

  // ---------------------------------------------------------------- quality

  const MetadataFields: seq<string> := ["title", "author", "creation_date"]

  const ExpectedSections: seq<string> := ["problem", "solution", "market_size", "team", "financials"]

  predicate IsBullet(c: char) { c == '\U{2022}' || c == '-' || c == '*' }

  predicate IsHash(c: char) { c == '#' }

  /** A match of `^#+\s` (multi-line mode) starts at `i`: a line start,
    * a run of '#', then whitespace. Such matches never overlap, so counting
    * their starts counts what `re.findall` returns. */
  predicate HeaderAt(s: string, i: int) {
    0 <= i < |s| && (i == 0 || s[i - 1] == '\n') && IsHash(s[i])
    && var e := RunEnd(s, i, IsHash); e < |s| && IsSpace(s[e])
  }

  /** A match of `[•\-\*]\s` starts at `i`; these never overlap either. */
  predicate BulletAt(s: string, i: int) {
    0 <= i && i + 1 < |s| && IsBullet(s[i]) && IsSpace(s[i + 1])
  }

  /** How many positions below `n` satisfy `p`. */
  function CountBelow(n: nat, p: int -> bool): (r: nat)
    ensures r <= n
  {
    if n == 0 then 0 else CountBelow(n - 1, p) + (if p(n - 1) then 1 else 0)
  }

  function Headers(s: string): nat { CountBelow(|s|, i => HeaderAt(s, i)) }

  function Bullets(s: string): nat { CountBelow(|s|, i => BulletAt(s, i)) }

  /** The four indicators of `_assess_pitch_deck_quality`. */
  datatype DeckQuality = DeckQuality(
    textLength: real, metadataCompleteness: real, sectionCoverage: real, structureQuality: real)

  predicate QualityInRange(q: DeckQuality) {
    && 0.0 <= q.textLength <= 1.0
    && 0.0 <= q.metadataCompleteness <= 1.0
    && 0.0 <= q.sectionCoverage <= 1.0
    && 0.0 <= q.structureQuality <= 1.0
  }

  /** The indicators from the word count, the number of truthy metadata
    * fields, the number of expected sections found and the number of
    * headers and bullets. */
  function QualityFrom(words: nat, present: nat, covered: nat, marks: nat): (q: DeckQuality)
    requires present <= 3 && covered <= 5
    ensures QualityInRange(q)
    ensures q.textLength == 1.0 <==> words >= 1000
    ensures q.metadataCompleteness == 1.0 <==> present == 3
    ensures q.sectionCoverage == 1.0 <==> covered == 5
    ensures q.structureQuality == 1.0 <==> marks >= 20
    ensures q.sectionCoverage * 5.0 == covered as real
  {
    DeckQuality(Min(words as real / 1000.0, 1.0), present as real / 3.0,
                covered as real / 5.0, Min(marks as real / 20.0, 1.0))
  }

  /** The indicators for the given metadata field names and expected section names. */
  function Assess(text: string, metadata: map<string, Json>, sections: map<string, string>,
                  fields: seq<string>, expected: seq<string>): (q: DeckQuality)
    requires |fields| == 3 && |expected| == 5
    ensures QualityInRange(q)
    ensures q.textLength == 1.0 <==> |SplitWs(text)| >= 1000
    ensures q.metadataCompleteness == 1.0 <==> forall k :: 0 <= k < |fields| ==> Truthy(Get(metadata, fields[k]))
    ensures q.sectionCoverage == 1.0 <==> forall k :: 0 <= k < |expected| ==> expected[k] in sections
    ensures q.sectionCoverage == 0.0 <==> forall k :: 0 <= k < |expected| ==> expected[k] !in sections
    ensures q.structureQuality == 1.0 <==> Headers(text) + Bullets(text) >= 20
  {
    var present := CountWhere(fields, f => Truthy(Get(metadata, f)));
    var covered := CountWhere(expected, e => e in sections);
    CountWhereExtremes(fields, f => Truthy(Get(metadata, f)));
    CountWhereExtremes(expected, e => e in sections);
    QualityFrom(|SplitWs(text)|, present, covered, Headers(text) + Bullets(text))
  }

  /** `_assess_pitch_deck_quality`. */
  function AssessQuality(text: string, metadata: map<string, Json>, sections: map<string, string>): (q: DeckQuality)
    ensures QualityInRange(q)
    ensures q.textLength == 1.0 <==> |SplitWs(text)| >= 1000
    ensures q.metadataCompleteness == 1.0 <==>
      forall k :: 0 <= k < |MetadataFields| ==> Truthy(Get(metadata, MetadataFields[k]))
    ensures q.sectionCoverage == 1.0 <==> forall k :: 0 <= k < |ExpectedSections| ==> ExpectedSections[k] in sections
    ensures q.sectionCoverage == 0.0 <==> forall k :: 0 <= k < |ExpectedSections| ==> ExpectedSections[k] !in sections
    ensures q.structureQuality == 1.0 <==> Headers(text) + Bullets(text) >= 20
  {
    Assess(text, metadata, sections, MetadataFields, ExpectedSections)
  }

  /** Problem and solution found, market size, team and financials not:
    * the coverage is 0.4. */
  lemma CoverageOfTwo(text: string, metadata: map<string, Json>, sections: map<string, string>)
    requires "problem" in sections && "solution" in sections
    requires "market_size" !in sections && "team" !in sections && "financials" !in sections
    ensures AssessQuality(text, metadata, sections).sectionCoverage == 0.4
  {
    var p := e => e in sections;
    var es := ExpectedSections;
    assert CountWhere(es[4..], p) == 0;
    assert CountWhere(es[3..], p) == 0 by { assert es[3..][1..] == es[4..]; }
    assert CountWhere(es[2..], p) == 0 by { assert es[2..][1..] == es[3..]; }
    assert CountWhere(es[1..], p) == 1 by { assert es[1..][1..] == es[2..]; }
    assert CountWhere(es, p) == 2;
  }

  /** `sum(quality_indicators.values()) / len(quality_indicators)`. */
  function QualityScore(q: DeckQuality): (r: real)
    ensures QualityInRange(q) ==> 0.0 <= r <= 1.0
    ensures QualityInRange(q) ==> (r == 1.0 <==> q == DeckQuality(1.0, 1.0, 1.0, 1.0))
  {
    (q.textLength + q.metadataCompleteness + q.sectionCoverage + q.structureQuality) / 4.0
  }

  const TextLengthKey := "text_length"
  const MetadataCompletenessKey := "metadata_completeness"
  const StructureQualityKey := "structure_quality"
  const SectionCoverageKey := "section_coverage"

  /** The indicators as the dictionary the record carries. */
  function QualityMap(q: DeckQuality): map<string, Json> {
    map[TextLengthKey := Num(q.textLength), MetadataCompletenessKey := Num(q.metadataCompleteness),
        StructureQualityKey := Num(q.structureQuality), SectionCoverageKey := Num(q.sectionCoverage)]
  }

  // -------------------------------------------------------------- relevance

  const RelevanceKeywords: seq<string> :=
    ["startup", "company", "business", "market", "revenue", "customers",
     "product", "service", "technology", "innovation", "growth", "funding"]

  /** 0.6 for up to five mentions and 0.4 for the share of keywords, capped at 1. */
  function RelevanceFrom(mentions: nat, hits: nat): (r: real)
    ensures 0.0 <= r <= 1.0
    ensures mentions == 0 ==> r == 0.4 * Min(hits as real / 12.0, 1.0)
    ensures mentions > 0 ==> r >= 0.12
  {
    Min(0.6 * Min(mentions as real / 5.0, 1.0) + 0.4 * Min(hits as real / 12.0, 1.0), 1.0)
  }

  /** `_calculate_startup_relevance`: an empty name is neutral; otherwise the
    * case-insensitive, non-overlapping mentions of the name and the business
    * keywords the lowercased text contains. */
  function DeckRelevance(text: string, name: string): (r: real)
    ensures 0.0 <= r <= 1.0
    ensures |name| == 0 ==> r == 0.5
  {
    if |name| == 0 then 0.5
    else RelevanceFrom(Count(Lower(text), Lower(name)), Hits(Lower(text), RelevanceKeywords))
  }

  /** A text that mentions the name scores strictly higher than one that
    * does not and hits no more of the keywords. */
  lemma MentionRaisesRelevance(with: string, without: string, name: string)
    requires |name| > 0
    requires Contains(Lower(with), Lower(name)) && !Contains(Lower(without), Lower(name))
    requires Hits(Lower(without), RelevanceKeywords) <= Hits(Lower(with), RelevanceKeywords)
    ensures DeckRelevance(with, name) > DeckRelevance(without, name)
  {
    CountPositive(Lower(with), Lower(name));
    CountPositive(Lower(without), Lower(name));
  }

  // --------------------------------------------------------------- analysis

  /** What the PDF extraction returns: the page text and the document metadata. */
  datatype Extraction = Extraction(text: string, metadata: map<string, Json>)

  /** `_analyze_pitch_deck_content`'s result. */
  datatype DeckAnalysis = DeckAnalysis(
    text: string, metadata: map<string, Json>, sections: map<string, string>, quality: DeckQuality)

  const RelevanceScoreKey := "startup_relevance_score"
  const SectionCountKey := "section_count"
  const QualityScoreKey := "quality_score"
  const AnalysisDateKey := "analysis_date"

  /** `metadata.copy()` updated with the four analysis entries. */
  function Enhance(metadata: map<string, Json>, relevance: real, sectionCount: nat, qualityScore: real): map<string, Json> {
    metadata[RelevanceScoreKey := Num(relevance)][AnalysisDateKey := Str("")]
            [QualityScoreKey := Num(qualityScore)][SectionCountKey := Num(sectionCount as real)]
  }

  predicate IsAnalysisKey(k: string) {
    k == RelevanceScoreKey || k == SectionCountKey || k == QualityScoreKey || k == AnalysisDateKey
  }

  /** The update sets the four entries and keeps every other one. */
  lemma EnhanceSpec(metadata: map<string, Json>, relevance: real, sectionCount: nat, qualityScore: real)
    ensures var m := Enhance(metadata, relevance, sectionCount, qualityScore);
      && m[RelevanceScoreKey] == Num(relevance) && m[AnalysisDateKey] == Str("")
      && m[QualityScoreKey] == Num(qualityScore) && m[SectionCountKey] == Num(sectionCount as real)
      && m.Keys == metadata.Keys + {RelevanceScoreKey, AnalysisDateKey, QualityScoreKey, SectionCountKey}
      && forall k :: k in metadata && !IsAnalysisKey(k) ==> m[k] == metadata[k]
  {
    assert |RelevanceScoreKey| == 23;
    assert AnalysisDateKey[0] != QualityScoreKey[0] && AnalysisDateKey[0] != SectionCountKey[0];
    assert QualityScoreKey[0] != SectionCountKey[0];
  }

  /** The analysis of a text from its sections, indicators and relevance. */
  function AnalysisOf(text: string, metadata: map<string, Json>, sections: map<string, string>,
                      quality: DeckQuality, relevance: real): DeckAnalysis {
    DeckAnalysis(text, Enhance(metadata, relevance, |sections|, QualityScore(quality)), sections, quality)
  }

  /** `_analyze_pitch_deck_content`. The extraction carries no
    * `collection_timestamp`, so the analysis date is the empty string. */
  function AnalyzeDeck(e: Extraction, name: string): DeckAnalysis {
    var sections := PitchSections(e.text);
    AnalysisOf(e.text, e.metadata, sections, AssessQuality(e.text, e.metadata, sections), DeckRelevance(e.text, name))
  }

  /** The enhanced metadata: the section count is the number of sections,
    * the quality score the mean of the indicators (in [0, 1]), the relevance
    * in [0, 1], and every other metadata entry is kept. */
  lemma AnalysisMetadata(e: Extraction, name: string)
    ensures var a := AnalyzeDeck(e, name);
      && a.metadata[SectionCountKey] == Num(|PitchSections(e.text)| as real)
      && a.metadata[QualityScoreKey].Num? && 0.0 <= a.metadata[QualityScoreKey].n <= 1.0
      && a.metadata[QualityScoreKey].n * 4.0 == a.quality.textLength + a.quality.metadataCompleteness
           + a.quality.sectionCoverage + a.quality.structureQuality
      && a.metadata[RelevanceScoreKey].Num? && 0.0 <= a.metadata[RelevanceScoreKey].n <= 1.0
      && (forall k :: k in e.metadata && !IsAnalysisKey(k) ==> k in a.metadata && a.metadata[k] == e.metadata[k])
  {
    var sections := PitchSections(e.text);
    var quality := AssessQuality(e.text, e.metadata, sections);
    var relevance := DeckRelevance(e.text, name);
    assert QualityInRange(quality) && 0.0 <= relevance <= 1.0;
    assert AnalyzeDeck(e, name) == AnalysisOf(e.text, e.metadata, sections, quality, relevance);
    EnhanceSpec(e.metadata, relevance, |sections|, QualityScore(quality));
  }

  // ----------------------------------------------------------------- record

  type Rec = map<string, Json>

  const UrlKey := "url"
  const ContentKey := "content"
  const MetadataKey := "metadata"
  const SectionsKey := "sections"
  const QualityIndicatorsKey := "quality_indicators"
  const MethodKey := "collection_method"
  const StartupNameKey := "startup_name"
  const KeywordsKey := "search_keywords"

  function DeckRecord(url: string, a: DeckAnalysis, name: string, keywords: seq<string>): Rec {
    map[UrlKey := Str(url), MethodKey := Str("pdf_extraction"), StartupNameKey := Str(name),
        KeywordsKey := StrList(keywords), MetadataKey := Obj(a.metadata), ContentKey := Str(a.text),
        SectionsKey := StrMap(a.sections), QualityIndicatorsKey := Obj(QualityMap(a.quality))]
  }

  /** `_extract_from_url`: the download, then the extraction (`extract`,
    * `None` when both PDF libraries fail), then the analysis. Empty content
    * counts as a failed download. */
  function ExtractFromUrl(url: string, hasSession: bool, response: Option<Response>,
                          extract: seq<int> -> Option<Extraction>, name: string, keywords: seq<string>): (r: Option<Rec>)
    ensures r.Some? ==> hasSession && response.Some? && LooksLikePdf(url, response.value.contentType)
  {
    match DownloadPdf(hasSession, url, response)
    case None => None
    case Some(pdf) =>
      if |pdf| == 0 then None
      else match extract(pdf)
        case None => None
        case Some(e) => Some(DeckRecord(url, AnalyzeDeck(e, name), name, keywords))
  }

  /** The record carries the analysis' text, sections, indicators and
    * metadata, and the fixed collection method. */
  lemma DeckRecordFields(url: string, a: DeckAnalysis, name: string, keywords: seq<string>)
    ensures var r := DeckRecord(url, a, name, keywords);
      && r[ContentKey] == Str(a.text)
      && r[SectionsKey] == StrMap(a.sections)
      && r[QualityIndicatorsKey] == Obj(QualityMap(a.quality))
      && r[MetadataKey] == Obj(a.metadata)
      && r[MethodKey] == Str("pdf_extraction")
  {
    assert |QualityIndicatorsKey| == 18 && |SectionsKey| == 8 && |ContentKey| == 7 && |MetadataKey| == 8;
    assert SectionsKey[0] != MetadataKey[0];
    assert |MethodKey| == 17 && |StartupNameKey| == 12 && |KeywordsKey| == 15;
  }

  /** A downloaded, extracted PDF gives a record whose content is the text,
    * whose sections are the ones found in it and whose indicators are the
    * quality assessment of that text. */
  lemma ExtractedRecord(url: string, response: Response, extract: seq<int> -> Option<Extraction>,
                        name: string, keywords: seq<string>)
    requires LooksLikePdf(url, response.contentType) && |response.content| > 0
    requires extract(response.content).Some?
    ensures var e := extract(response.content).value;
      var r := ExtractFromUrl(url, true, Some(response), extract, name, keywords);
      && r.Some?
      && r.value[ContentKey] == Str(e.text)
      && r.value[SectionsKey] == StrMap(PitchSections(e.text))
      && r.value[QualityIndicatorsKey] == Obj(QualityMap(AssessQuality(e.text, e.metadata, PitchSections(e.text))))
  {
    var e := extract(response.content).value;
    var a := AnalyzeDeck(e, name);
    assert ExtractFromUrl(url, true, Some(response), extract, name, keywords) == Some(DeckRecord(url, a, name, keywords));
    DeckRecordFields(url, a, name, keywords);
  }

  // ------------------------------------------------------------- collection

  /** `_search_for_pitch_decks`: a placeholder that finds nothing. */
  function SearchForPitchDecks(name: string, keywords: seq<string>, maxResults: int): seq<string> {
    []
  }

  /** `_collect_raw_data`: the given PDF URLs (sliced to `max_results`) up to
    * the cap, then the search results. `process` is `_extract_from_url`. */
  function CollectRaw(urls: seq<string>, process: string -> Option<Rec>,
                      name: string, keywords: seq<string>, maxResults: int): seq<Rec> {
    var fromUrls := if |urls| > 0 then Gather([], PySlice(urls, maxResults), process, maxResults) else [];
    if |fromUrls| < maxResults
    then Gather(fromUrls, SearchForPitchDecks(name, keywords, maxResults - |fromUrls|), process, maxResults)
    else fromUrls
  }

  /** `_collect_raw_data`. */
  method CollectRawData(urls: seq<string>, process: string -> Option<Rec>,
                        name: string, keywords: seq<string>, maxResults: int)
    returns (results: seq<Rec>)
    ensures results == CollectRaw(urls, process, name, keywords, maxResults)
  {
    results := [];
    if |urls| > 0 {
      results := GatherAll(results, PySlice(urls, maxResults), process, maxResults);
    }
    if |results| < maxResults {
      var searchUrls := SearchForPitchDecks(name, keywords, maxResults - |results|);
      results := GatherAll(results, searchUrls, process, maxResults);
    }
  }

  /** At most `max_results` records; a negative cap still lets the first
    * record through (the slice keeps all but the last URLs and the length
    * check comes after the append). Every record is what `process` gives
    * for one of the URLs. */
  lemma CollectCapped(urls: seq<string>, process: string -> Option<Rec>,
                      name: string, keywords: seq<string>, maxResults: int)
    ensures var r := CollectRaw(urls, process, name, keywords, maxResults);
      && (maxResults >= 0 ==> |r| <= maxResults)
      && (maxResults < 0 ==> |r| <= 1)
      && (forall k :: 0 <= k < |r| ==> exists j :: 0 <= j < |urls| && process(urls[j]) == Some(r[k]))
  {
    var sliced := PySlice(urls, maxResults);
    var r := CollectRaw(urls, process, name, keywords, maxResults);
    if |urls| > 0 {
      if maxResults > 0 {
        GatherCapped([], sliced, process, maxResults);
      } else {
        GatherOverCap([], sliced, process, maxResults);
      }
      GatherFrom([], sliced, process, maxResults);
    }
    assert r == if |urls| > 0 then Gather([], sliced, process, maxResults) else [];
    forall k | 0 <= k < |r| ensures exists j :: 0 <= j < |urls| && process(urls[j]) == Some(r[k]) {
      var j :| 0 <= j < |sliced| && process(sliced[j]) == Some(r[k]);
      assert sliced[j] == urls[j];
    }
  }

  /** Without an HTTP session every download fails, so nothing is collected. */
  lemma NoSessionNoRecords(urls: seq<string>, responses: string -> Option<Response>,
                           extract: seq<int> -> Option<Extraction>, name: string, keywords: seq<string>,
                           maxResults: int)
    ensures CollectRaw(urls, u => ExtractFromUrl(u, false, responses(u), extract, name, keywords),
                       name, keywords, maxResults) == []
  {
    var process := u => ExtractFromUrl(u, false, responses(u), extract, name, keywords);
    GatherNothing([], PySlice(urls, maxResults), process, maxResults);
  }
}
