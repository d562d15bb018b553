// The DQDA orchestrator: fan-in of the five collectors' results, the four
// sub-scores computed from the records' structured data, the weakness list
// and the weighted investor-fit composite.

module DqdaAgent {
  import opened Values
  import opened BaseCollector

  // ------------------------------------------------------------- fan-in

  /** The five roles of the result map, in task order. */
  const Roles: seq<string> := ["pitch_deck", "whitepaper", "website", "tokenomics", "founders"]

  /** What one collector task produced under `gather(return_exceptions=True)`. */
  datatype TaskResult = Points(points: seq<DataPoint>) | Failure(msg: string)

  function PointsOrEmpty(t: TaskResult): seq<DataPoint> {
    match t
    case Points(ps) => ps
    case Failure(_) => []
  }

  /** The arguments one collector is called with. */
  datatype CollectorCall = CollectorCall(role: string, startupName: string, keywords: seq<string>,
                                         maxResults: int, extra: map<string, Json>)

  /** The five calls `run_full_pipeline` issues, in order. A missing or empty
    * URL list becomes `[]`. */
  function PipelineCalls(name: string, kws: seq<string>, maxResults: int, websiteUrls: Option<seq<string>>, useTestData: bool): (r: seq<CollectorCall>)
    ensures |r| == 5 && forall i :: 0 <= i < 5 ==> r[i].role == Roles[i] && r[i].startupName == name && r[i].keywords == kws && r[i].maxResults == maxResults
    ensures r[2].extra == map["base_urls" := StrList(if websiteUrls.Some? then websiteUrls.value else [])]
    ensures r[3].extra == map["use_test_data" := Bool(useTestData)]
    ensures r[0].extra == r[1].extra == r[4].extra == map[]
  {
    var urls := if websiteUrls.Some? then websiteUrls.value else [];
    [ CollectorCall("pitch_deck", name, kws, maxResults, map[]),
      CollectorCall("whitepaper", name, kws, maxResults, map[]),
      CollectorCall("website", name, kws, maxResults, map["base_urls" := StrList(urls)]),
      CollectorCall("tokenomics", name, kws, maxResults, map["use_test_data" := Bool(useTestData)]),
      CollectorCall("founders", name, kws, maxResults, map[]) ]
  }

  /** The records a role holds (`collected.get(role)`, read as a list). */
  function Role(collected: map<string, seq<DataPoint>>, role: string): seq<DataPoint> {
    if role in collected then collected[role] else []
  }

  /** The `collected` map after the first `i` roles have been filled. */
  function CollectedUpTo(results: seq<TaskResult>, i: nat): map<string, seq<DataPoint>>
    requires i <= |results| && i <= 5
  {
    if i == 0 then map[] else CollectedUpTo(results, i - 1)[Roles[i - 1] := PointsOrEmpty(results[i - 1])]
  }

  /** The collected map for a vector of task results. */
  function Collected(results: seq<TaskResult>): map<string, seq<DataPoint>>
    requires |results| == 5
  {
    CollectedUpTo(results, 5)
  }

  /** The map always has exactly the five roles, and a failed task maps to
    * `[]` without affecting any other entry. */
  lemma CollectedSpec(results: seq<TaskResult>)
    requires |results| == 5
    ensures Collected(results).Keys == set r | r in Roles
    ensures forall i :: 0 <= i < 5 ==> Collected(results)[Roles[i]] == PointsOrEmpty(results[i])
    ensures forall i :: 0 <= i < 5 && results[i].Failure? ==> Collected(results)[Roles[i]] == []
  {
    var c := Collected(results);
    assert CollectedUpTo(results, 1) == map[Roles[0] := PointsOrEmpty(results[0])];
    assert CollectedUpTo(results, 2) == map[Roles[0] := PointsOrEmpty(results[0]), Roles[1] := PointsOrEmpty(results[1])];
    assert CollectedUpTo(results, 3) == map[Roles[0] := PointsOrEmpty(results[0]), Roles[1] := PointsOrEmpty(results[1]),
                                            Roles[2] := PointsOrEmpty(results[2])];
    assert CollectedUpTo(results, 4) == map[Roles[0] := PointsOrEmpty(results[0]), Roles[1] := PointsOrEmpty(results[1]),
                                            Roles[2] := PointsOrEmpty(results[2]), Roles[3] := PointsOrEmpty(results[3])];
    assert c == map[Roles[0] := PointsOrEmpty(results[0]), Roles[1] := PointsOrEmpty(results[1]),
                    Roles[2] := PointsOrEmpty(results[2]), Roles[3] := PointsOrEmpty(results[3]),
                    Roles[4] := PointsOrEmpty(results[4])];
    assert forall r :: r in Roles <==> r == Roles[0] || r == Roles[1] || r == Roles[2] || r == Roles[3] || r == Roles[4];
  }

  /** The `collected` map is filled role by role; a failed task gives `[]`. */
  method FanIn(results: seq<TaskResult>) returns (collected: map<string, seq<DataPoint>>)
    requires |results| == 5
    ensures collected == Collected(results)
  {
    collected := map[];
    var i := 0;
    while i < 5
      invariant 0 <= i <= 5
      invariant collected == CollectedUpTo(results, i)
    {
      if results[i].Failure? {
        collected := collected[Roles[i] := []];
      } else {
        collected := collected[Roles[i] := results[i].points];
      }
      i := i + 1;
    }
  }

  // ------------------------------------------------------------- shared folds

  /** `int(round(max(0, min(1, x)) * 100))`. */
  function Percent(x: real): (r: int)
    ensures 0 <= r <= 100
  {
    RoundPercent(Clamp01(x));
    RoundHalfEven(Clamp01(x) * 100.0)
  }

  /** The value of a structured-data key, with `.get(key, {})`. */
  function SubMap(dp: DataPoint, key: string): Json {
    GetOr(dp.structuredData, key, Obj(map[]))
  }

  datatype ScoreReport = ScoreReport(score: int, signals: seq<string>, summary: string)

  // ------------------------------------------------------------- founder score

  /** One founder record's contribution: its assessment's numeric score, else its confidence. */
  function FounderValue(dp: DataPoint): real {
    var a := SubMap(dp, "overall_assessment");
    if a.Obj? && IsNumber(Get(a.fields, "overall_score")) then NumValue(a.fields["overall_score"]) else dp.confidence
  }

  /** `_compute_founder_score`. */
  function FounderScore(fs: seq<DataPoint>): int {
    if |fs| == 0 then 0 else Percent(SumBy(fs, FounderValue) / |fs| as real)
  }

  /** No records score 0; otherwise the score is the clamped mean on the
    * 0–100 scale, so it lies between the extreme contributions. */
  lemma FounderScoreRange(fs: seq<DataPoint>, lo: real, hi: real)
    requires 0.0 <= lo <= hi <= 1.0
    requires forall p :: p in fs ==> lo <= FounderValue(p) <= hi
    ensures 0 <= FounderScore(fs) <= 100
    ensures |fs| == 0 ==> FounderScore(fs) == 0
    ensures |fs| > 0 ==> RoundHalfEven(lo * 100.0) <= FounderScore(fs) <= RoundHalfEven(hi * 100.0)
  {
    if |fs| > 0 {
      SumByBounds(fs, FounderValue, lo, hi);
      var n := |fs| as real;
      var avg := SumBy(fs, FounderValue) / n;
      MeanBounds(SumBy(fs, FounderValue), n, lo, hi);
      RoundMonotone(lo * 100.0, avg * 100.0);
      RoundMonotone(avg * 100.0, hi * 100.0);
    }
  }

  method ComputeFounderScore(founders: seq<DataPoint>) returns (score: int)
    ensures score == FounderScore(founders)
    ensures 0 <= score <= 100
  {
    if |founders| == 0 {
      return 0;
    }
    var total := 0.0;
    var i := 0;
    while i < |founders|
      invariant 0 <= i <= |founders|
      invariant total == SumBy(founders[..i], FounderValue)
    {
      assert founders[..i + 1][..i] == founders[..i];
      total := total + FounderValue(founders[i]);
      i := i + 1;
    }
    assert founders[..i] == founders;
    score := Percent(total / |founders| as real);
  }

  // ------------------------------------------------------------- market analysis

  predicate HasSection(dp: DataPoint, key: string) {
    var s := SubMap(dp, "sections");
    s.Obj? && Truthy(Get(s.fields, key))
  }

  predicate AnyHasSection(ps: seq<DataPoint>, key: string) {
    exists i :: 0 <= i < |ps| && HasSection(ps[i], key)
  }

  /** A pitch deck's numeric `quality_indicators.section_coverage`. */
  function CoverageOf(dp: DataPoint): Option<real> {
    var qi := SubMap(dp, "quality_indicators");
    if qi.Obj? && IsNumber(Get(qi.fields, "section_coverage")) then Some(NumValue(qi.fields["section_coverage"])) else None
  }

  /** A running maximum, starting from 0, over the values `f` yields. */
  function MaxOf(ps: seq<DataPoint>, f: DataPoint -> Option<real>): (r: real)
    ensures r >= 0.0
    ensures forall p :: p in ps && f(p).Some? ==> f(p).value <= r
  {
    if |ps| == 0 then 0.0
    else
      var m := MaxOf(ps[..|ps| - 1], f);
      assert forall p :: p in ps ==> p in ps[..|ps| - 1] || p == ps[|ps| - 1];
      match f(ps[|ps| - 1])
      case None => m
      case Some(v) => Max(m, v)
  }

  /** The maximum is reached: it is the starting 0 or one of the values `f`
    * yields, as `max(...)` returns one of its arguments. */
  lemma {:induction false} MaxOfAttained(ps: seq<DataPoint>, f: DataPoint -> Option<real>)
    ensures MaxOf(ps, f) == 0.0 || exists p :: p in ps && f(p) == Some(MaxOf(ps, f))
  {
    if |ps| > 0 {
      var init := ps[..|ps| - 1];
      MaxOfAttained(init, f);
      if MaxOf(init, f) != 0.0 && MaxOf(ps, f) == MaxOf(init, f) {
        var p :| p in init && f(p) == Some(MaxOf(init, f));
        assert p in ps;
      }
    }
  }

  const WritingKeys: seq<string> := ["reading_ease", "has_abstract", "has_references", "academic_language", "has_figures"]

  /** The numeric values among the given keys of a writing-quality dict. */
  function WritingParts(q: map<string, Json>, keys: seq<string>): (r: seq<real>)
    ensures |r| <= |keys|
  {
    if |keys| == 0 then []
    else
      var rest := WritingParts(q, keys[..|keys| - 1]);
      var v := Get(q, keys[|keys| - 1]);
      if IsNumber(v) then rest + [NumValue(v)] else rest
  }

  /** Keys outside the counted ones never contribute. */
  lemma {:induction false} WritingPartsOnlyCounted(q: map<string, Json>, keys: seq<string>)
    requires forall i :: 0 <= i < |keys| ==> keys[i] !in q
    ensures WritingParts(q, keys) == []
  {
    if |keys| > 0 {
      WritingPartsOnlyCounted(q, keys[..|keys| - 1]);
    }
  }

  /** A whitepaper's mean writing-quality value, when it has any numeric part. */
  function WpQualityOf(dp: DataPoint): Option<real> {
    var q := SubMap(dp, "writing_quality");
    if !q.Obj? then None
    else
      var parts := WritingParts(q.fields, WritingKeys);
      if |parts| == 0 then None else Some(SumReals(parts) / |parts| as real)
  }

  /** A website's share of truthy company-information values. */
  function CompletenessOf(dp: DataPoint): Option<real> {
    var ci := SubMap(dp, "company_information");
    if !ci.Obj? then None
    else
      var m := ci.fields;
      var present := |set k | k in m && Truthy(m[k])|;
      Some(present as real / (if |m| < 1 then 1 else |m|) as real)
  }

  lemma CompletenessAtMostOne(dp: DataPoint)
    ensures CompletenessOf(dp).Some? ==> 0.0 <= CompletenessOf(dp).value <= 1.0
  {
    var ci := SubMap(dp, "company_information");
    if ci.Obj? {
      var m := ci.fields;
      var present := set k | k in m && Truthy(m[k]);
      SubsetCard(present, m.Keys);
    }
  }

  const CoveragePrefix := "Pitch deck section coverage: "
  const WritingPrefix := "Whitepaper writing quality: "
  const CompletenessPrefix := "Website company info completeness: "
  const MarketSizingSignal := "Pitch deck includes market sizing section"
  const MarketSummary := "Heuristic market signal score derived from pitch deck/website/whitepaper coverage."

  /** The raw market formula before clamping. */
  function MarketRaw(hasMarket: bool, cov: real, site: real, wp: real): real {
    (if hasMarket then 0.45 else 0.15) + Min(cov, 1.0) * 0.25 + Min(site, 1.0) * 0.2 + Min(wp, 1.0) * 0.1
  }

  function MarketSignals(hasMarket: bool, cov: real, wp: real, site: real): seq<string> {
    (if hasMarket then [MarketSizingSignal] else [])
    + (if cov != 0.0 then [CoveragePrefix + Format2(cov)] else [])
    + (if wp != 0.0 then [WritingPrefix + Format2(wp)] else [])
    + (if site != 0.0 then [CompletenessPrefix + Format2(site)] else [])
  }

  /** Every term is non-negative and the weights sum to 1, so the clamp never
    * bites: the score lies in [15, 100], and a market-size section alone
    * lifts it to at least 45. */
  lemma MarketRawRange(hasMarket: bool, cov: real, site: real, wp: real)
    requires cov >= 0.0 && site >= 0.0 && wp >= 0.0
    ensures 15 <= Percent(MarketRaw(hasMarket, cov, site, wp)) <= 100
    ensures hasMarket ==> 45 <= Percent(MarketRaw(hasMarket, cov, site, wp))
  {
    var raw := MarketRaw(hasMarket, cov, site, wp);
    assert 0.15 <= raw <= 1.0;
    RoundMonotone(15.0, raw * 100.0);
    assert RoundHalfEven(15.0) == 15;
    if hasMarket {
      RoundMonotone(45.0, raw * 100.0);
      assert RoundHalfEven(45.0) == 45;
    }
  }

  /** `_compute_market_analysis`. */
  function MarketAnalysis(pds: seq<DataPoint>, wps: seq<DataPoint>, sites: seq<DataPoint>): (r: ScoreReport)
    ensures 15 <= r.score <= 100
    ensures AnyHasSection(pds, "market_size") ==> 45 <= r.score
  {
    var hasMarket := AnyHasSection(pds, "market_size");
    var cov := MaxOf(pds, CoverageOf);
    var wp := MaxOf(wps, WpQualityOf);
    var site := MaxOf(sites, CompletenessOf);
    MarketRawRange(hasMarket, cov, site, wp);
    ScoreReport(Percent(MarketRaw(hasMarket, cov, site, wp)), MarketSignals(hasMarket, cov, wp, site), MarketSummary)
  }

  /** The pitch-deck loop of `_compute_market_analysis`. */
  method ScanPitchDecks(pds: seq<DataPoint>) returns (hasMarket: bool, cov: real)
    ensures hasMarket == AnyHasSection(pds, "market_size")
    ensures cov == MaxOf(pds, CoverageOf)
  {
    hasMarket := false;
    cov := 0.0;
    var i := 0;
    while i < |pds|
      invariant 0 <= i <= |pds|
      invariant hasMarket == AnyHasSection(pds[..i], "market_size")
      invariant cov == MaxOf(pds[..i], CoverageOf)
    {
      assert pds[..i + 1][..i] == pds[..i];
      if HasSection(pds[i], "market_size") {
        hasMarket := true;
      }
      var c := CoverageOf(pds[i]);
      if c.Some? {
        cov := Max(cov, c.value);
      }
      assert AnyHasSection(pds[..i + 1], "market_size") == (AnyHasSection(pds[..i], "market_size") || HasSection(pds[i], "market_size")) by {
        if HasSection(pds[i], "market_size") {
          assert pds[..i + 1][i] == pds[i];
        }
      }
      i := i + 1;
    }
    assert pds[..i] == pds;
  }

  /** The inner loop over the writing-quality keys. */
  method CollectWritingParts(q: map<string, Json>) returns (parts: seq<real>)
    ensures parts == WritingParts(q, WritingKeys)
  {
    parts := [];
    var j := 0;
    while j < |WritingKeys|
      invariant 0 <= j <= |WritingKeys|
      invariant parts == WritingParts(q, WritingKeys[..j])
    {
      assert WritingKeys[..j + 1][..j] == WritingKeys[..j];
      var v := Get(q, WritingKeys[j]);
      if IsNumber(v) {
        parts := parts + [NumValue(v)];
      }
      j := j + 1;
    }
    assert WritingKeys[..j] == WritingKeys;
  }

  /** The whitepaper loop of `_compute_market_analysis`. */
  method ScanWhitepapers(wps: seq<DataPoint>) returns (wp: real)
    ensures wp == MaxOf(wps, WpQualityOf)
  {
    wp := 0.0;
    var i := 0;
    while i < |wps|
      invariant 0 <= i <= |wps|
      invariant wp == MaxOf(wps[..i], WpQualityOf)
    {
      assert wps[..i + 1][..i] == wps[..i];
      var q := SubMap(wps[i], "writing_quality");
      if q.Obj? {
        var parts := CollectWritingParts(q.fields);
        if |parts| > 0 {
          wp := Max(wp, SumReals(parts) / |parts| as real);
        }
      }
      i := i + 1;
    }
    assert wps[..i] == wps;
  }

  /** The website loop of `_compute_market_analysis`. */
  method ScanSites(sites: seq<DataPoint>) returns (site: real)
    ensures site == MaxOf(sites, CompletenessOf)
  {
    site := 0.0;
    var i := 0;
    while i < |sites|
      invariant 0 <= i <= |sites|
      invariant site == MaxOf(sites[..i], CompletenessOf)
    {
      assert sites[..i + 1][..i] == sites[..i];
      var c := CompletenessOf(sites[i]);
      if c.Some? {
        site := Max(site, c.value);
      }
      i := i + 1;
    }
    assert sites[..i] == sites;
  }

  method ComputeMarketAnalysis(pds: seq<DataPoint>, wps: seq<DataPoint>, sites: seq<DataPoint>) returns (r: ScoreReport)
    ensures r == MarketAnalysis(pds, wps, sites)
    ensures 15 <= r.score <= 100
  {
    var hasMarket, cov := ScanPitchDecks(pds);
    var wp := ScanWhitepapers(wps);
    var site := ScanSites(sites);
    r := ScoreReport(Percent(MarketRaw(hasMarket, cov, site, wp)), MarketSignals(hasMarket, cov, wp, site), MarketSummary);
  }

  // ------------------------------------------------------------- competition

  const PagesPrefix := "Website pages crawled: "
  const CompetitiveSignal := "Pitch deck discusses competitive advantage"
  const CompetitionSummary := "Competition analysis is inferred from presence of competitive sections and website coverage."

  /** The page count a website record contributes, as written: only a
    * dictionary-valued `crawled_pages` is counted. */
  function PagesAsWritten(dp: DataPoint): Option<real> {
    var cp := SubMap(dp, "crawled_pages");
    if cp.Obj? then Some(|cp.fields| as real) else None
  }

  /** The page count with the crawler's own list-valued `crawled_pages` counted too. */
  function Pages(dp: DataPoint): Option<real> {
    var cp := SubMap(dp, "crawled_pages");
    if cp.Obj? then Some(|cp.fields| as real)
    else if cp.Arr? then Some(|cp.items| as real)
    else None
  }

  /** The score lies in [30, 100], and at least 60 with a competitive-advantage section. */
  function CompetitionFrom(hasComp: bool, pages: real): (r: ScoreReport)
    requires pages >= 0.0
    ensures 30 <= r.score <= 100
    ensures hasComp ==> 60 <= r.score
  {
    var page := pages.Floor;
    var raw := (if hasComp then 0.6 else 0.3) + Min(pages / 10.0, 1.0) * 0.4;
    RoundMonotone(30.0, raw * 100.0);
    assert RoundHalfEven(30.0) == 30;
    RoundMonotone(60.0, if hasComp then raw * 100.0 else 60.0);
    assert RoundHalfEven(60.0) == 60;
    ScoreReport(
      Percent(raw),
      (if hasComp then [CompetitiveSignal] else [])
      + (if pages != 0.0 then [PagesPrefix + IntToString(page)] else []),
      CompetitionSummary)
  }

  /** `_compute_competition` under a given reading of a website record's page
    * count: `PagesAsWritten` is the code as written, `Pages` the corrected one. */
  function CompetitionBy(pds: seq<DataPoint>, sites: seq<DataPoint>, pageCount: DataPoint -> Option<real>): ScoreReport {
    CompetitionFrom(AnyHasSection(pds, "competitive_advantage"), MaxOf(sites, pageCount))
  }

  /** `_compute_competition` as written. */
  function CompetitionAsWritten(pds: seq<DataPoint>, sites: seq<DataPoint>): ScoreReport {
    CompetitionBy(pds, sites, PagesAsWritten)
  }

  /** `_compute_competition` with list-valued page collections counted. */
  function Competition(pds: seq<DataPoint>, sites: seq<DataPoint>): ScoreReport {
    CompetitionBy(pds, sites, Pages)
  }

  /** A real crawl stores its pages as a list: as written it earns no page
    * credit, while the corrected count gives it 12 points. */
  lemma CompetitionIgnoresPageList()
    ensures var page := Obj(map["url" := Str("https://acme.example.com/about")]);
      var site := DataPoint("Acme", Website, Null, Null, map["crawled_pages" := Arr([page, page, page])],
                            "", 0.5, [], [], [], 0, [], None);
      && CompetitionAsWritten([], [site]).score == 30
      && Competition([], [site]).score == 42
  {
    var page := Obj(map["url" := Str("https://acme.example.com/about")]);
    var site := DataPoint("Acme", Website, Null, Null, map["crawled_pages" := Arr([page, page, page])],
                          "", 0.5, [], [], [], 0, [], None);
    assert [site][..0] == [];
    assert MaxOf([site], PagesAsWritten) == 0.0;
    assert MaxOf([site], Pages) == 3.0;
    assert RoundHalfEven(30.0) == 30;
    assert RoundHalfEven(42.0) == 42;
  }

  /** `_compute_competition`'s two loops, under the given page-count reading. */
  method ComputeCompetition(pds: seq<DataPoint>, sites: seq<DataPoint>, pageCount: DataPoint -> Option<real>)
    returns (r: ScoreReport)
    ensures r == CompetitionBy(pds, sites, pageCount)
  {
    var hasComp := false;
    var i := 0;
    while i < |pds|
      invariant 0 <= i <= |pds|
      invariant hasComp == AnyHasSection(pds[..i], "competitive_advantage")
    {
      if HasSection(pds[i], "competitive_advantage") {
        hasComp := true;
      }
      assert AnyHasSection(pds[..i + 1], "competitive_advantage") == (AnyHasSection(pds[..i], "competitive_advantage") || HasSection(pds[i], "competitive_advantage")) by {
        assert forall j :: 0 <= j < i ==> pds[..i + 1][j] == pds[..i][j];
        assert pds[..i + 1][i] == pds[i];
      }
      i := i + 1;
    }
    assert pds[..i] == pds;
    var pages := 0.0;
    i := 0;
    while i < |sites|
      invariant 0 <= i <= |sites|
      invariant pages == MaxOf(sites[..i], pageCount)
    {
      assert sites[..i + 1][..i] == sites[..i];
      var p := pageCount(sites[i]);
      if p.Some? {
        pages := Max(pages, p.value);
      }
      i := i + 1;
    }
    assert sites[..i] == sites;
    r := CompetitionFrom(hasComp, pages);
  }

  // ------------------------------------------------------------- token utility

  /** A token record's numeric `quality_score`, else its confidence. */
  function TokenValue(dp: DataPoint): real {
    var qs := Get(dp.structuredData, "quality_score");
    if IsNumber(qs) then NumValue(qs) else dp.confidence
  }

  const NoTokenSignal := "No tokenomics data available"
  const NoTokenSummary := "Token utility score could not be computed due to missing token data."
  const TokenSignal := "Derived from tokenomics collector quality/confidence"
  const TokenSummary := "Heuristic token utility proxy based on available tokenomics data quality."

  /** `_compute_token_utility`. */
  function TokenUtility(ts: seq<DataPoint>): (r: ScoreReport)
    ensures 0 <= r.score <= 100
  {
    if |ts| == 0 then
      ScoreReport(0, [NoTokenSignal], NoTokenSummary)
    else
      ScoreReport(Percent(SumBy(ts, TokenValue) / |ts| as real),
                  [TokenSignal],
                  TokenSummary)
  }

  lemma TokenUtilitySpec(ts: seq<DataPoint>)
    ensures 0 <= TokenUtility(ts).score <= 100
    ensures |ts| == 0 <==> TokenUtility(ts).signals == [NoTokenSignal]
    ensures |ts| == 0 ==> TokenUtility(ts).score == 0
  {
  }

  method ComputeTokenUtility(tokens: seq<DataPoint>) returns (r: ScoreReport)
    ensures r == TokenUtility(tokens)
  {
    if |tokens| == 0 {
      return ScoreReport(0, [NoTokenSignal], NoTokenSummary);
    }
    var total := 0.0;
    var i := 0;
    while i < |tokens|
      invariant 0 <= i <= |tokens|
      invariant total == SumBy(tokens[..i], TokenValue)
    {
      assert tokens[..i + 1][..i] == tokens[..i];
      total := total + TokenValue(tokens[i]);
      i := i + 1;
    }
    assert tokens[..i] == tokens;
    r := ScoreReport(Percent(total / |tokens| as real),
                     [TokenSignal],
                     TokenSummary);
  }

  // ------------------------------------------------------------- weaknesses and fit

  const ScoreWeaknesses: seq<string> := [
    "Low founder/team signal score",
    "Weak market evidence (limited market sizing / positioning signals)",
    "Limited competitive differentiation evidence",
    "Token utility/quality signal is weak or missing"
  ]

  const MissingWeaknesses: seq<string> := [
    "No pitch deck data collected",
    "No whitepaper data collected",
    "No website crawl data collected",
    "No tokenomics data collected",
    "No founder background data collected"
  ]

  /** Which of the nine weaknesses apply: a sub-score strictly below 40, then an empty role. */
  function WeaknessFlags(f: int, m: int, c: int, t: int, collected: map<string, seq<DataPoint>>): (r: seq<bool>)
    ensures |r| == 9
  {
    [ f < 40, m < 40, c < 40, t < 40,
      |Role(collected, Roles[0])| == 0, |Role(collected, Roles[1])| == 0, |Role(collected, Roles[2])| == 0,
      |Role(collected, Roles[3])| == 0, |Role(collected, Roles[4])| == 0 ]
  }

  /** `_identify_weaknesses`: the applicable entries of the fixed list, in its order. */
  function Weaknesses(f: int, m: int, c: int, t: int, collected: map<string, seq<DataPoint>>): seq<string> {
    Select(ScoreWeaknesses + MissingWeaknesses, WeaknessFlags(f, m, c, t, collected))
  }

  lemma WeaknessTextsDistinct()
    ensures Distinct(ScoreWeaknesses + MissingWeaknesses)
  {
    var w := ScoreWeaknesses + MissingWeaknesses;
    forall i, j | 0 <= i < j < |w| ensures w[i] != w[j] {
      if |w[i]| == |w[j]| {
        assert w[i][3] != w[j][3] || w[i][4] != w[j][4];
      }
    }
  }

  /** At most nine entries; each score weakness is present exactly when its
    * score is strictly below 40. */
  lemma WeaknessesSpec(f: int, m: int, c: int, t: int, collected: map<string, seq<DataPoint>>)
    ensures var w := Weaknesses(f, m, c, t, collected);
      && |w| <= 9
      && (ScoreWeaknesses[0] in w <==> f < 40)
      && (ScoreWeaknesses[1] in w <==> m < 40)
      && (ScoreWeaknesses[2] in w <==> c < 40)
      && (ScoreWeaknesses[3] in w <==> t < 40)
  {
    var all := ScoreWeaknesses + MissingWeaknesses;
    var flags := WeaknessFlags(f, m, c, t, collected);
    WeaknessTextsDistinct();
    SelectMembers(all, flags);
    assert flags[0] == (f < 40) && flags[1] == (m < 40) && flags[2] == (c < 40) && flags[3] == (t < 40);
    assert forall i :: 0 <= i < 4 ==> all[i] == ScoreWeaknesses[i];
  }

  /** Each missing-data weakness is present exactly when its role is empty. */
  lemma MissingWeaknessesSpec(f: int, m: int, c: int, t: int, collected: map<string, seq<DataPoint>>)
    ensures var w := Weaknesses(f, m, c, t, collected);
      forall i :: 0 <= i < 5 ==> (MissingWeaknesses[i] in w <==> |Role(collected, Roles[i])| == 0)
  {
    var all := ScoreWeaknesses + MissingWeaknesses;
    var flags := WeaknessFlags(f, m, c, t, collected);
    WeaknessTextsDistinct();
    SelectMembers(all, flags);
    assert forall i :: 0 <= i < 5 ==> all[4 + i] == MissingWeaknesses[i];
  }

  datatype Fit = Fit(score: int, rating: string, rationale: string)

  function Rating(score: int): string {
    if score >= 75 then "strong" else if score >= 55 then "moderate" else "weak"
  }

  const FitRationale := "Weighted composite of founder/market/competition/token signals with a small penalty for flagged weaknesses."

  /** `_compute_investor_fit` with `n` weaknesses. */
  function InvestorFit(f: int, m: real, c: real, t: real, n: nat): (r: Fit)
    ensures 0 <= r.score <= 100
  {
    var normalized := f as real / 100.0 * 0.35 + m / 100.0 * 0.3 + c / 100.0 * 0.15 + t / 100.0 * 0.2;
    var penalty := Min(n as real * 0.02, 0.2);
    var score := Percent(normalized - penalty);
    Fit(score, Rating(score), FitRationale)
  }

  /** The score lies in [0, 100] and its tier follows the 75/55 thresholds;
    * with sub-scores in [0, 100] and at most nine weaknesses, one more
    * weakness never raises the score. */
  lemma InvestorFitSpec(f: int, m: real, c: real, t: real, n: nat)
    ensures 0 <= InvestorFit(f, m, c, t, n).score <= 100
    ensures InvestorFit(f, m, c, t, n).rating == "strong" <==> InvestorFit(f, m, c, t, n).score >= 75
    ensures InvestorFit(f, m, c, t, n).rating == "moderate" <==> 55 <= InvestorFit(f, m, c, t, n).score < 75
    ensures InvestorFit(f, m, c, t, n).rating == "weak" <==> InvestorFit(f, m, c, t, n).score < 55
    ensures n <= 9 ==> Min(n as real * 0.02, 0.2) <= 0.18
    ensures InvestorFit(f, m, c, t, n + 1).score <= InvestorFit(f, m, c, t, n).score
  {
    var normalized := f as real / 100.0 * 0.35 + m / 100.0 * 0.3 + c / 100.0 * 0.15 + t / 100.0 * 0.2;
    var x := Clamp01(normalized - Min((n + 1) as real * 0.02, 0.2));
    var y := Clamp01(normalized - Min(n as real * 0.02, 0.2));
    assert x <= y;
    RoundMonotone(x * 100.0, y * 100.0);
  }

  // ------------------------------------------------------------- the report

  datatype Report = Report(
    startupName: string,
    keywords: seq<string>,
    collectionTimestamp: string,
    founderScore: int,
    market: ScoreReport,
    competition: ScoreReport,
    tokenUtility: ScoreReport,
    weaknesses: seq<string>,
    investorFit: Fit,
    dataPoints: map<string, seq<map<string, Json>>>)

  function Dicts(ps: seq<DataPoint>): (r: seq<map<string, Json>>)
    ensures |r| == |ps| && forall i :: 0 <= i < |ps| ==> r[i] == ToDict(ps[i])
  {
    seq(|ps|, i requires 0 <= i < |ps| => ToDict(ps[i]))
  }

  /** The `data_points` part of the report: every collected point as a dict,
    * under its role. */
  function DataPointDicts(collected: map<string, seq<DataPoint>>): (r: map<string, seq<map<string, Json>>>)
    ensures r.Keys == collected.Keys
    ensures forall k :: k in r ==> |r[k]| == |collected[k]|
  {
    map k | k in collected :: Dicts(collected[k])
  }

  /** The report built from a filled `collected` map, with the competition
    * score under the given page-count reading (`PagesAsWritten` for the code
    * as written). Whatever the collectors did and under either reading, every
    * score is in its range and there are at most nine weaknesses. */
  function ReportFrom(name: string, kws: seq<string>, collected: map<string, seq<DataPoint>>, now: string,
                      pageCount: DataPoint -> Option<real>): (r: Report)
    ensures 0 <= r.founderScore <= 100
    ensures 15 <= r.market.score <= 100
    ensures 30 <= r.competition.score <= 100
    ensures 0 <= r.tokenUtility.score <= 100
    ensures |r.weaknesses| <= 9
    ensures 0 <= r.investorFit.score <= 100
    ensures r.dataPoints.Keys == collected.Keys
  {
    var f := FounderScore(Role(collected, "founders"));
    var m := MarketAnalysis(Role(collected, "pitch_deck"), Role(collected, "whitepaper"), Role(collected, "website"));
    var c := CompetitionBy(Role(collected, "pitch_deck"), Role(collected, "website"), pageCount);
    var t := TokenUtility(Role(collected, "tokenomics"));
    var w := Weaknesses(f, m.score, c.score, t.score, collected);
    var fit := InvestorFit(f, m.score as real, c.score as real, t.score as real, |w|);
    var dps := DataPointDicts(collected);
    Report(name, kws, now, f, m, c, t, w, fit, dps)
  }

  lemma {:induction false} MaxOfAgree(ps: seq<DataPoint>, f: DataPoint -> Option<real>, g: DataPoint -> Option<real>)
    requires forall p :: p in ps ==> f(p) == g(p)
    ensures MaxOf(ps, f) == MaxOf(ps, g)
  {
    if |ps| > 0 {
      assert forall p :: p in ps[..|ps| - 1] ==> p in ps;
      MaxOfAgree(ps[..|ps| - 1], f, g);
      assert ps[|ps| - 1] in ps;
    }
  }

  /** The two readings of the page count give the same report unless some
    * website record stores its crawled pages as a list, as the crawler does;
    * and whatever the records, they differ at most in the competition score,
    * the weaknesses and the fit. */
  lemma ReadingsAgree(name: string, kws: seq<string>, collected: map<string, seq<DataPoint>>, now: string)
    ensures var w := ReportFrom(name, kws, collected, now, PagesAsWritten);
      var c := ReportFrom(name, kws, collected, now, Pages);
      && w.founderScore == c.founderScore && w.market == c.market && w.tokenUtility == c.tokenUtility
      && w.dataPoints == c.dataPoints
    ensures (forall p :: p in Role(collected, "website") ==> !SubMap(p, "crawled_pages").Arr?) ==>
      ReportFrom(name, kws, collected, now, PagesAsWritten) == ReportFrom(name, kws, collected, now, Pages)
  {
    if forall p :: p in Role(collected, "website") ==> !SubMap(p, "crawled_pages").Arr? {
      MaxOfAgree(Role(collected, "website"), PagesAsWritten, Pages);
    }
  }

  /** With every role empty (each collector returned nothing or failed, see
    * `CollectedSpec`) the sub-scores are 0, 15, 30 and 0. */
  lemma AllEmptyScores(name: string, kws: seq<string>, collected: map<string, seq<DataPoint>>, now: string,
                       pageCount: DataPoint -> Option<real>)
    requires forall i :: 0 <= i < 5 ==> Role(collected, Roles[i]) == []
    ensures var r := ReportFrom(name, kws, collected, now, pageCount);
      && r.founderScore == 0 && r.market.score == 15 && r.competition.score == 30 && r.tokenUtility.score == 0
  {
    assert Role(collected, Roles[0]) == [] && Role(collected, Roles[1]) == [] && Role(collected, Roles[2]) == [];
    assert Role(collected, Roles[3]) == [] && Role(collected, Roles[4]) == [];
    assert RoundHalfEven(15.0) == 15;
    assert RoundHalfEven(30.0) == 30;
  }

  /** With every role empty all nine weaknesses are listed, in order. */
  lemma AllEmptyWeaknesses(name: string, kws: seq<string>, collected: map<string, seq<DataPoint>>, now: string,
                       pageCount: DataPoint -> Option<real>)
    requires forall i :: 0 <= i < 5 ==> Role(collected, Roles[i]) == []
    ensures ReportFrom(name, kws, collected, now, pageCount).weaknesses == ScoreWeaknesses + MissingWeaknesses
  {
    AllEmptyScores(name, kws, collected, now, pageCount);
    var r := ReportFrom(name, kws, collected, now, pageCount);
    assert r.weaknesses == Weaknesses(r.founderScore, r.market.score, r.competition.score, r.tokenUtility.score, collected);
    AllEmptyFlags(collected);
  }

  lemma AllEmptyFlags(collected: map<string, seq<DataPoint>>)
    requires forall i :: 0 <= i < 5 ==> Role(collected, Roles[i]) == []
    ensures Weaknesses(0, 15, 30, 0, collected) == ScoreWeaknesses + MissingWeaknesses
  {
    var flags := WeaknessFlags(0, 15, 30, 0, collected);
    assert forall i :: 0 <= i < 9 ==> flags[i];
    SelectAll(ScoreWeaknesses + MissingWeaknesses, flags);
  }

  /** With every role empty the investor fit is 0, "weak". */
  lemma AllEmptyFit(name: string, kws: seq<string>, collected: map<string, seq<DataPoint>>, now: string,
                       pageCount: DataPoint -> Option<real>)
    requires forall i :: 0 <= i < 5 ==> Role(collected, Roles[i]) == []
    ensures ReportFrom(name, kws, collected, now, pageCount).investorFit.score == 0
    ensures ReportFrom(name, kws, collected, now, pageCount).investorFit.rating == "weak"
  {
    AllEmptyScores(name, kws, collected, now, pageCount);
    AllEmptyWeaknesses(name, kws, collected, now, pageCount);
    assert |ReportFrom(name, kws, collected, now, pageCount).weaknesses| == 9;
    assert Percent(0.09 - 0.18) == 0;
  }


  /** `run_full_pipeline` from the results of its five collector tasks, with
    * the competition score under the given page-count reading. */
  method RunFullPipeline(name: string, kws: seq<string>, results: seq<TaskResult>, now: string,
                         pageCount: DataPoint -> Option<real>) returns (report: Report)
    requires |results| == 5
    ensures report == ReportFrom(name, kws, Collected(results), now, pageCount)
  {
    var collected := FanIn(results);
    var f := ComputeFounderScore(Role(collected, "founders"));
    var m := ComputeMarketAnalysis(Role(collected, "pitch_deck"), Role(collected, "whitepaper"), Role(collected, "website"));
    var c := ComputeCompetition(Role(collected, "pitch_deck"), Role(collected, "website"), pageCount);
    var t := ComputeTokenUtility(Role(collected, "tokenomics"));
    var w := Weaknesses(f, m.score, c.score, t.score, collected);
    var fit := InvestorFit(f, m.score as real, c.score as real, t.score as real, |w|);
    report := Report(name, kws, now, f, m, c, t, w, fit, map k | k in collected :: Dicts(collected[k]));
  }
}
