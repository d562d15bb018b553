// The end-to-end scoring fixture of the agent's regression test
// (test_dqda_agent.py:42-131): one record per role, and the scores the
// scoring engine gives them.

module DqdaFixture {
  import opened Values
  import opened BaseCollector
  import opened DqdaAgent

  /** A record of the fixture: only the source, the structured data and the
    * confidence matter to the scores. */
  function Record(src: DataSource, data: map<string, Json>, confidence: real): DataPoint {
    DataPoint("Acme Protocol", src, Null, Null, data, "", confidence, [], [], [], 0, [], None)
  }

  const PitchDeckRecord := Record(PitchDeck, map[
    "sections" := Obj(map["market_size" := Str("TAM is $1B"), "competitive_advantage" := Str("moat")]),
    "quality_indicators" := Obj(map["section_coverage" := Num(0.8)])], 0.85)

  const WhitepaperRecord := Record(Whitepaper, map[
    "writing_quality" := Obj(map["overall_quality" := Num(0.7)]),
    "key_insights" := Arr([Str("insight 1")])], 0.8)

  const CompanyInformation: map<string, Json> :=
    map["industry" := Str("DeFi"), "description" := Str("On-chain credit"), "location" := Str("Remote")]

  const WebsiteRecord := Record(Website, map[
    "company_information" := Obj(CompanyInformation),
    "crawled_pages" := Obj(map["https://acme.example.com/about" := Obj(map["title" := Str("About")])])], 0.75)

  const TokenRecord := Record(Tokenomics, map["quality_score" := Num(0.9)], 0.9)

  const FounderRecord := Record(FounderProfile, map[
    "founder_name" := Str("Jane Doe"),
    "overall_assessment" := Obj(map["overall_score" := Num(0.76), "recommendation" := Str("positive")])], 0.8)

  /** The founder's assessment score 0.76 gives 76. */
  lemma FixtureFounderScore()
    ensures FounderScore([FounderRecord]) == 76
  {
    assert [FounderRecord][..0] == [];
    assert SumBy([FounderRecord], FounderValue) == 0.76;
    assert RoundHalfEven(76.0) == 76;
  }

  /** Every company-information value is truthy, so completeness is 1. */
  lemma FixtureCompleteness()
    ensures CompletenessOf(WebsiteRecord) == Some(1.0)
  {
    var m := CompanyInformation;
    assert (set k | k in m && Truthy(m[k])) == m.Keys;
    assert |m.Keys| == 3;
  }

  /** Market: 0.45 for the market-size section, 0.25·0.8 for coverage, 0.2
    * for the complete company information and nothing for the whitepaper,
    * whose only key is not one of the five counted ones: 85. */
  lemma FixtureMarketScore()
    ensures MarketAnalysis([PitchDeckRecord], [WhitepaperRecord], [WebsiteRecord]).score == 85
  {
    assert HasSection([PitchDeckRecord][0], "market_size");
    assert AnyHasSection([PitchDeckRecord], "market_size");
    assert [PitchDeckRecord][..0] == [] && [WhitepaperRecord][..0] == [] && [WebsiteRecord][..0] == [];
    assert MaxOf([PitchDeckRecord], CoverageOf) == 0.8;
    WritingPartsOnlyCounted(map["overall_quality" := Num(0.7)], WritingKeys);
    assert MaxOf([WhitepaperRecord], WpQualityOf) == 0.0;
    FixtureCompleteness();
    assert MaxOf([WebsiteRecord], CompletenessOf) == 1.0;
    assert MarketRaw(true, 0.8, 1.0, 0.0) == 0.85;
    assert RoundHalfEven(85.0) == 85;
  }

  /** Competition: 0.6 for the competitive-advantage section and 0.4·1/10 for
    * one page: 64. The fixture stores its pages as a dictionary, so the code
    * as written and the corrected count agree. */
  lemma FixtureCompetitionScore(pageCount: DataPoint -> Option<real>)
    requires pageCount(WebsiteRecord) == Some(1.0)
    ensures CompetitionBy([PitchDeckRecord], [WebsiteRecord], pageCount).score == 64
  {
    assert HasSection([PitchDeckRecord][0], "competitive_advantage");
    assert AnyHasSection([PitchDeckRecord], "competitive_advantage");
    assert [WebsiteRecord][..0] == [];
    assert MaxOf([WebsiteRecord], pageCount) == 1.0;
    assert RoundHalfEven(64.0) == 64;
  }

  lemma FixturePages()
    ensures PagesAsWritten(WebsiteRecord) == Some(1.0) && Pages(WebsiteRecord) == Some(1.0)
  {
  }

  /** Token utility: the quality score 0.9 gives 90. */
  lemma FixtureTokenScore()
    ensures TokenUtility([TokenRecord]).score == 90
  {
    assert [TokenRecord][..0] == [];
    assert SumBy([TokenRecord], TokenValue) == 0.9;
    assert RoundHalfEven(90.0) == 90;
  }

  /** With every role filled and every score at least 40 there is no weakness,
    * and the fit is 0.797, so 80 and "strong". */
  lemma FixtureVerdict(collected: map<string, seq<DataPoint>>)
    requires forall i :: 0 <= i < 5 ==> |Role(collected, Roles[i])| > 0
    ensures Weaknesses(76, 85, 64, 90, collected) == []
    ensures InvestorFit(76, 85.0, 64.0, 90.0, 0) == Fit(80, "strong", FitRationale)
  {
    var flags := WeaknessFlags(76, 85, 64, 90, collected);
    assert forall i :: 0 <= i < 9 ==> !flags[i];
    SelectNone(ScoreWeaknesses + MissingWeaknesses, flags);
    assert RoundHalfEven(79.7) == 80;
  }

  const FixtureCollected: map<string, seq<DataPoint>> := map[
    "pitch_deck" := [PitchDeckRecord], "whitepaper" := [WhitepaperRecord], "website" := [WebsiteRecord],
    "tokenomics" := [TokenRecord], "founders" := [FounderRecord]]

  /** The whole report for the fixture, under either reading of the page
    * count: founder 76, market 85, competition 64, token 90, no weakness and
    * an investor fit of 80, "strong". */
  lemma FixtureReport(name: string, kws: seq<string>, now: string, pageCount: DataPoint -> Option<real>)
    requires pageCount(WebsiteRecord) == Some(1.0)
    ensures var r := ReportFrom(name, kws, FixtureCollected, now, pageCount);
      && r.founderScore == 76 && r.market.score == 85 && r.competition.score == 64 && r.tokenUtility.score == 90
      && r.weaknesses == [] && r.investorFit == Fit(80, "strong", FitRationale)
  {
    var c := FixtureCollected;
    assert Role(c, "pitch_deck") == [PitchDeckRecord] && Role(c, "whitepaper") == [WhitepaperRecord];
    assert Role(c, "website") == [WebsiteRecord] && Role(c, "tokenomics") == [TokenRecord];
    assert Role(c, "founders") == [FounderRecord];
    FixtureFounderScore();
    FixtureMarketScore();
    FixtureCompetitionScore(pageCount);
    FixtureTokenScore();
    assert forall i :: 0 <= i < 5 ==> |Role(c, Roles[i])| > 0;
    FixtureVerdict(c);
  }
}
