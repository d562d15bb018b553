// The seed-funding collector (agent/data_collectors/seed_funding_collector.py):
// it concatenates the rounds of four simulated sources and summarises them
// into investor metrics.

module SeedFunding {
  import opened Values
  import DataParser

  type Record = map<string, Json>

  // ------------------------------------------------------------- collection

  /** A list cut to `m` and followed by anything agrees with the uncut list
    * followed by the same on the first `n <= m` entries. */
  lemma CapInside(s: seq<Record>, t: seq<Record>, m: nat, n: nat)
    requires n <= m
    ensures PySlice(PySlice(s, m) + t, n) == PySlice(s + t, n)
  {
    if m < |s| {
      assert (s[..m] + t)[..n] == s[..n];
      assert (s + t)[..n] == s[..n];
    }
  }

  lemma CapMiddle(x: seq<Record>, s: seq<Record>, t: seq<Record>, n: nat)
    ensures PySlice(x + PySlice(s, n) + t, n) == PySlice(x + s + t, n)
  {
    if n <= |x| {
      assert (x + PySlice(s, n) + t)[..n] == x[..n];
      assert (x + s + t)[..n] == x[..n];
    } else {
      var k := n - |x|;
      CapInside(s, t, n, k);
      var u, v := PySlice(s, n) + t, s + t;
      assert x + PySlice(s, n) + t == x + u;
      assert x + s + t == x + v;
      if k < |u| {
        assert (x + u)[..n] == x + u[..k];
      } else {
        assert PySlice(x + u, n) == x + u;
      }
      if k < |v| {
        assert (x + v)[..n] == x + v[..k];
      } else {
        assert PySlice(x + v, n) == x + v;
      }
    }
  }

  lemma CapLast(x: seq<Record>, s: seq<Record>, n: nat)
    ensures PySlice(x + PySlice(s, n), n) == PySlice(x + s, n)
  {
    CapMiddle(x, s, [], n);
    assert x + PySlice(s, n) + [] == x + PySlice(s, n);
    assert x + s + [] == x + s;
  }

  lemma CapSecond(x: seq<Record>, s: seq<Record>, t1: seq<Record>, t2: seq<Record>, n: nat)
    ensures PySlice(x + PySlice(s, n) + t1 + t2, n) == PySlice(x + s + t1 + t2, n)
  {
    CapMiddle(x, s, t1 + t2, n);
    assert x + PySlice(s, n) + t1 + t2 == x + PySlice(s, n) + (t1 + t2);
    assert x + s + t1 + t2 == x + s + (t1 + t2);
  }

  lemma CapFirst(s: seq<Record>, t1: seq<Record>, t2: seq<Record>, t3: seq<Record>, n: nat)
    ensures PySlice(PySlice(s, n) + t1 + t2 + t3, n) == PySlice(s + t1 + t2 + t3, n)
  {
    CapInside(s, t1 + t2 + t3, n, n);
    assert PySlice(s, n) + t1 + t2 + t3 == PySlice(s, n) + (t1 + t2 + t3);
    assert s + t1 + t2 + t3 == s + (t1 + t2 + t3);
  }

  /** With a non-negative cap, capping every source first changes nothing:
    * the result is the first `n` rounds of the four lists appended. */
  lemma CollectPrefix(a: seq<Record>, b: seq<Record>, c: seq<Record>, d: seq<Record>, n: nat)
    ensures PySlice(PySlice(a, n) + PySlice(b, n) + PySlice(c, n) + PySlice(d, n), n)
         == PySlice(a + b + c + d, n)
  {
    var pa, pb := PySlice(a, n), PySlice(b, n);
    CapLast(pa + pb + PySlice(c, n), d, n);
    CapMiddle(pa + pb, c, d, n);
    CapSecond(pa, b, c, d, n);
    CapFirst(a, b, c, d, n);
  }

  /** `collect_seed_funding_data`: the Crunchbase, PitchBook, TechCrunch and
    * CB Insights lists (each already cut to `maxResults` by its getter) are
    * appended in that order and the total is cut to `maxResults`. */
  method CollectSeedFundingData(crunchbase: seq<Record>, pitchbook: seq<Record>, techcrunch: seq<Record>,
                                cbinsights: seq<Record>, maxResults: int) returns (r: seq<Record>)
    ensures r == PySlice(PySlice(crunchbase, maxResults) + PySlice(pitchbook, maxResults)
                         + PySlice(techcrunch, maxResults) + PySlice(cbinsights, maxResults), maxResults)
    ensures maxResults >= 0 ==> r == PySlice(crunchbase + pitchbook + techcrunch + cbinsights, maxResults)
    ensures maxResults >= 0 ==> |r| <= maxResults
  {
    var all: seq<Record> := [];
    all := all + PySlice(crunchbase, maxResults);
    all := all + PySlice(pitchbook, maxResults);
    all := all + PySlice(techcrunch, maxResults);
    all := all + PySlice(cbinsights, maxResults);
    assert all == PySlice(crunchbase, maxResults) + PySlice(pitchbook, maxResults)
                  + PySlice(techcrunch, maxResults) + PySlice(cbinsights, maxResults);
    r := PySlice(all, maxResults);
    if maxResults >= 0 {
      CollectPrefix(crunchbase, pitchbook, techcrunch, cbinsights, maxResults);
    }
  }

  // ----------------------------------------------------------------- rounds

  /** The fields of a seed round that the metrics read, with the defaults
    * of the `get` calls filled in. */
  datatype Round = Round(amount: Json, investors: seq<string>, site: string, lead: string,
                         industry: string, headquarters: string)

  const SourceSiteField := "source_site"
  const LeadInvestorField := "lead_investor"
  const IndustryField := "industry"
  const Unknown := "Unknown"
  const ZeroAmount := "0"

  /** `x.get(key, 'Unknown')` when the value is text; `None` otherwise. */
  function TextOr(x: Record, key: string): Option<string> {
    if key !in x then Some(Unknown)
    else if x[key].Str? then Some(x[key].s)
    else None
  }

  /** The round a record describes, or `None` when a key the metrics use
    * holds something other than text (or, for investors, a list of text). */
  function RoundOf(x: Record): Option<Round> {
    var investors := if DataParser.InvestorsField in x then AsStrList(x[DataParser.InvestorsField]) else Some([]);
    var site := TextOr(x, SourceSiteField);
    var lead := TextOr(x, LeadInvestorField);
    var industry := TextOr(x, IndustryField);
    var headquarters := TextOr(x, DataParser.HeadquartersField);
    if investors.None? || site.None? || lead.None? || industry.None? || headquarters.None? then None
    else Some(Round(GetOr(x, DataParser.FundingAmountField, Str(ZeroAmount)), investors.value,
                    site.value, lead.value, industry.value, headquarters.value))
  }

  /** A record without any of the keys falls back on the defaults: amount
    * "0", no investors, and "Unknown" for the four grouping fields; text
    * values are taken as they are. */
  lemma RoundDefaults(x: Record)
    requires forall k :: k in x ==> x[k].Str?
    requires DataParser.InvestorsField !in x
    ensures RoundOf(x).Some?
    ensures var r := RoundOf(x).value;
      && r.investors == []
      && r.amount == (if DataParser.FundingAmountField in x then x[DataParser.FundingAmountField] else Str(ZeroAmount))
      && r.site == (if SourceSiteField in x then x[SourceSiteField].s else Unknown)
      && r.lead == (if LeadInvestorField in x then x[LeadInvestorField].s else Unknown)
      && r.industry == (if IndustryField in x then x[IndustryField].s else Unknown)
      && r.headquarters == (if DataParser.HeadquartersField in x then x[DataParser.HeadquartersField].s else Unknown)
  {
  }

  /** What a round adds to a funding total: its parsed amount, or nothing
    * when the amount does not parse (a zero amount adds zero either way). */
  function Funding(r: Round, parse: Json -> Option<real>): real {
    FundingOf(parse(r.amount))
  }

  function FundingOf(amount: Option<real>): real {
    match amount
    case Some(v) => v
    case None => 0.0
  }

  function Init<T>(s: seq<T>): seq<T>
    requires |s| > 0
  {
    s[..|s| - 1]
  }

  function Last<T>(s: seq<T>): T
    requires |s| > 0
  {
    s[|s| - 1]
  }

  function TotalFunding(rs: seq<Round>, parse: Json -> Option<real>): real {
    if |rs| == 0 then 0.0 else TotalFunding(Init(rs), parse) + Funding(Last(rs), parse)
  }

  /** Every round's investor list, one after the other. */
  function AllInvestors(rs: seq<Round>): seq<string> {
    if |rs| == 0 then [] else AllInvestors(Init(rs)) + Last(rs).investors
  }

  /** The distinct entries of a list, as a set. */
  function Members(xs: seq<string>): set<string> {
    set x | x in xs
  }

  datatype Field = Site | Lead | Industry | Headquarters

  function KeyOf(r: Round, f: Field): string {
    match f
    case Site => r.site
    case Lead => r.lead
    case Industry => r.industry
    case Headquarters => r.headquarters
  }

  /** The value of field `f` in every round, in order. */
  function Keys(rs: seq<Round>, f: Field): (r: seq<string>)
    ensures |r| == |rs|
  {
    if |rs| == 0 then [] else Keys(Init(rs), f) + [KeyOf(Last(rs), f)]
  }

  /** The rounds whose field `f` is `k`, in order. */
  function RoundsAt(rs: seq<Round>, f: Field, k: string): seq<Round> {
    if |rs| == 0 then []
    else RoundsAt(Init(rs), f, k) + (if KeyOf(Last(rs), f) == k then [Last(rs)] else [])
  }

  /** Counting one more occurrence of `k`. */
  function Bump(t: map<string, nat>, k: string): map<string, nat> {
    t[k := (if k in t then t[k] else 0) + 1]
  }

  /** The `industry_breakdown` / `geographic_distribution` of the rounds:
    * how many rounds have each value of the field. */
  function Breakdown(rs: seq<Round>, f: Field): map<string, nat> {
    if |rs| == 0 then map[] else Bump(Breakdown(Init(rs), f), KeyOf(Last(rs), f))
  }

  datatype SiteSummary = SiteSummary(fundingRounds: nat, totalFunding: real, uniqueInvestors: set<string>)

  datatype LeadSummary = LeadSummary(investments: nat, totalInvested: real, averageInvestment: real)

  /** One more round in the source-site summary. */
  function SiteStep(m: map<string, SiteSummary>, r: Round, funding: real): map<string, SiteSummary> {
    var s := if r.site in m then m[r.site] else SiteSummary(0, 0.0, {});
    m[r.site := SiteSummary(s.fundingRounds + 1, s.totalFunding + funding,
                            s.uniqueInvestors + Members(r.investors))]
  }

  function Sites(rs: seq<Round>, parse: Json -> Option<real>): map<string, SiteSummary> {
    if |rs| == 0 then map[] else SiteStep(Sites(Init(rs), parse), Last(rs), Funding(Last(rs), parse))
  }

  /** One more round in the lead-investor summary. */
  function LeadStep(m: map<string, LeadSummary>, r: Round, funding: real): map<string, LeadSummary> {
    var s := if r.lead in m then m[r.lead] else LeadSummary(0, 0.0, 0.0);
    m[r.lead := LeadSummary(s.investments + 1, s.totalInvested + funding, s.averageInvestment)]
  }

  function Leads(rs: seq<Round>, parse: Json -> Option<real>): map<string, LeadSummary> {
    if |rs| == 0 then map[] else LeadStep(Leads(Init(rs), parse), Last(rs), Funding(Last(rs), parse))
  }

  /** The lead summary with `average_investment` filled in. */
  function Averaged(s: LeadSummary): LeadSummary {
    if s.investments > 0 then s.(averageInvestment := s.totalInvested / s.investments as real) else s
  }

  // ---------------------------------------------------------- most active

  datatype Participation = Participation(investor: string, participationCount: nat)

  /** The distinct entries of `xs` in order of first occurrence: the order
    * in which a `Counter` holds its keys. */
  function Firsts(xs: seq<string>): seq<string> {
    if |xs| == 0 then []
    else if Last(xs) in Init(xs) then Firsts(Init(xs))
    else Firsts(Init(xs)) + [Last(xs)]
  }

  /** `Firsts` keeps every entry once. */
  lemma {:induction false} FirstsMembers(xs: seq<string>)
    ensures forall x :: x in Firsts(xs) <==> x in xs
    ensures Distinct(Firsts(xs))
  {
    if |xs| > 0 {
      FirstsMembers(Init(xs));
      assert xs == Init(xs) + [Last(xs)];
    }
  }

  function Occurrences(xs: seq<string>, ks: seq<string>): (r: seq<Participation>)
    ensures |r| == |ks|
  {
    seq(|ks|, i requires 0 <= i < |ks| => Participation(ks[i], multiset(xs)[ks[i]]))
  }

  /** Places `p` before the first entry whose count is not greater, so that
    * equal counts keep their order. */
  function Insert(p: Participation, ps: seq<Participation>): seq<Participation> {
    if |ps| == 0 || ps[0].participationCount <= p.participationCount then [p] + ps
    else [ps[0]] + Insert(p, ps[1..])
  }

  /** A stable sort by decreasing count, as `sorted(..., reverse=True)`. */
  function SortByCount(ps: seq<Participation>): seq<Participation> {
    if |ps| == 0 then [] else Insert(ps[0], SortByCount(ps[1..]))
  }

  /** `Counter(xs).most_common(n)`. */
  function MostCommon(xs: seq<string>, n: nat): seq<Participation> {
    PySlice(SortByCount(Occurrences(xs, Firsts(xs))), n)
  }

  // -------------------------------------------------------------- metrics

  datatype Metrics = Metrics(
    totalSeedFunding: real,
    averageSeedRoundSize: real,
    mostActiveInvestors: seq<Participation>,
    leadInvestorsSummary: map<string, LeadSummary>,
    investorInvestmentDistribution: map<string, nat>,
    sourceSiteSummary: map<string, SiteSummary>,
    totalUniqueStartups: nat,
    totalUniqueInvestors: set<string>,
    totalSeedRounds: nat,
    averageInvestorsPerRound: real,
    industryBreakdown: map<string, nat>,
    geographicDistribution: map<string, nat>)

  const MostActiveLimit: nat := 10

  /** `DataParser.parse_funding_amount`, as the metrics call it. */
  function AmountParser(other: string -> Option<real>): Json -> Option<real> {
    j => DataParser.ParseFundingAmount(j, other)
  }

  /** What `calculate_investor_metrics` returns for the rounds `rs`, with
    * `parse` reading each funding amount. */
  function InvestorMetrics(rs: seq<Round>, parse: Json -> Option<real>): Metrics {
    var n := |rs|;
    var total := TotalFunding(rs, parse);
    var leads := Leads(rs, parse);
    Metrics(
      total,
      if n > 0 then total / n as real else 0.0,
      MostCommon(AllInvestors(rs), MostActiveLimit),
      map k | k in leads :: Averaged(leads[k]),
      map[],
      Sites(rs, parse),
      n,
      Members(AllInvestors(rs)),
      n,
      if n > 0 then |AllInvestors(rs)| as real / n as real else 0.0,
      Breakdown(rs, Industry),
      Breakdown(rs, Headquarters))
  }

  /** The source-site part of the main loop's body. */
  method AddSite(sites: map<string, SiteSummary>, r: Round, fundingAmount: Option<real>)
    returns (result: map<string, SiteSummary>)
    ensures result == SiteStep(sites, r, FundingOf(fundingAmount))
  {
    result := sites;
    if r.site !in result {
      result := result[r.site := SiteSummary(0, 0.0, {})];
    }
    result := result[r.site := result[r.site].(fundingRounds := result[r.site].fundingRounds + 1)];
    if fundingAmount.Some? && fundingAmount.value != 0.0 {
      result := result[r.site := result[r.site].(totalFunding := result[r.site].totalFunding + fundingAmount.value)];
    }
    result := result[r.site := result[r.site].(uniqueInvestors := result[r.site].uniqueInvestors + Members(r.investors))];
  }

  /** The lead-investor part of the main loop's body. */
  method AddLead(leads: map<string, LeadSummary>, r: Round, fundingAmount: Option<real>)
    returns (result: map<string, LeadSummary>)
    ensures result == LeadStep(leads, r, FundingOf(fundingAmount))
  {
    result := leads;
    if r.lead !in result {
      result := result[r.lead := LeadSummary(0, 0.0, 0.0)];
    }
    result := result[r.lead := result[r.lead].(investments := result[r.lead].investments + 1)];
    if fundingAmount.Some? && fundingAmount.value != 0.0 {
      result := result[r.lead := result[r.lead].(totalInvested := result[r.lead].totalInvested + fundingAmount.value)];
    }
  }

  /** The industry and headquarters counters of the main loop's body. */
  method AddCount(counts: map<string, nat>, k: string) returns (result: map<string, nat>)
    ensures result == Bump(counts, k)
  {
    result := counts;
    if k !in result {
      result := result[k := 0];
    }
    result := result[k := result[k] + 1];
  }

  /** The loop over `lead_investors_summary` that fills in the averages. */
  method AverageLeads(leads: map<string, LeadSummary>) returns (result: map<string, LeadSummary>)
    ensures result == map k | k in leads :: Averaged(leads[k])
  {
    result := leads;
    var todo := leads.Keys;
    while todo != {}
      invariant todo <= leads.Keys && result.Keys == leads.Keys
      invariant forall k :: k in leads ==> result[k] == if k in todo then leads[k] else Averaged(leads[k])
      decreases |todo|
    {
      var k :| k in todo;
      var investments := result[k].investments;
      var total := result[k].totalInvested;
      if investments > 0 {
        result := result[k := result[k].(averageInvestment := total / investments as real)];
      }
      todo := todo - {k};
    }
  }

  /** What one more round adds to each summary of the rounds before it. */
  lemma PrefixStep(rs: seq<Round>, i: nat, parse: Json -> Option<real>)
    requires i < |rs|
    ensures TotalFunding(rs[..i + 1], parse) == TotalFunding(rs[..i], parse) + Funding(rs[i], parse)
    ensures AllInvestors(rs[..i + 1]) == AllInvestors(rs[..i]) + rs[i].investors
    ensures Members(AllInvestors(rs[..i + 1]))
         == Members(AllInvestors(rs[..i])) + Members(rs[i].investors)
    ensures Sites(rs[..i + 1], parse) == SiteStep(Sites(rs[..i], parse), rs[i], Funding(rs[i], parse))
    ensures Leads(rs[..i + 1], parse) == LeadStep(Leads(rs[..i], parse), rs[i], Funding(rs[i], parse))
    ensures Breakdown(rs[..i + 1], Industry) == Bump(Breakdown(rs[..i], Industry), rs[i].industry)
    ensures Breakdown(rs[..i + 1], Headquarters) == Bump(Breakdown(rs[..i], Headquarters), rs[i].headquarters)
  {
    assert Init(rs[..i + 1]) == rs[..i] && Last(rs[..i + 1]) == rs[i];
  }

  /** The main loop of `calculate_investor_metrics`, over every round; the
    * entries of the `metrics` dictionary it updates are kept apart. */
  method SummariseRounds(rs: seq<Round>, parse: Json -> Option<real>) returns (m: Metrics, totalInvestorsCount: nat)
    ensures m.totalSeedFunding == TotalFunding(rs, parse)
    ensures m.totalUniqueInvestors == Members(AllInvestors(rs))
    ensures totalInvestorsCount == |AllInvestors(rs)|
    ensures m.sourceSiteSummary == Sites(rs, parse)
    ensures m.leadInvestorsSummary == Leads(rs, parse)
    ensures m.industryBreakdown == Breakdown(rs, Industry)
    ensures m.geographicDistribution == Breakdown(rs, Headquarters)
    ensures m.averageSeedRoundSize == 0.0 && m.averageInvestorsPerRound == 0.0
    ensures m.mostActiveInvestors == [] && m.investorInvestmentDistribution == map[]
    ensures m.totalUniqueStartups == |rs| && m.totalSeedRounds == |rs|
  {
    var total := 0.0;
    var unique: set<string> := {};
    var sites: map<string, SiteSummary> := map[];
    var leads: map<string, LeadSummary> := map[];
    var industries: map<string, nat> := map[];
    var places: map<string, nat> := map[];
    totalInvestorsCount := 0;
    for i := 0 to |rs|
      invariant total == TotalFunding(rs[..i], parse)
      invariant unique == Members(AllInvestors(rs[..i]))
      invariant totalInvestorsCount == |AllInvestors(rs[..i])|
      invariant sites == Sites(rs[..i], parse)
      invariant leads == Leads(rs[..i], parse)
      invariant industries == Breakdown(rs[..i], Industry)
      invariant places == Breakdown(rs[..i], Headquarters)
    {
      var r := rs[i];
      PrefixStep(rs, i, parse);
      var fundingAmount := parse(r.amount);
      if fundingAmount.Some? && fundingAmount.value != 0.0 {
        total := total + fundingAmount.value;
      }
      unique := unique + Members(r.investors);
      totalInvestorsCount := totalInvestorsCount + |r.investors|;
      sites := AddSite(sites, r, fundingAmount);
      leads := AddLead(leads, r, fundingAmount);
      industries := AddCount(industries, r.industry);
      places := AddCount(places, r.headquarters);
    }
    assert rs[..|rs|] == rs;
    m := Metrics(total, 0.0, [], leads, map[], sites, |rs|, unique, |rs|, 0.0, industries, places);
  }

  /** `calculate_investor_metrics`. */
  method CalculateInvestorMetrics(rs: seq<Round>, other: string -> Option<real>) returns (m: Metrics)
    ensures m == InvestorMetrics(rs, AmountParser(other))
  {
    var totalInvestorsCount;
    m, totalInvestorsCount := SummariseRounds(rs, AmountParser(other));

    if m.totalSeedRounds > 0 {
      m := m.(averageSeedRoundSize := m.totalSeedFunding / m.totalSeedRounds as real);
      m := m.(averageInvestorsPerRound := totalInvestorsCount as real / m.totalSeedRounds as real);
    }

    var investorList: seq<string> := [];
    for i := 0 to |rs|
      invariant investorList == AllInvestors(rs[..i])
    {
      assert Init(rs[..i + 1]) == rs[..i] && Last(rs[..i + 1]) == rs[i];
      investorList := investorList + rs[i].investors;
    }
    assert rs[..|rs|] == rs;
    m := m.(mostActiveInvestors := MostCommon(investorList, MostActiveLimit));

    var leads := AverageLeads(m.leadInvestorsSummary);
    m := m.(leadInvestorsSummary := leads);
  }

  // ------------------------------------------------ what the metrics mean

  lemma LastOfAppend(g: seq<Round>, r: Round)
    ensures Init(g + [r]) == g && Last(g + [r]) == r
  {
    assert (g + [r])[..|g|] == g;
  }

  /** The source-site summary of a group of rounds. */
  function SiteOf(g: seq<Round>, parse: Json -> Option<real>): SiteSummary {
    SiteSummary(|g|, TotalFunding(g, parse), Members(AllInvestors(g)))
  }

  /** The lead-investor summary of a group of rounds, before the averages. */
  function LeadOf(g: seq<Round>, parse: Json -> Option<real>): LeadSummary {
    LeadSummary(|g|, TotalFunding(g, parse), 0.0)
  }

  lemma {:induction false} NoRoundsAt(rs: seq<Round>, f: Field, k: string)
    requires k !in Keys(rs, f)
    ensures RoundsAt(rs, f, k) == []
  {
    if |rs| > 0 {
      NoRoundsAt(Init(rs), f, k);
    }
  }

  /** Adding a round to a group adds it to each of the group's totals. */
  lemma GroupGrows(g: seq<Round>, r: Round, parse: Json -> Option<real>)
    ensures SiteOf(g + [r], parse) == SiteSummary(|g| + 1, TotalFunding(g, parse) + Funding(r, parse),
                                                  Members(AllInvestors(g)) + Members(r.investors))
    ensures LeadOf(g + [r], parse) == LeadSummary(|g| + 1, TotalFunding(g, parse) + Funding(r, parse), 0.0)
  {
    GrowthSteps(g, r, parse);
    MembersConcat(AllInvestors(g), r.investors);
  }

  lemma GrowthSteps(g: seq<Round>, r: Round, parse: Json -> Option<real>)
    ensures TotalFunding(g + [r], parse) == TotalFunding(g, parse) + Funding(r, parse)
    ensures AllInvestors(g + [r]) == AllInvestors(g) + r.investors
  {
    LastOfAppend(g, r);
  }

  lemma MembersConcat(a: seq<string>, b: seq<string>)
    ensures Members(a + b) == Members(a) + Members(b)
  {
    assert forall x :: x in a + b <==> x in a || x in b;
  }

  /** `source_site_summary` holds one entry per site seen, and each entry
    * counts the rounds of that site, adds up their parsed amounts and
    * collects their investors. */
  lemma {:induction false} SitesMeaning(rs: seq<Round>, parse: Json -> Option<real>)
    ensures forall k :: k in Sites(rs, parse) <==> k in Keys(rs, Site)
    ensures forall k :: k in Sites(rs, parse) ==> Sites(rs, parse)[k] == SiteOf(RoundsAt(rs, Site, k), parse)
  {
    if |rs| > 0 {
      var p, r := Init(rs), Last(rs);
      SitesMeaning(p, parse);
      forall k | k in Sites(rs, parse)
        ensures Sites(rs, parse)[k] == SiteOf(RoundsAt(rs, Site, k), parse)
      {
        SiteAt(p, r, parse, k);
      }
    }
  }

  /** One key of the site summary after one more round. */
  lemma SiteAt(p: seq<Round>, r: Round, parse: Json -> Option<real>, k: string)
    requires k in Sites(p, parse) <==> k in Keys(p, Site)
    requires k in Sites(p, parse) ==> Sites(p, parse)[k] == SiteOf(RoundsAt(p, Site, k), parse)
    requires k in Sites(p + [r], parse)
    ensures Sites(p + [r], parse)[k] == SiteOf(RoundsAt(p + [r], Site, k), parse)
  {
    LastOfAppend(p, r);
    var g := RoundsAt(p, Site, k);
    if k == r.site {
      assert RoundsAt(p + [r], Site, k) == g + [r];
      GroupGrows(g, r, parse);
      if k !in Keys(p, Site) {
        NoRoundsAt(p, Site, k);
      }
    } else {
      assert RoundsAt(p + [r], Site, k) == g + [];
      assert g + [] == g;
    }
  }

  /** `lead_investors_summary` holds one entry per lead investor seen; each
    * counts that investor's rounds, adds up their parsed amounts. */
  lemma {:induction false} LeadsMeaning(rs: seq<Round>, parse: Json -> Option<real>)
    ensures forall k :: k in Leads(rs, parse) <==> k in Keys(rs, Lead)
    ensures forall k :: k in Leads(rs, parse) ==> Leads(rs, parse)[k] == LeadOf(RoundsAt(rs, Lead, k), parse)
  {
    if |rs| > 0 {
      var p, r := Init(rs), Last(rs);
      LeadsMeaning(p, parse);
      forall k | k in Leads(rs, parse)
        ensures Leads(rs, parse)[k] == LeadOf(RoundsAt(rs, Lead, k), parse)
      {
        LeadAt(p, r, parse, k);
      }
    }
  }

  /** One key of the lead summary after one more round. */
  lemma LeadAt(p: seq<Round>, r: Round, parse: Json -> Option<real>, k: string)
    requires k in Leads(p, parse) <==> k in Keys(p, Lead)
    requires k in Leads(p, parse) ==> Leads(p, parse)[k] == LeadOf(RoundsAt(p, Lead, k), parse)
    requires k in Leads(p + [r], parse)
    ensures Leads(p + [r], parse)[k] == LeadOf(RoundsAt(p + [r], Lead, k), parse)
  {
    LastOfAppend(p, r);
    var g := RoundsAt(p, Lead, k);
    if k == r.lead {
      assert RoundsAt(p + [r], Lead, k) == g + [r];
      GroupGrows(g, r, parse);
      if k !in Keys(p, Lead) {
        NoRoundsAt(p, Lead, k);
      }
    } else {
      assert RoundsAt(p + [r], Lead, k) == g + [];
      assert g + [] == g;
    }
  }

  /** `industry_breakdown` and `geographic_distribution` count the rounds
    * with each value of their field. */
  lemma {:induction false} BreakdownMeaning(rs: seq<Round>, f: Field)
    ensures forall k :: k in Breakdown(rs, f) <==> k in Keys(rs, f)
    ensures forall k :: k in Breakdown(rs, f) ==> Breakdown(rs, f)[k] == |RoundsAt(rs, f, k)|
  {
    if |rs| > 0 {
      var p, r := Init(rs), Last(rs);
      BreakdownMeaning(p, f);
      forall k | k in Breakdown(rs, f)
        ensures Breakdown(rs, f)[k] == |RoundsAt(rs, f, k)|
      {
        if k == KeyOf(r, f) && k !in Keys(p, f) {
          NoRoundsAt(p, f, k);
        }
      }
    }
  }

  /** The rounds, and the funding, of the groups named by `ks`, added up. */
  function CountOver(rs: seq<Round>, f: Field, ks: seq<string>): nat {
    if |ks| == 0 then 0 else |RoundsAt(rs, f, ks[0])| + CountOver(rs, f, ks[1..])
  }

  function FundingOver(rs: seq<Round>, f: Field, ks: seq<string>, parse: Json -> Option<real>): real {
    if |ks| == 0 then 0.0 else TotalFunding(RoundsAt(rs, f, ks[0]), parse) + FundingOver(rs, f, ks[1..], parse)
  }

  lemma {:induction false} OverAppend(rs: seq<Round>, f: Field, ks: seq<string>, k: string, parse: Json -> Option<real>)
    ensures CountOver(rs, f, ks + [k]) == CountOver(rs, f, ks) + |RoundsAt(rs, f, k)|
    ensures FundingOver(rs, f, ks + [k], parse) == FundingOver(rs, f, ks, parse) + TotalFunding(RoundsAt(rs, f, k), parse)
  {
    if |ks| > 0 {
      assert (ks + [k])[1..] == ks[1..] + [k];
      OverAppend(rs, f, ks[1..], k, parse);
    } else {
      assert [] + [k] == [k];
    }
  }

  /** One more round adds itself to the group of its own key and to no other. */
  lemma {:induction false} OverStep(p: seq<Round>, r: Round, f: Field, ks: seq<string>, parse: Json -> Option<real>)
    requires Distinct(ks)
    ensures CountOver(p + [r], f, ks) == CountOver(p, f, ks) + (if KeyOf(r, f) in ks then 1 else 0)
    ensures FundingOver(p + [r], f, ks, parse)
         == FundingOver(p, f, ks, parse) + (if KeyOf(r, f) in ks then Funding(r, parse) else 0.0)
  {
    if |ks| > 0 {
      LastOfAppend(p, r);
      var g := RoundsAt(p, f, ks[0]);
      if KeyOf(r, f) == ks[0] {
        GrowthSteps(g, r, parse);
        assert KeyOf(r, f) !in ks[1..];
      } else {
        assert g + [] == g;
      }
      OverStep(p, r, f, ks[1..], parse);
    }
  }

  /** Each round belongs to exactly one group: over the distinct values of a
    * field, the groups' round counts add up to the number of rounds and
    * their funding to the total funding. */
  lemma {:induction false} GroupsPartition(rs: seq<Round>, f: Field, parse: Json -> Option<real>)
    ensures CountOver(rs, f, Firsts(Keys(rs, f))) == |rs|
    ensures FundingOver(rs, f, Firsts(Keys(rs, f)), parse) == TotalFunding(rs, parse)
  {
    if |rs| > 0 {
      var p, r := Init(rs), Last(rs);
      assert rs == p + [r];
      GroupsPartition(p, f, parse);
      PartitionStep(p, r, f, parse);
    }
  }

  lemma PartitionStep(p: seq<Round>, r: Round, f: Field, parse: Json -> Option<real>)
    requires CountOver(p, f, Firsts(Keys(p, f))) == |p|
    requires FundingOver(p, f, Firsts(Keys(p, f)), parse) == TotalFunding(p, parse)
    ensures CountOver(p + [r], f, Firsts(Keys(p + [r], f))) == |p| + 1
    ensures FundingOver(p + [r], f, Firsts(Keys(p + [r], f)), parse) == TotalFunding(p, parse) + Funding(r, parse)
  {
    var x := KeyOf(r, f);
    var ks := Firsts(Keys(p, f));
    FirstsMembers(Keys(p, f));
    LastOfAppend(p, r);
    var keys := Keys(p + [r], f);
    assert Init(keys) == Keys(p, f) && Last(keys) == x;
    OverStep(p, r, f, ks, parse);
    if x !in Keys(p, f) {
      assert Firsts(keys) == ks + [x];
      OverAppend(p + [r], f, ks, x, parse);
      NewGroup(p, r, f, parse);
    }
  }

  lemma NewGroup(p: seq<Round>, r: Round, f: Field, parse: Json -> Option<real>)
    requires KeyOf(r, f) !in Keys(p, f)
    ensures |RoundsAt(p + [r], f, KeyOf(r, f))| == 1
    ensures TotalFunding(RoundsAt(p + [r], f, KeyOf(r, f)), parse) == Funding(r, parse)
  {
    NoRoundsAt(p, f, KeyOf(r, f));
    LastOfAppend(p, r);
    assert RoundsAt(p + [r], f, KeyOf(r, f)) == [] + [r];
    GrowthSteps([], r, parse);
  }

  /** An investor is among the unique investors exactly when some round
    * lists it. */
  lemma {:induction false} InvestorsOfRounds(rs: seq<Round>)
    ensures forall x :: x in Members(AllInvestors(rs)) <==> exists i :: 0 <= i < |rs| && x in rs[i].investors
  {
    if |rs| > 0 {
      var p, r := Init(rs), Last(rs);
      InvestorsOfRounds(p);
      MembersConcat(AllInvestors(p), r.investors);
      forall x | x in Members(AllInvestors(rs))
        ensures exists i :: 0 <= i < |rs| && x in rs[i].investors
      {
        if x in r.investors {
          assert rs[|rs| - 1] == r;
        } else {
          var i :| 0 <= i < |p| && x in p[i].investors;
          assert rs[i] == p[i];
        }
      }
      forall x | exists i :: 0 <= i < |rs| && x in rs[i].investors
        ensures x in Members(AllInvestors(rs))
      {
        var i :| 0 <= i < |rs| && x in rs[i].investors;
        if i < |p| {
          assert rs[i] == p[i];
        }
      }
    }
  }

  /** The top-level figures of `calculate_investor_metrics`: both round
    * counts are the number of rounds (nothing is de-duplicated), the
    * investment distribution stays empty, the unique investors are those
    * some round lists, and the averages are per round when there are rounds
    * and stay zero otherwise. */
  lemma MetricsTotals(rs: seq<Round>, parse: Json -> Option<real>)
    ensures var m := InvestorMetrics(rs, parse);
      && m.totalSeedRounds == |rs| && m.totalUniqueStartups == |rs|
      && m.investorInvestmentDistribution == map[]
      && (forall x :: x in m.totalUniqueInvestors <==> exists i :: 0 <= i < |rs| && x in rs[i].investors)
      && (|rs| > 0 ==>
            m.averageSeedRoundSize == TotalFunding(rs, parse) / |rs| as real
            && m.averageInvestorsPerRound == |AllInvestors(rs)| as real / |rs| as real)
      && (|rs| == 0 ==> m.averageSeedRoundSize == 0.0 && m.averageInvestorsPerRound == 0.0 && m.totalSeedFunding == 0.0)
  {
    InvestorsOfRounds(rs);
  }

  /** Each lead investor's entry counts its rounds (at least one), adds up
    * their parsed amounts, and carries the mean amount of those rounds. */
  lemma LeadAverages(rs: seq<Round>, parse: Json -> Option<real>)
    ensures var leads := InvestorMetrics(rs, parse).leadInvestorsSummary;
      forall k :: k in leads <==> k in Keys(rs, Lead)
    ensures var leads := InvestorMetrics(rs, parse).leadInvestorsSummary;
      forall k :: k in leads ==>
        && leads[k].investments == |RoundsAt(rs, Lead, k)| >= 1
        && leads[k].totalInvested == TotalFunding(RoundsAt(rs, Lead, k), parse)
        && leads[k].averageInvestment == TotalFunding(RoundsAt(rs, Lead, k), parse) / |RoundsAt(rs, Lead, k)| as real
  {
    LeadsMeaning(rs, parse);
    forall k | k in Leads(rs, parse)
      ensures |RoundsAt(rs, Lead, k)| >= 1
    {
      KeyHasRounds(rs, Lead, k);
    }
  }

  /** A value the field takes has at least one round. */
  lemma {:induction false} KeyHasRounds(rs: seq<Round>, f: Field, k: string)
    requires k in Keys(rs, f)
    ensures |RoundsAt(rs, f, k)| >= 1
  {
    var p := Init(rs);
    if KeyOf(Last(rs), f) != k {
      assert k in Keys(p, f);
      KeyHasRounds(p, f, k);
    }
  }

  /** The counts of a breakdown, added up over the keys `ks`. */
  function SumCounts(t: map<string, nat>, ks: seq<string>): nat {
    if |ks| == 0 then 0 else (if ks[0] in t then t[ks[0]] else 0) + SumCounts(t, ks[1..])
  }

  lemma {:induction false} SumCountsGroups(rs: seq<Round>, f: Field, ks: seq<string>)
    requires forall k :: k in Breakdown(rs, f) ==> Breakdown(rs, f)[k] == |RoundsAt(rs, f, k)|
    requires forall k :: k in ks ==> k in Breakdown(rs, f)
    ensures SumCounts(Breakdown(rs, f), ks) == CountOver(rs, f, ks)
  {
    if |ks| > 0 {
      SumCountsGroups(rs, f, ks[1..]);
    }
  }

  /** The values of `industry_breakdown` (or `geographic_distribution`),
    * added up in the dictionary's own order, give the number of rounds. */
  lemma BreakdownSums(rs: seq<Round>, f: Field)
    ensures SumCounts(Breakdown(rs, f), Firsts(Keys(rs, f))) == |rs|
  {
    BreakdownMeaning(rs, f);
    FirstsMembers(Keys(rs, f));
    SumCountsGroups(rs, f, Firsts(Keys(rs, f)));
    GroupsPartition(rs, f, (j: Json) => None);
  }

  // ------------------------------------------------------ most active facts

  predicate ByCount(ps: seq<Participation>) {
    forall i, j :: 0 <= i < j < |ps| ==> ps[i].participationCount >= ps[j].participationCount
  }

  lemma {:induction false} InsertPerm(p: Participation, ps: seq<Participation>)
    ensures multiset(Insert(p, ps)) == multiset(ps) + multiset{p}
    decreases |ps|
  {
    if |ps| > 0 && ps[0].participationCount > p.participationCount {
      InsertPerm(p, ps[1..]);
      assert ps == [ps[0]] + ps[1..];
    }
  }

  lemma {:induction false} InsertSorted(p: Participation, ps: seq<Participation>)
    requires ByCount(ps)
    ensures ByCount(Insert(p, ps))
    decreases |ps|
  {
    if |ps| > 0 && ps[0].participationCount > p.participationCount {
      InsertSorted(p, ps[1..]);
      InsertPerm(p, ps[1..]);
      var rest := Insert(p, ps[1..]);
      forall q | q in rest
        ensures ps[0].participationCount >= q.participationCount
      {
        assert q in multiset(rest);
        if q != p {
          assert q in multiset(ps[1..]);
        }
      }
    }
  }

  lemma {:induction false} InsertDistinct(p: Participation, ps: seq<Participation>)
    requires Distinct(ps) && p !in ps
    ensures Distinct(Insert(p, ps))
    decreases |ps|
  {
    if |ps| > 0 && ps[0].participationCount > p.participationCount {
      InsertDistinct(p, ps[1..]);
      InsertPerm(p, ps[1..]);
      var rest := Insert(p, ps[1..]);
      assert ps[0] !in multiset(rest);
    }
  }

  /** The sort is a permutation. */
  lemma {:induction false} SortPerm(ps: seq<Participation>)
    ensures multiset(SortByCount(ps)) == multiset(ps)
  {
    if |ps| > 0 {
      SortPerm(ps[1..]);
      InsertPerm(ps[0], SortByCount(ps[1..]));
      assert ps == [ps[0]] + ps[1..];
    }
  }

  lemma {:induction false} SortOrders(ps: seq<Participation>)
    ensures ByCount(SortByCount(ps))
  {
    if |ps| > 0 {
      SortOrders(ps[1..]);
      InsertSorted(ps[0], SortByCount(ps[1..]));
    }
  }

  lemma {:induction false} SortKeepsDistinct(ps: seq<Participation>)
    requires Distinct(ps)
    ensures Distinct(SortByCount(ps))
  {
    if |ps| > 0 {
      assert Distinct(ps[1..]);
      SortKeepsDistinct(ps[1..]);
      SortPerm(ps[1..]);
      assert ps[0] !in multiset(ps[1..]);
      InsertDistinct(ps[0], SortByCount(ps[1..]));
    }
  }

  /** The sort orders by count, is a permutation and keeps entries distinct. */
  lemma SortSorted(ps: seq<Participation>)
    ensures ByCount(SortByCount(ps))
    ensures multiset(SortByCount(ps)) == multiset(ps)
    ensures Distinct(ps) ==> Distinct(SortByCount(ps))
  {
    SortOrders(ps);
    SortPerm(ps);
    if Distinct(ps) {
      SortKeepsDistinct(ps);
    }
  }

  /** Each distinct investor once, with its number of occurrences. */
  lemma OccurrenceEntries(xs: seq<string>)
    ensures var ps := Occurrences(xs, Firsts(xs));
      && Distinct(ps)
      && (forall p :: p in ps ==> p.investor in xs && p.participationCount == multiset(xs)[p.investor])
      && (forall x :: x in xs ==> Participation(x, multiset(xs)[x]) in ps)
  {
    FirstsMembers(xs);
    var fs := Firsts(xs);
    var ps := Occurrences(xs, fs);
    forall x | x in xs
      ensures Participation(x, multiset(xs)[x]) in ps
    {
      var j :| 0 <= j < |fs| && fs[j] == x;
      assert ps[j] == Participation(x, multiset(xs)[x]);
    }
    forall i, j | 0 <= i < j < |ps|
      ensures ps[i] != ps[j]
    {
      assert ps[i].investor == fs[i] && ps[j].investor == fs[j];
    }
  }

  /** The first `n` entries of a list sorted by count that holds every
    * investor of `xs` once with its true count. */
  lemma TopOf(xs: seq<string>, sorted: seq<Participation>, n: nat)
    requires ByCount(sorted) && Distinct(sorted)
    requires forall p :: p in sorted ==> p.investor in xs && p.participationCount == multiset(xs)[p.investor]
    requires forall x :: x in xs ==> Participation(x, multiset(xs)[x]) in sorted
    ensures var r := PySlice(sorted, n);
      && |r| <= n
      && ByCount(r)
      && (forall i :: 0 <= i < |r| ==> r[i].investor in xs && r[i].participationCount == multiset(xs)[r[i].investor])
      && (forall i, j :: 0 <= i < j < |r| ==> r[i].investor != r[j].investor)
      && (forall x :: x in xs && (forall i :: 0 <= i < |r| ==> r[i].investor != x) ==>
            |r| == n && (|r| > 0 ==> multiset(xs)[x] <= r[|r| - 1].participationCount))
  {
    var r := PySlice(sorted, n);
    assert r == sorted[..|r|];
    TopEntries(xs, sorted, r);
    TopLeftOut(xs, sorted, r, n);
  }

  lemma TopEntries(xs: seq<string>, sorted: seq<Participation>, r: seq<Participation>)
    requires ByCount(sorted) && Distinct(sorted) && |r| <= |sorted| && r == sorted[..|r|]
    requires forall p :: p in sorted ==> p.investor in xs && p.participationCount == multiset(xs)[p.investor]
    ensures ByCount(r)
    ensures forall i :: 0 <= i < |r| ==> r[i].investor in xs && r[i].participationCount == multiset(xs)[r[i].investor]
    ensures forall i, j :: 0 <= i < j < |r| ==> r[i].investor != r[j].investor
  {
    forall i | 0 <= i < |r|
      ensures r[i] == sorted[i] && r[i] in sorted
    {
    }
    forall i, j | 0 <= i < j < |r|
      ensures r[i].participationCount >= r[j].participationCount && r[i] != r[j]
    {
      assert r[i] == sorted[i] && r[j] == sorted[j];
    }
  }

  lemma TopLeftOut(xs: seq<string>, sorted: seq<Participation>, r: seq<Participation>, n: nat)
    requires ByCount(sorted) && r == PySlice(sorted, n)
    requires forall x :: x in xs ==> Participation(x, multiset(xs)[x]) in sorted
    ensures forall x :: x in xs && (forall i :: 0 <= i < |r| ==> r[i].investor != x) ==>
      |r| == n && (|r| > 0 ==> multiset(xs)[x] <= r[|r| - 1].participationCount)
  {
    forall x | x in xs && (forall i :: 0 <= i < |r| ==> r[i].investor != x)
      ensures |r| == n && (|r| > 0 ==> multiset(xs)[x] <= r[|r| - 1].participationCount)
    {
      var e := Participation(x, multiset(xs)[x]);
      var k :| 0 <= k < |sorted| && sorted[k] == e;
      assert r == sorted[..|r|];
      assert forall i :: 0 <= i < |r| ==> sorted[i] == r[i];
    }
  }

  lemma SortedEntries(xs: seq<string>)
    ensures var sorted := SortByCount(Occurrences(xs, Firsts(xs)));
      && ByCount(sorted) && Distinct(sorted)
      && (forall p :: p in sorted ==> p.investor in xs && p.participationCount == multiset(xs)[p.investor])
      && (forall x :: x in xs ==> Participation(x, multiset(xs)[x]) in sorted)
  {
    var ps := Occurrences(xs, Firsts(xs));
    OccurrenceEntries(xs);
    SortSorted(ps);
    var sorted := SortByCount(ps);
    forall p | p in sorted
      ensures p in ps
    {
      assert p in multiset(sorted);
    }
    forall p | p in ps
      ensures p in sorted
    {
      assert p in multiset(ps);
    }
  }

  /** `most_common(10)`: at most ten entries, by non-increasing count; each
    * is an investor of the rounds with its true participation count, no
    * investor comes twice, and an investor left out means the list is full
    * and the investor took part no more often than the last one listed. */
  lemma MostActive(xs: seq<string>)
    ensures var r := MostCommon(xs, MostActiveLimit);
      && |r| <= MostActiveLimit
      && ByCount(r)
      && (forall i :: 0 <= i < |r| ==> r[i].investor in xs && r[i].participationCount == multiset(xs)[r[i].investor])
      && (forall i, j :: 0 <= i < j < |r| ==> r[i].investor != r[j].investor)
      && (forall x :: x in xs && (forall i :: 0 <= i < |r| ==> r[i].investor != x) ==>
            |r| == MostActiveLimit && (|r| > 0 ==> multiset(xs)[x] <= r[|r| - 1].participationCount))
  {
    SortedEntries(xs);
    TopOf(xs, SortByCount(Occurrences(xs, Firsts(xs))), MostActiveLimit);
  }
}
