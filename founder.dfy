// The founder background collector
// (agent/dqda/data_collectors/founder_background_collector.py): the founder
// name search, the experience summary, the education score and level, the
// network score, the risk score and level, the overall assessment read back
// from the profile dictionary, the profile itself and the collection loop.
// What the collector simulates with a seeded random generator (experience
// entries, degrees, connections, risk factors, platform scores) arrives as
// parameters.

module Founder {
  import opened Values

  /** `any(w in s for w in words)`. */
  predicate MentionsAny(s: string, words: seq<string>) {
    exists k :: 0 <= k < |words| && Contains(s, words[k])
  }

  // ------------------------------------------------------------- experience

  /** One previous position: company, role and years spent. */
  datatype Experience = Experience(company: string, role: string, durationYears: int)

  const TechnicalRoles: seq<string> := ["Engineer", "Developer", "CTO", "Technical"]

  const BusinessRoles: seq<string> := ["Manager", "Director", "VP", "CEO", "Product"]

  function TotalYears(es: seq<Experience>): int {
    if |es| == 0 then 0 else es[0].durationYears + TotalYears(es[1..])
  }

  /** The years spent in roles whose title contains one of `words`. */
  function YearsIn(es: seq<Experience>, words: seq<string>): int {
    if |es| == 0 then 0
    else (if MentionsAny(es[0].role, words) then es[0].durationYears else 0) + YearsIn(es[1..], words)
  }

  function Companies(es: seq<Experience>): (r: seq<string>)
    ensures |r| == |es| && forall i :: 0 <= i < |es| ==> r[i] == es[i].company
  {
    seq(|es|, i requires 0 <= i < |es| => es[i].company)
  }

  /** `_summarize_experience`'s dictionary. */
  datatype ExperienceSummary = ExperienceSummary(
    totalYears: int, companiesWorkedAt: nat, companyList: seq<string>,
    technicalYears: int, businessYears: int, avgTenure: real)

  /** `_summarize_experience`: total years, distinct companies, the years in
    * technical and in business roles, and the mean tenure (0 for no entries). */
  function SummarizeExperience(es: seq<Experience>): (s: ExperienceSummary)
    ensures s.companyList == Companies(es)
    ensures s.companiesWorkedAt <= |es| && (|es| > 0 ==> s.companiesWorkedAt >= 1)
    ensures |es| > 0 ==> s.avgTenure * |es| as real == s.totalYears as real
    ensures |es| == 0 ==> s == ExperienceSummary(0, 0, [], 0, 0, 0.0)
  {
    var total := TotalYears(es);
    var cs := Companies(es);
    DistinctCount(cs);
    ExperienceSummary(total, |set c | c in cs|, cs, YearsIn(es, TechnicalRoles), YearsIn(es, BusinessRoles),
                      if |es| == 0 then 0.0 else total as real / |es| as real)
  }

  /** With non-negative durations, the years in any kind of role lie between
    * 0 and the total. */
  lemma {:induction false} YearsWithinTotal(es: seq<Experience>, words: seq<string>)
    requires forall i :: 0 <= i < |es| ==> es[i].durationYears >= 0
    ensures 0 <= YearsIn(es, words) <= TotalYears(es)
  {
    if |es| > 0 {
      YearsWithinTotal(es[1..], words);
    }
  }

  /** Three positions at three companies, the first technical only, the
    * second business only, the third neither: the summary adds up the years
    * of each kind. */
  lemma {:induction false} SummaryOfThree(e1: Experience, e2: Experience, e3: Experience)
    requires MentionsAny(e1.role, TechnicalRoles) && !MentionsAny(e1.role, BusinessRoles)
    requires !MentionsAny(e2.role, TechnicalRoles) && MentionsAny(e2.role, BusinessRoles)
    requires !MentionsAny(e3.role, TechnicalRoles) && !MentionsAny(e3.role, BusinessRoles)
    requires e1.company != e2.company && e1.company != e3.company && e2.company != e3.company
    ensures var s := SummarizeExperience([e1, e2, e3]);
      && s.totalYears == e1.durationYears + e2.durationYears + e3.durationYears
      && s.companiesWorkedAt == 3
      && s.technicalYears == e1.durationYears && s.businessYears == e2.durationYears
  {
    var es := [e1, e2, e3];
    assert es[1..] == [e2, e3] && [e2, e3][1..] == [e3] && [e3][1..] == [];
    assert TotalYears(es) == e1.durationYears + TotalYears([e2, e3]);
    assert TotalYears([e2, e3]) == e2.durationYears + TotalYears([e3]);
    assert YearsIn(es, TechnicalRoles) == e1.durationYears + YearsIn([e2, e3], TechnicalRoles);
    assert YearsIn([e2, e3], TechnicalRoles) == YearsIn([e3], TechnicalRoles) == 0;
    assert YearsIn(es, BusinessRoles) == YearsIn([e2, e3], BusinessRoles);
    assert YearsIn([e2, e3], BusinessRoles) == e2.durationYears + YearsIn([e3], BusinessRoles);
    assert YearsIn([e3], BusinessRoles) == 0;
    var cs := Companies(es);
    assert cs == [e1.company, e2.company, e3.company];
    assert (set c | c in cs) == {e1.company, e2.company} + {e3.company};
    assert |{e1.company, e2.company}| == 2;
    assert |{e1.company, e2.company} + {e3.company}| == 3;
  }

  /** "Senior Software Engineer" is a technical role only. */
  lemma EngineerRole()
    ensures MentionsAny("Senior Software Engineer", TechnicalRoles)
    ensures !MentionsAny("Senior Software Engineer", BusinessRoles)
  {
    assert OccursAt("Senior Software Engineer", TechnicalRoles[0], 16);
    NoneMentioned("Senior Software Engineer", BusinessRoles, ['M', 'D', 'V', 'C', 'P']);
  }

  /** "Product Manager" is a business role only. */
  lemma ManagerRole()
    ensures !MentionsAny("Product Manager", TechnicalRoles)
    ensures MentionsAny("Product Manager", BusinessRoles)
  {
    assert OccursAt("Product Manager", BusinessRoles[0], 8);
    NoneMentioned("Product Manager", TechnicalRoles, ['E', 'D', 'C', 'T']);
  }

  /** "Co-founder" is neither. */
  lemma CofounderRole()
    ensures !MentionsAny("Co-founder", TechnicalRoles) && !MentionsAny("Co-founder", BusinessRoles)
  {
    NoneMentioned("Co-founder", TechnicalRoles, ['E', 'D', 'T', 'T']);
    NoneMentioned("Co-founder", BusinessRoles, ['M', 'D', 'V', 'E', 'P']);
  }

  /** A text lacking, for each word, one of that word's characters mentions none of them. */
  lemma NoneMentioned(s: string, words: seq<string>, missing: seq<char>)
    requires |missing| == |words|
    requires forall k :: 0 <= k < |words| ==> missing[k] in words[k] && missing[k] !in s
    ensures !MentionsAny(s, words)
  {
    forall k | 0 <= k < |words| ensures !Contains(s, words[k]) {
      MissingCharNotContained(s, words[k], missing[k]);
    }
  }

  // -------------------------------------------------------------- education

  /** One degree; a missing entry reads as the empty string. */
  datatype Degree = Degree(degreeType: string, field: string, institution: string)

  const TopUniversities: seq<string> :=
    ["Stanford University", "MIT", "Harvard University", "UC Berkeley", "Carnegie Mellon", "Cornell",
     "Princeton", "Yale", "Columbia", "Oxford", "Cambridge", "ETH Zurich"]

  const RelevantFields: seq<string> := ["Computer Science", "Engineering", "Mathematics", "Business"]

  /** The points for the degree type: PhD over Master over Bachelor. */
  function DegreeBase(t: string): real {
    if Contains(t, "PhD") then 0.4
    else if Contains(t, "Master") then 0.3
    else if Contains(t, "Bachelor") then 0.2
    else 0.0
  }

  /** One degree's points: its type, 0.2 for a top university and 0.1 for a relevant field. */
  function DegreePoints(d: Degree): (r: real)
    ensures 0.0 <= r <= 0.7
  {
    DegreeBase(d.degreeType)
    + (if MentionsAny(d.institution, TopUniversities) then 0.2 else 0.0)
    + (if MentionsAny(d.field, RelevantFields) then 0.1 else 0.0)
  }

  function Points(ds: seq<Degree>): (r: real)
    ensures 0.0 <= r
  {
    if |ds| == 0 then 0.0 else Points(ds[..|ds| - 1]) + DegreePoints(ds[|ds| - 1])
  }

  /** `_calculate_education_quality`: the points of all degrees, capped at 1. */
  function EducationQuality(ds: seq<Degree>): (r: real)
    ensures 0.0 <= r <= 1.0
    ensures |ds| == 0 ==> r == 0.0
  {
    Min(Points(ds), 1.0)
  }

  /** `_calculate_education_quality`, accumulating as the loop does. */
  method CalculateEducationQuality(degrees: seq<Degree>) returns (score: real)
    ensures score == EducationQuality(degrees)
  {
    score := 0.0;
    for i := 0 to |degrees|
      invariant score == Points(degrees[..i])
    {
      assert degrees[..i + 1][..i] == degrees[..i];
      var d := degrees[i];
      if Contains(d.degreeType, "PhD") {
        score := score + 0.4;
      } else if Contains(d.degreeType, "Master") {
        score := score + 0.3;
      } else if Contains(d.degreeType, "Bachelor") {
        score := score + 0.2;
      }
      if MentionsAny(d.institution, TopUniversities) {
        score := score + 0.2;
      }
      if MentionsAny(d.field, RelevantFields) {
        score := score + 0.1;
      }
    }
    assert degrees[..|degrees|] == degrees;
    score := Min(score, 1.0);
  }

  /** Another degree never lowers the score. */
  lemma EducationMonotone(ds: seq<Degree>, d: Degree)
    ensures EducationQuality(ds) <= EducationQuality(ds + [d])
  {
    assert (ds + [d])[..|ds|] == ds;
  }

  /** A PhD in computer science from Stanford and a Bachelor in mathematics
    * from Harvard reach the cap. */
  lemma EducationExample()
    ensures EducationQuality([Degree("PhD", "Computer Science", "Stanford University"),
                              Degree("Bachelor", "Mathematics", "Harvard University")]) == 1.0
  {
    var phd := Degree("PhD", "Computer Science", "Stanford University");
    var ba := Degree("Bachelor", "Mathematics", "Harvard University");
    assert OccursAt(phd.degreeType, "PhD", 0) && OccursAt(phd.field, RelevantFields[0], 0);
    assert OccursAt(phd.institution, TopUniversities[0], 0);
    assert OccursAt(ba.institution, TopUniversities[2], 0) && OccursAt(ba.field, RelevantFields[2], 0);
    assert DegreePoints(phd) == 0.7;
    var ds := [phd, ba];
    assert ds[..1] == [phd] && [phd][..0] == [];
    assert Points(ds) >= 0.7 + 0.3;
  }

  predicate HasDegree(ds: seq<Degree>, word: string) {
    exists i :: 0 <= i < |ds| && Contains(ds[i].degreeType, word)
  }

  /** The education level: PhD over Masters over Bachelors, else "unknown". */
  function EducationLevel(ds: seq<Degree>): string {
    if HasDegree(ds, "PhD") then "PhD"
    else if HasDegree(ds, "Master") then "Masters"
    else if HasDegree(ds, "Bachelor") then "Bachelors"
    else "unknown"
  }

  function LevelRank(ds: seq<Degree>): nat {
    if HasDegree(ds, "PhD") then 3
    else if HasDegree(ds, "Master") then 2
    else if HasDegree(ds, "Bachelor") then 1
    else 0
  }

  /** The level names the highest degree present: the level of two degree
    * lists together is the higher of their levels, and each rank has its own
    * name. */
  lemma LevelOfConcat(a: seq<Degree>, b: seq<Degree>)
    ensures LevelRank(a + b) == if LevelRank(a) >= LevelRank(b) then LevelRank(a) else LevelRank(b)
    ensures EducationLevel(a + b) == (if LevelRank(a) >= LevelRank(b) then EducationLevel(a) else EducationLevel(b))
  {
    forall w ensures HasDegree(a + b, w) <==> HasDegree(a, w) || HasDegree(b, w) {
      if HasDegree(a, w) {
        var i :| 0 <= i < |a| && Contains(a[i].degreeType, w);
        assert (a + b)[i] == a[i];
      }
      if HasDegree(b, w) {
        var i :| 0 <= i < |b| && Contains(b[i].degreeType, w);
        assert (a + b)[|a| + i] == b[i];
      }
    }
  }

  // ---------------------------------------------------------------- network

  /** One key connection. */
  datatype Connection = Connection(name: string, kind: string, relevance: real, strength: string)

  function SumRelevance(cs: seq<Connection>): real {
    if |cs| == 0 then 0.0 else cs[0].relevance + SumRelevance(cs[1..])
  }

  function StrongCount(cs: seq<Connection>): (r: nat)
    ensures r <= |cs|
  {
    CountWhere(cs, (c: Connection) => c.strength == "strong")
  }

  /** `_calculate_network_quality`: the mean relevance plus 0.3 times the
    * share of strong connections, capped at 1; no connections score 0. */
  function NetworkQuality(cs: seq<Connection>): (r: real)
    ensures |cs| == 0 ==> r == 0.0
    ensures r <= 1.0
    ensures (forall i :: 0 <= i < |cs| ==> 0.0 <= cs[i].relevance) ==> 0.0 <= r
  {
    if |cs| == 0 then 0.0
    else
      var n := |cs| as real;
      NonNegativeRelevance(cs);
      Min(SumRelevance(cs) / n + StrongCount(cs) as real / n * 0.3, 1.0)
  }

  lemma {:induction false} NonNegativeRelevance(cs: seq<Connection>)
    ensures (forall i :: 0 <= i < |cs| ==> 0.0 <= cs[i].relevance) ==> 0.0 <= SumRelevance(cs)
  {
    if |cs| > 0 {
      NonNegativeRelevance(cs[1..]);
      assert forall i :: 0 <= i < |cs[1..]| ==> cs[1..][i] == cs[i + 1];
    }
  }

  /** Connections of relevance 0.8 (strong), 0.7 (moderate) and 0.6 (weak)
    * score 0.7 + 0.1 = 0.8. */
  lemma NetworkExample()
    ensures NetworkQuality([Connection("", "", 0.8, "strong"), Connection("", "", 0.7, "moderate"),
                            Connection("", "", 0.6, "weak")]) == 0.8
  {
    var cs := [Connection("", "", 0.8, "strong"), Connection("", "", 0.7, "moderate"),
               Connection("", "", 0.6, "weak")];
    assert SumRelevance(cs) == 2.1 by {
      assert cs[1..][1..][1..] == [];
    }
    assert StrongCount(cs) == 1 by {
      var p := (c: Connection) => c.strength == "strong";
      assert cs[1..][1..][1..] == [];
      assert !p(cs[1]) && !p(cs[2]);
    }
  }

  // ------------------------------------------------------------------- risk

  /** `0.3·#risk − 0.2·#positive`, clamped to [0, 1]. */
  function RiskScore(risks: nat, positives: nat): (r: real)
    ensures 0.0 <= r <= 1.0
    ensures risks == 0 ==> r == 0.0
  {
    Clamp01(0.3 * risks as real - 0.2 * positives as real)
  }

  function RiskLevel(score: real): string {
    if score <= 0.3 then "low" else if score <= 0.6 then "medium" else "high"
  }

  function RiskRank(score: real): nat {
    if score <= 0.3 then 0 else if score <= 0.6 then 1 else 2
  }

  /** More risk factors or fewer positive factors never lower the score or its level. */
  lemma RiskMonotone(r1: nat, p1: nat, r2: nat, p2: nat)
    requires r1 <= r2 && p2 <= p1
    ensures RiskScore(r1, p1) <= RiskScore(r2, p2)
    ensures RiskRank(RiskScore(r1, p1)) <= RiskRank(RiskScore(r2, p2))
  {
  }

  /** One risk factor is still low risk; three without a positive factor are high. */
  lemma RiskLevels(positives: nat)
    ensures RiskLevel(RiskScore(1, positives)) == "low"
    ensures RiskLevel(RiskScore(3, 0)) == "high"
    ensures RiskLevel(RiskScore(2, 0)) == "medium"
  {
  }

  // --------------------------------------------------------------- overall

  /** `_calculate_overall_assessment`'s dictionary. */
  datatype Assessment = Assessment(
    overallScore: real, strengths: seq<string>, weaknesses: seq<string>, recommendation: string)

  const StrongEducation := "Strong educational background"
  const GoodNetwork := "Good professional network"
  const SubstantialExperience := "Substantial professional experience"
  const HigherRisk := "Higher risk profile"
  const LimitedPresence := "Limited public presence"
  const Positive := "positive"
  const Caution := "caution"
  const Neutral := "neutral"

  function Recommendation(score: real): string {
    if score >= 0.7 then Positive else if score <= 0.4 then Caution else Neutral
  }

  function Weighted(edu: real, net: real, experience: real, social: real, risk: real): real {
    edu * 0.25 + net * 0.25 + experience * 0.3 + social * 0.1 + (1.0 - risk) * 0.1
  }

  /** The assessment from the five scores; `years` is the total experience. */
  function AssessFrom(edu: real, net: real, years: real, social: real, risk: real): (a: Assessment)
    ensures a.overallScore == Weighted(edu, net, Min(years / 10.0, 1.0), social, risk)
    ensures a.recommendation == Recommendation(a.overallScore)
    ensures StrongEducation in a.strengths <==> edu > 0.7
    ensures HigherRisk in a.weaknesses <==> risk > 0.6
    ensures LimitedPresence in a.weaknesses <==> social < 0.3
    ensures |a.strengths| <= 3 && |a.weaknesses| <= 2
  {
    var experience := Min(years / 10.0, 1.0);
    var strengths := (if edu > 0.7 then [StrongEducation] else [])
      + (if net > 0.6 then [GoodNetwork] else [])
      + (if experience > 0.6 then [SubstantialExperience] else []);
    var weaknesses := (if risk > 0.6 then [HigherRisk] else []) + (if social < 0.3 then [LimitedPresence] else []);
    assert StrongEducation != GoodNetwork && StrongEducation != SubstantialExperience;
    assert HigherRisk != LimitedPresence;
    var score := Weighted(edu, net, experience, social, risk);
    Assessment(score, strengths, weaknesses, Recommendation(score))
  }

  /** With every score in [0, 1] and non-negative experience the overall
    * score is in [0, 1] too; the recommendation splits it at 0.4 and 0.7. */
  lemma AssessRange(edu: real, net: real, years: real, social: real, risk: real)
    requires 0.0 <= edu <= 1.0 && 0.0 <= net <= 1.0 && 0.0 <= social <= 1.0 && 0.0 <= risk <= 1.0
    requires 0.0 <= years
    ensures var a := AssessFrom(edu, net, years, social, risk);
      && 0.0 <= a.overallScore <= 1.0
      && (a.recommendation == Positive <==> a.overallScore >= 0.7)
      && (a.recommendation == Caution <==> a.overallScore <= 0.4)
  {
  }

  const EducationKey := "educational_background"
  const NetworkKey := "company_network"
  const ExperienceKey := "professional_experience"
  const SocialKey := "social_media_presence"
  const RiskKey := "risk_assessment"
  const SummaryKey := "experience_summary"
  const EducationScoreKey := "education_quality_score"
  const NetworkScoreKey := "network_quality_score"
  const TotalYearsKey := "total_years_experience"
  const PresenceScoreKey := "overall_presence_score"
  const RiskScoreKey := "overall_risk_score"

  /** `d.get(key, {})` on a dictionary; `None` when `d` is not one (the
    * attribute error the collector catches). */
  function Section(d: Json, key: string): Option<Json> {
    if d.Obj? then Some(GetOr(d.fields, key, Obj(map[]))) else None
  }

  /** `d.get(key, default)` used as a number; `None` when `d` is not a
    * dictionary or the value is not a number (the arithmetic then raises). */
  function NumberAt(d: Json, key: string, default: real): Option<real> {
    if !d.Obj? then None
    else
      var v := GetOr(d.fields, key, Num(default));
      if IsNumber(v) then Some(NumValue(v)) else None
  }

  /** The five inputs of the assessment as read from the profile: the two
    * nested lookups and their defaults (risk defaults to 0.5, the rest to 0). */
  function ProfileScores(profile: map<string, Json>): Option<seq<real>> {
    var p := Obj(profile);
    var edu := NumberAt(GetOr(profile, EducationKey, Obj(map[])), EducationScoreKey, 0.0);
    var net := NumberAt(GetOr(profile, NetworkKey, Obj(map[])), NetworkScoreKey, 0.0);
    var social := NumberAt(GetOr(profile, SocialKey, Obj(map[])), PresenceScoreKey, 0.0);
    var risk := NumberAt(GetOr(profile, RiskKey, Obj(map[])), RiskScoreKey, 0.5);
    var summary := Section(GetOr(profile, ExperienceKey, Obj(map[])), SummaryKey);
    var years := if summary.Some? then NumberAt(summary.value, TotalYearsKey, 0.0) else None;
    if edu.None? || net.None? || social.None? || risk.None? || years.None? then None
    else Some([edu.value, net.value, years.value, social.value, risk.value])
  }

  /** `_calculate_overall_assessment` on a profile dictionary. */
  function OverallAssessment(profile: map<string, Json>): (r: Option<Assessment>)
    ensures r.Some? <==> ProfileScores(profile).Some?
  {
    match ProfileScores(profile)
    case None => None
    case Some(s) => Some(AssessFrom(s[0], s[1], s[2], s[3], s[4]))
  }

  /** `_calculate_overall_assessment` on a profile dictionary; `None` where
    * the lookups raise. */
  method CalculateOverallAssessment(profile: map<string, Json>) returns (r: Option<Assessment>)
    ensures r == OverallAssessment(profile)
  {
    var scores := ProfileScores(profile);
    if scores.None? {
      return None;
    }
    var a := AssessScores(scores.value[0], scores.value[1], scores.value[2], scores.value[3], scores.value[4]);
    r := Some(a);
  }

  /** The weighted score and the recommendation, appending strengths and
    * weaknesses as it goes. */
  method AssessScores(edu: real, net: real, years: real, social: real, risk: real) returns (a: Assessment)
    ensures a == AssessFrom(edu, net, years, social, risk)
  {
    var experience := Min(years / 10.0, 1.0);
    var score := edu * 0.25 + net * 0.25 + experience * 0.3 + social * 0.1 + (1.0 - risk) * 0.1;
    var strengths: seq<string> := [];
    var weaknesses: seq<string> := [];
    if edu > 0.7 {
      strengths := strengths + [StrongEducation];
    }
    if net > 0.6 {
      strengths := strengths + [GoodNetwork];
    }
    if experience > 0.6 {
      strengths := strengths + [SubstantialExperience];
    }
    if risk > 0.6 {
      weaknesses := weaknesses + [HigherRisk];
    }
    if social < 0.3 {
      weaknesses := weaknesses + [LimitedPresence];
    }
    var recommendation := Neutral;
    if score >= 0.7 {
      recommendation := Positive;
    } else if score <= 0.4 {
      recommendation := Caution;
    }
    assert strengths == (if edu > 0.7 then [StrongEducation] else [])
      + (if net > 0.6 then [GoodNetwork] else []) + (if experience > 0.6 then [SubstantialExperience] else []);
    assert weaknesses == (if risk > 0.6 then [HigherRisk] else []) + (if social < 0.3 then [LimitedPresence] else []);
    AssessParts(edu, net, years, social, risk, strengths, weaknesses);
    a := Assessment(score, strengths, weaknesses, recommendation);
  }

  lemma AssessParts(edu: real, net: real, years: real, social: real, risk: real, strengths: seq<string>, weaknesses: seq<string>)
    requires strengths == (if edu > 0.7 then [StrongEducation] else [])
      + (if net > 0.6 then [GoodNetwork] else []) + (if Min(years / 10.0, 1.0) > 0.6 then [SubstantialExperience] else [])
    requires weaknesses == (if risk > 0.6 then [HigherRisk] else []) + (if social < 0.3 then [LimitedPresence] else [])
    ensures var score := Weighted(edu, net, Min(years / 10.0, 1.0), social, risk);
      AssessFrom(edu, net, years, social, risk) == Assessment(score, strengths, weaknesses, Recommendation(score))
  {
  }

  /** An empty profile scores 0.1·(1 − 0.5) = 0.05: caution, and a limited presence. */
  lemma EmptyProfileAssessment()
    ensures var a := OverallAssessment(map[]);
      a.Some? && a.value.overallScore == 0.05 && a.value.recommendation == Caution
      && LimitedPresence in a.value.weaknesses
  {
  }

  /** The profile with education 0.8, network 0.7, 8 years, presence 0.6 and
    * risk 0.3 scores 0.745, is recommended, and lists three strengths. */
  lemma ExampleProfileAssessment()
    ensures var a := OverallAssessment(map[
        EducationKey := Obj(map[EducationScoreKey := Num(0.8)]),
        NetworkKey := Obj(map[NetworkScoreKey := Num(0.7)]),
        ExperienceKey := Obj(map[SummaryKey := Obj(map[TotalYearsKey := Num(8.0)])]),
        SocialKey := Obj(map[PresenceScoreKey := Num(0.6)]),
        RiskKey := Obj(map[RiskScoreKey := Num(0.3)])]);
      && a.Some? && a.value.overallScore == 0.745 && a.value.recommendation == Positive
      && |a.value.strengths| == 3 && a.value.weaknesses == []
  {
    assert |EducationKey| == 22 && |NetworkKey| == 15 && |ExperienceKey| == 23 && |SocialKey| == 21 && |RiskKey| == 15;
    assert NetworkKey[0] != RiskKey[0];
  }

  // ---------------------------------------------------------------- profile

  /** `name.lower().replace(' ', sep)`. */
  function Slug(name: string, sep: string): (r: string)
    requires forall i :: 0 <= i < |sep| ==> sep[i] != ' ' && !IsUpperLetter(sep[i])
    ensures forall i :: 0 <= i < |r| ==> r[i] != ' ' && !IsUpperLetter(r[i])
  {
    if |name| == 0 then ""
    else
      var c := LowerChar(name[0]);
      var head := if c == ' ' then sep else [c];
      var tail := Slug(name[1..], sep);
      assert forall i :: |head| <= i < |head| + |tail| ==> (head + tail)[i] == tail[i - |head|];
      head + tail
  }

  /** The three LinkedIn addresses tried for a founder. */
  function LinkedinUrls(name: string): seq<string> {
    ["https://www.linkedin.com/in/" + Slug(name, "-"),
     "https://www.linkedin.com/in/" + Slug(name, ""),
     "https://linkedin.com/in/" + Slug(name, "-")]
  }

  /** The first address whose HEAD request answers 200; `status` gives the
    * status code of each request, `None` for one that raises. */
  function FirstOk(urls: seq<string>, status: string -> Option<int>): (r: Option<string>)
    ensures r.Some? <==> exists i :: 0 <= i < |urls| && status(urls[i]) == Some(200)
    ensures r.Some? ==> r.value in urls && status(r.value) == Some(200)
  {
    if |urls| == 0 then None
    else if status(urls[0]) == Some(200) then Some(urls[0])
    else
      var rest := FirstOk(urls[1..], status);
      assert forall i :: 1 <= i < |urls| ==> urls[i] == urls[1..][i - 1];
      rest
  }

  /** The profile entries the analysis leaves unknown. */
  const LinkedinUnknowns: set<string> := {"current_position", "location", "experience_years", "connections_count"}

  /** `_analyze_linkedin_profile`: a profile reachable at one of the
    * addresses is found with completeness 0.8; otherwise the analysis is
    * search based with completeness 0.3. Without a session nothing is
    * requested. */
  function LinkedinProfile(name: string, hasSession: bool, status: string -> Option<int>): (r: Json)
    ensures r.Obj? && "profile_found" in r.fields && "profile_completeness" in r.fields
    ensures r.fields["profile_found"] == Bool(true) <==> hasSession && FirstOk(LinkedinUrls(name), status).Some?
    ensures r.fields["profile_completeness"] == Num(if r.fields["profile_found"] == Bool(true) then 0.8 else 0.3)
    ensures ("search_based_analysis" in r.fields) <==> r.fields["profile_found"] != Bool(true)
    ensures forall k :: k in LinkedinUnknowns ==> k in r.fields && r.fields[k] == Null
  {
    var found := if hasSession then FirstOk(LinkedinUrls(name), status) else None;
    var base := map["name" := Str(name), "current_position" := Null, "location" := Null,
                    "experience_years" := Null, "connections_count" := Null,
                    "data_source" := Str("heuristic_search")];
    match found
    case Some(url) =>
      Obj(base["profile_url" := Str(url)]["profile_completeness" := Num(0.8)]["profile_found" := Bool(true)])
    case None =>
      Obj(base["profile_url" := Null]["search_based_analysis" := Bool(true)]
              ["profile_completeness" := Num(0.3)]["profile_found" := Bool(false)])
  }

  /** What the collector's simulated and network lookups yield for one
    * founder: whether there is an HTTP session, the HEAD status per address,
    * the experience entries, degrees, key connections, risk and positive
    * factors, and the platform presence scores. */
  datatype Sources = Sources(
    hasSession: bool, headStatus: string -> Option<int>, experiences: seq<Experience>,
    degrees: seq<Degree>, connections: seq<Connection>, riskFactors: seq<string>,
    positiveFactors: seq<string>, platformScores: seq<real>)

  function SummaryJson(s: ExperienceSummary): (r: Json)
    ensures r.Obj? && TotalYearsKey in r.fields && r.fields[TotalYearsKey] == Num(s.totalYears as real)
  {
    Obj(map["companies_worked_at" := Num(s.companiesWorkedAt as real),
            "company_list" := StrList(s.companyList),
            "technical_experience_years" := Num(s.technicalYears as real),
            "business_experience_years" := Num(s.businessYears as real),
            "avg_tenure_per_company" := Num(s.avgTenure),
            TotalYearsKey := Num(s.totalYears as real)])
  }

  /** `_extract_professional_experience`. */
  function ExperienceSection(founder: string, startup: string, es: seq<Experience>): (r: Json)
    ensures r.Obj? && SummaryKey in r.fields && r.fields[SummaryKey] == SummaryJson(SummarizeExperience(es))
  {
    Obj(map["founder_name" := Str(founder), "current_startup" := Str(startup),
            SummaryKey := SummaryJson(SummarizeExperience(es))])
  }

  /** `_extract_education_background`. */
  function EducationSection(founder: string, ds: seq<Degree>): (r: Json)
    ensures r.Obj? && EducationScoreKey in r.fields && r.fields[EducationScoreKey] == Num(EducationQuality(ds))
  {
    Obj(map["founder_name" := Str(founder), "education_level" := Str(EducationLevel(ds)),
            EducationScoreKey := Num(EducationQuality(ds))])
  }

  /** `_analyze_company_network`. */
  function NetworkSection(founder: string, startup: string, cs: seq<Connection>): (r: Json)
    ensures r.Obj? && NetworkScoreKey in r.fields && r.fields[NetworkScoreKey] == Num(NetworkQuality(cs))
  {
    Obj(map["founder_name" := Str(founder), "current_startup" := Str(startup),
            NetworkScoreKey := Num(NetworkQuality(cs))])
  }

  /** `_assess_founder_risk`. */
  function RiskSection(founder: string, startup: string, risks: seq<string>, positives: seq<string>): (r: Json)
    ensures r.Obj? && RiskScoreKey in r.fields && r.fields[RiskScoreKey] == Num(RiskScore(|risks|, |positives|))
  {
    var score := RiskScore(|risks|, |positives|);
    Obj(map["founder_name" := Str(founder), "startup_name" := Str(startup),
            "risk_factors" := StrList(risks), "positive_factors" := StrList(positives),
            "risk_level" := Str(RiskLevel(score)), RiskScoreKey := Num(score)])
  }

  /** The mean of the platform scores, 0 for none. */
  function PresenceScore(scores: seq<real>): (r: real)
    ensures |scores| == 0 ==> r == 0.0
    ensures (forall i :: 0 <= i < |scores| ==> 0.0 <= scores[i] <= 1.0) ==> 0.0 <= r <= 1.0
  {
    if |scores| == 0 then 0.0
    else
      MeanInUnit(scores);
      SumReals(scores) / |scores| as real
  }

  lemma MeanInUnit(scores: seq<real>)
    requires |scores| > 0
    ensures (forall i :: 0 <= i < |scores| ==> 0.0 <= scores[i] <= 1.0) ==> 0.0 <= SumReals(scores) / |scores| as real <= 1.0
  {
    if forall i :: 0 <= i < |scores| ==> 0.0 <= scores[i] <= 1.0 {
      SumRealsBounds(scores, 0.0, 1.0);
      MeanBounds(SumReals(scores), |scores| as real, 0.0, 1.0);
    }
  }

  /** `_analyze_social_presence`. */
  function SocialSection(founder: string, scores: seq<real>): (r: Json)
    ensures r.Obj? && PresenceScoreKey in r.fields && r.fields[PresenceScoreKey] == Num(PresenceScore(scores))
  {
    Obj(map["founder_name" := Str(founder), PresenceScoreKey := Num(PresenceScore(scores))])
  }

  /** The profile dictionary before its assessment is added. */
  function BaseProfile(founder: string, startup: string, keywords: seq<string>, now: string,
                       src: Sources, social: Json): map<string, Json>
  {
    WithSections(
      BaseHead(founder, startup, keywords, now, src),
      ExperienceSection(founder, startup, src.experiences), EducationSection(founder, src.degrees),
      NetworkSection(founder, startup, src.connections),
      RiskSection(founder, startup, src.riskFactors, src.positiveFactors), social)
  }

  /** The entries of the profile the assessment does not read. */
  function BaseHead(founder: string, startup: string, keywords: seq<string>, now: string, src: Sources): map<string, Json> {
    map["founder_name" := Str(founder), "startup_name" := Str(startup),
        "linkedin_profile" := LinkedinProfile(founder, src.hasSession, src.headStatus),
        "collection_timestamp" := Str(now), "collection_method" := Str("multi_source_analysis"),
        "search_keywords" := StrList(keywords)]
  }

  /** The five sections the assessment reads, added to the other entries. */
  function WithSections(head: map<string, Json>, experience: Json, education: Json, network: Json,
                        risk: Json, social: Json): (r: map<string, Json>)
    ensures r.Keys == head.Keys + {ExperienceKey, EducationKey, NetworkKey, RiskKey, SocialKey}
    ensures r[ExperienceKey] == experience && r[EducationKey] == education && r[NetworkKey] == network
    ensures r[RiskKey] == risk && r[SocialKey] == social
  {
    assert |EducationKey| == 22 && |NetworkKey| == 15 && |ExperienceKey| == 23 && |SocialKey| == 21 && |RiskKey| == 15;
    assert NetworkKey[0] != RiskKey[0];
    head[ExperienceKey := experience][EducationKey := education][NetworkKey := network]
        [RiskKey := risk][SocialKey := social]
  }

  /** The assessment reads its five inputs from the five sections, whatever
    * the other entries. */
  lemma SectionScores(head: map<string, Json>, experience: Json, education: Json, network: Json,
                      risk: Json, social: Json, summary: Json)
    requires Section(experience, SummaryKey) == Some(summary)
    requires NumberAt(summary, TotalYearsKey, 0.0).Some?
    requires NumberAt(education, EducationScoreKey, 0.0).Some? && NumberAt(network, NetworkScoreKey, 0.0).Some?
    requires NumberAt(social, PresenceScoreKey, 0.0).Some? && NumberAt(risk, RiskScoreKey, 0.5).Some?
    ensures ProfileScores(WithSections(head, experience, education, network, risk, social))
         == Some([NumberAt(education, EducationScoreKey, 0.0).value, NumberAt(network, NetworkScoreKey, 0.0).value,
                  NumberAt(summary, TotalYearsKey, 0.0).value, NumberAt(social, PresenceScoreKey, 0.0).value,
                  NumberAt(risk, RiskScoreKey, 0.5).value])
  {
  }

  const OverallKey := "overall_assessment"

  function AssessmentJson(a: Assessment): (r: Json)
    ensures r.Obj? && "overall_score" in r.fields && r.fields["overall_score"] == Num(a.overallScore)
  {
    Obj(map["strengths" := StrList(a.strengths), "weaknesses" := StrList(a.weaknesses),
            "recommendation" := Str(a.recommendation), "key_insights" := Arr([]),
            "overall_score" := Num(a.overallScore)])
  }

  /** The profile with its assessment added; `None` when the assessment
    * raises. */
  function WithAssessment(profile: map<string, Json>): (r: Option<map<string, Json>>)
    ensures r.Some? <==> OverallAssessment(profile).Some?
    ensures r.Some? ==> r.value == profile[OverallKey := AssessmentJson(OverallAssessment(profile).value)]
  {
    match OverallAssessment(profile)
    case None => None
    case Some(a) => Some(profile[OverallKey := AssessmentJson(a)])
  }

  /** `_collect_founder_background` as written: without the social search
    * only five results are gathered, their unpacking into six names raises,
    * and the handler returns `None`. */
  function CollectFounderBackgroundAsWritten(founder: string, startup: string, keywords: seq<string>,
                                             searchSocial: bool, now: string, src: Sources): Option<map<string, Json>>
  {
    if !searchSocial then None
    else WithAssessment(BaseProfile(founder, startup, keywords, now, src, SocialSection(founder, src.platformScores)))
  }

  /** `_collect_founder_background` as intended: without the social search
    * the presence section is the empty dictionary of a failed task. */
  function CollectFounderBackground(founder: string, startup: string, keywords: seq<string>,
                                    searchSocial: bool, now: string, src: Sources): Option<map<string, Json>>
  {
    var social := if searchSocial then SocialSection(founder, src.platformScores) else Obj(map[]);
    WithAssessment(BaseProfile(founder, startup, keywords, now, src, social))
  }

  /** The assessment computed directly from the collected scores:
    * education, network, total years, presence (0 without the social
    * search) and risk. */
  function FounderAssessment(searchSocial: bool, src: Sources): Assessment {
    AssessFrom(EducationQuality(src.degrees), NetworkQuality(src.connections),
               TotalYears(src.experiences) as real,
               if searchSocial then PresenceScore(src.platformScores) else 0.0,
               RiskScore(|src.riskFactors|, |src.positiveFactors|))
  }

  /** The collected profile always carries an assessment, and it is the one
    * computed from the scores its sections were built from. */
  lemma ProfileAssessment(founder: string, startup: string, keywords: seq<string>,
                          searchSocial: bool, now: string, src: Sources)
    ensures var r := CollectFounderBackground(founder, startup, keywords, searchSocial, now, src);
      var social := if searchSocial then SocialSection(founder, src.platformScores) else Obj(map[]);
      && r.Some?
      && r.value == BaseProfile(founder, startup, keywords, now, src, social)[OverallKey := AssessmentJson(
           FounderAssessment(searchSocial, src))]
  {
    var social := if searchSocial then SocialSection(founder, src.platformScores) else Obj(map[]);
    BaseProfileScores(founder, startup, keywords, now, src, social,
                      if searchSocial then PresenceScore(src.platformScores) else 0.0);
  }

  /** The scores read back from the profile are the ones its sections were
    * built from. */
  lemma BaseProfileScores(founder: string, startup: string, keywords: seq<string>, now: string,
                          src: Sources, social: Json, presence: real)
    requires NumberAt(social, PresenceScoreKey, 0.0) == Some(presence)
    ensures ProfileScores(BaseProfile(founder, startup, keywords, now, src, social))
         == Some([EducationQuality(src.degrees), NetworkQuality(src.connections),
                  TotalYears(src.experiences) as real, presence,
                  RiskScore(|src.riskFactors|, |src.positiveFactors|)])
  {
    var experience := ExperienceSection(founder, startup, src.experiences);
    SectionScores(BaseHead(founder, startup, keywords, now, src), experience,
                  EducationSection(founder, src.degrees), NetworkSection(founder, startup, src.connections),
                  RiskSection(founder, startup, src.riskFactors, src.positiveFactors), social,
                  experience.fields[SummaryKey]);
  }

  /** With durations non-negative, connection relevances non-negative and
    * platform scores in [0, 1], the overall score is in [0, 1]. */
  lemma ProfileScoreInRange(searchSocial: bool, src: Sources)
    requires forall i :: 0 <= i < |src.experiences| ==> src.experiences[i].durationYears >= 0
    requires forall i :: 0 <= i < |src.connections| ==> 0.0 <= src.connections[i].relevance
    requires forall i :: 0 <= i < |src.platformScores| ==> 0.0 <= src.platformScores[i] <= 1.0
    ensures 0.0 <= FounderAssessment(searchSocial, src).overallScore <= 1.0
  {
    YearsWithinTotal(src.experiences, []);
    AssessRange(EducationQuality(src.degrees), NetworkQuality(src.connections),
                TotalYears(src.experiences) as real,
                if searchSocial then PresenceScore(src.platformScores) else 0.0,
                RiskScore(|src.riskFactors|, |src.positiveFactors|));
  }

  /** With the social search both readings give the same profile; without
    * it the code as written loses the founder, the intended one does not. */
  lemma SocialSearchOff(founder: string, startup: string, keywords: seq<string>,
                        searchSocial: bool, now: string, src: Sources)
    ensures searchSocial ==>
      CollectFounderBackgroundAsWritten(founder, startup, keywords, searchSocial, now, src)
      == CollectFounderBackground(founder, startup, keywords, searchSocial, now, src)
    ensures !searchSocial ==>
      CollectFounderBackgroundAsWritten(founder, startup, keywords, searchSocial, now, src).None?
      && CollectFounderBackground(founder, startup, keywords, searchSocial, now, src).Some?
  {
    ProfileAssessment(founder, startup, keywords, searchSocial, now, src);
  }

  // ------------------------------------------------------------- collection

  /** `_search_for_founders`: two placeholder names for a startup name of
    * two or more words, none otherwise. */
  function SearchForFounders(startup: string): (r: seq<string>)
    ensures |r| <= 3
    ensures |r| > 0 <==> |SplitWs(startup)| >= 2
  {
    PySlice(if |SplitWs(startup)| >= 2 then ["John Smith", "Jane Johnson"] else [], 3)
  }

  /** `_discover_founders_from_website`: `pages` holds what fetching the
    * team, about, founders, leadership and people pages and then the main
    * page yields (`None` when the fetch fails); `extract` stands for the
    * name extraction. The first page with names gives at most three. */
  function DiscoverFounders(pages: seq<Option<string>>, extract: string -> seq<string>): (r: seq<string>)
    ensures |r| <= 3
    ensures |r| > 0 ==> exists i :: 0 <= i < |pages| && pages[i].Some? && r == PySlice(extract(pages[i].value), 3)
    ensures (forall i :: 0 <= i < |pages| ==> pages[i].None?) ==> r == []
  {
    if |pages| == 0 then []
    else if pages[0].Some? && |pages[0].value| > 0 && |extract(pages[0].value)| > 0 then
      PySlice(extract(pages[0].value), 3)
    else
      var r := DiscoverFounders(pages[1..], extract);
      assert forall i :: 1 <= i < |pages| ==> pages[i] == pages[1..][i - 1];
      r
  }

  /** The founder names `_collect_raw_data` works through: the given ones,
    * else those found on the company website, else the search's. */
  function FounderNames(given: seq<string>, website: string, pages: seq<Option<string>>,
                        extract: string -> seq<string>, startup: string): (r: seq<string>)
    ensures |given| > 0 ==> r == given
    ensures |given| == 0 && website == "" ==> r == SearchForFounders(startup)
  {
    var names := if |given| == 0 && |website| > 0 then DiscoverFounders(pages, extract) else given;
    if |names| == 0 then SearchForFounders(startup) else names
  }

  /** The profiles of the founders whose collection succeeds, in order; an
    * empty profile is falsy and is skipped. */
  function KeepSome(names: seq<string>, process: string -> Option<map<string, Json>>): (r: seq<map<string, Json>>)
    ensures |r| <= |names|
    ensures forall k :: 0 <= k < |r| ==> r[k] != map[]
    ensures forall k :: 0 <= k < |r| ==> exists j :: 0 <= j < |names| && process(names[j]) == Some(r[k])
  {
    if |names| == 0 then []
    else
      var rest := KeepSome(names[1..], process);
      assert forall j :: 1 <= j < |names| ==> names[j] == names[1..][j - 1];
      match process(names[0])
      case None => rest
      case Some(p) => if p != map[] then [p] + rest else rest
  }

  /** The loop over the first `max_results` names. */
  function CollectRaw(names: seq<string>, process: string -> Option<map<string, Json>>, maxResults: int): seq<map<string, Json>> {
    KeepSome(PySlice(names, maxResults), process)
  }

  /** `_collect_raw_data`'s loop. */
  method CollectRawData(names: seq<string>, process: string -> Option<map<string, Json>>, maxResults: int)
    returns (results: seq<map<string, Json>>)
    ensures results == CollectRaw(names, process, maxResults)
  {
    var todo := PySlice(names, maxResults);
    results := [];
    for i := 0 to |todo|
      invariant results + KeepSome(todo[i..], process) == KeepSome(todo, process)
    {
      assert todo[i..][1..] == todo[i + 1..];
      var data := process(todo[i]);
      if data.Some? && data.value != map[] {
        results := results + [data.value];
      }
    }
    assert todo[|todo|..] == [];
  }

  /** At most `max_results` profiles (a negative cap drops names from the
    * end), each the profile of one of the names. */
  lemma CollectCapped(names: seq<string>, process: string -> Option<map<string, Json>>, maxResults: int)
    ensures var r := CollectRaw(names, process, maxResults);
      && (maxResults >= 0 ==> |r| <= maxResults)
      && |r| <= |names|
      && forall k :: 0 <= k < |r| ==> exists j :: 0 <= j < |names| && process(names[j]) == Some(r[k])
  {
    var todo := PySlice(names, maxResults);
    var r := CollectRaw(names, process, maxResults);
    forall k | 0 <= k < |r| ensures exists j :: 0 <= j < |names| && process(names[j]) == Some(r[k]) {
      var j :| 0 <= j < |todo| && process(todo[j]) == Some(r[k]);
      assert todo[j] == names[j];
    }
  }

  /** A one-word startup name with no founder names and no website finds
    * nobody. */
  lemma OneWordNoFounders(startup: string, pages: seq<Option<string>>, extract: string -> seq<string>)
    requires forall i :: 0 <= i < |startup| ==> !IsSpace(startup[i])
    ensures FounderNames([], "", pages, extract, startup) == []
  {
    NoSpaceSingleWord(startup);
  }

  /** Splitting a text without whitespace gives at most one word. */
  lemma NoSpaceSingleWord(s: string)
    requires forall i :: 0 <= i < |s| ==> !IsSpace(s[i])
    ensures |SplitWs(s)| <= 1
  {
  }

  /** Without the social search the code as written collects no founder at
    * all. */
  lemma AsWrittenCollectsNoFounder(names: seq<string>, startup: string, keywords: seq<string>, now: string,
                                   sources: string -> Sources, maxResults: int)
    ensures CollectRaw(names, n => CollectFounderBackgroundAsWritten(n, startup, keywords, false, now, sources(n)),
                       maxResults) == []
  {
    var process := n => CollectFounderBackgroundAsWritten(n, startup, keywords, false, now, sources(n));
    var todo := PySlice(names, maxResults);
    KeepNone(todo, process);
  }

  /** When no name yields a profile, none is kept. */
  lemma {:induction false} KeepNone(names: seq<string>, process: string -> Option<map<string, Json>>)
    requires forall j :: 0 <= j < |names| ==> process(names[j]).None?
    ensures KeepSome(names, process) == []
  {
    if |names| > 0 {
      assert process(names[0]).None?;
      KeepNone(names[1..], process);
    }
  }
}
