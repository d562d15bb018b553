// The scaffold deal-qualification agent (agent/dqda/agent.py) and its
// records (agent/dqda/models.py).

module DealModels {
  import opened Values
  import opened BaseCollector

  /** `DealInput`: a request to qualify one startup. */
  datatype DealInput = DealInput(
    startupName: string,
    pitchDeckPath: Option<string>,
    websiteUrl: Option<string>,
    whitepaperPath: Option<string>,
    tokenSymbol: Option<string>,
    additionalKeywords: seq<string>)

  const UnknownStartup := "Unknown Startup"

  /** `DealInput()` with every field at its default. */
  const DefaultDealInput := DealInput(UnknownStartup, None, None, None, None, [])

  /** `DealAssessment`; the timestamp is the ISO text `datetime.now()` gave. */
  datatype DealAssessment = DealAssessment(
    startupName: string,
    overallScore: real,
    confidenceScore: real,
    dataPoints: seq<DataPoint>,
    categoryScores: map<string, real>,
    flags: seq<string>,
    assessmentTimestamp: string)

  /** `DealAssessment(name, overall, confidence)`: no points, no category
    * scores, no flags. */
  function NewAssessment(name: string, overall: real, confidence: real, now: string): (a: DealAssessment)
    ensures a.dataPoints == [] && a.categoryScores == map[] && a.flags == []
    ensures a.startupName == name && a.overallScore == overall && a.confidenceScore == confidence
  {
    DealAssessment(name, overall, confidence, [], map[], [], now)
  }

  const AssessmentKeys: set<string> := {
    "startup_name", "overall_score", "confidence_score", "data_points",
    "category_scores", "flags", "assessment_timestamp"}

  /** `DealAssessment.to_dict`. */
  function AssessmentToDict(a: DealAssessment): map<string, Json> {
    map[
      "startup_name" := Str(a.startupName),
      "overall_score" := Num(a.overallScore),
      "confidence_score" := Num(a.confidenceScore),
      "data_points" := Arr(seq(|a.dataPoints|, i requires 0 <= i < |a.dataPoints| => Obj(ToDict(a.dataPoints[i])))),
      "category_scores" := Obj(map c | c in a.categoryScores :: Num(a.categoryScores[c])),
      "flags" := StrList(a.flags),
      "assessment_timestamp" := Str(a.assessmentTimestamp)]
  }

  /** The dict has exactly the seven keys, and every field reads back: the
    * points one by one through the record's own `to_dict`, in order, and the
    * scores, category scores, flags and timestamp unchanged. */
  lemma AssessmentToDictSpec(a: DealAssessment)
    ensures var d := AssessmentToDict(a);
      && d.Keys == AssessmentKeys
      && d["startup_name"] == Str(a.startupName)
      && d["overall_score"] == Num(a.overallScore)
      && d["confidence_score"] == Num(a.confidenceScore)
      && d["assessment_timestamp"] == Str(a.assessmentTimestamp)
      && AsStrList(d["flags"]) == Some(a.flags)
    ensures var d := AssessmentToDict(a);
      && d["data_points"].Arr? && |d["data_points"].items| == |a.dataPoints|
      && (forall i :: 0 <= i < |a.dataPoints| ==> d["data_points"].items[i] == Obj(ToDict(a.dataPoints[i])))
    ensures var d := AssessmentToDict(a);
      && d["category_scores"].Obj? && d["category_scores"].fields.Keys == a.categoryScores.Keys
      && (forall c :: c in a.categoryScores ==> d["category_scores"].fields[c] == Num(a.categoryScores[c]))
  {
    StrListRoundTrip(a.flags);
  }
}

module DealAgent {
  import opened Values
  import opened BaseCollector
  import opened DealModels

  /** Python truthiness of an optional string: present and non-empty. */
  predicate Given(o: Option<string>) {
    o.Some? && o.value != ""
  }

  /** The keywords every collector receives: the name, then the extra ones. */
  function Keywords(input: DealInput): (r: seq<string>)
    ensures |r| == 1 + |input.additionalKeywords| && r[0] == input.startupName
    ensures r[1..] == input.additionalKeywords
  {
    [input.startupName] + input.additionalKeywords
  }

  /** The keyword arguments `run` passes to each collector. */
  function Kwargs(input: DealInput): map<string, Json> {
    var m0: map<string, Json> := map[];
    var m1 := if Given(input.pitchDeckPath) then m0["pitch_deck_path" := Str(input.pitchDeckPath.value)] else m0;
    var m2 := if Given(input.websiteUrl)
      then m1["website_url" := Str(input.websiteUrl.value)]["base_urls" := Arr([Str(input.websiteUrl.value)])]
      else m1;
    var m3 := if Given(input.whitepaperPath) then m2["whitepaper_path" := Str(input.whitepaperPath.value)] else m2;
    if Given(input.tokenSymbol) then m3["token_symbol" := Str(input.tokenSymbol.value)] else m3
  }

  /** Each optional input is passed exactly when it is truthy, and a website
    * URL goes both as itself and as the one-element `base_urls`. */
  lemma KwargsSpec(input: DealInput)
    ensures var k := Kwargs(input);
      && ("pitch_deck_path" in k <==> Given(input.pitchDeckPath))
      && ("whitepaper_path" in k <==> Given(input.whitepaperPath))
      && ("token_symbol" in k <==> Given(input.tokenSymbol))
      && ("website_url" in k <==> Given(input.websiteUrl))
      && ("base_urls" in k <==> Given(input.websiteUrl))
      && k.Keys <= {"pitch_deck_path", "website_url", "base_urls", "whitepaper_path", "token_symbol"}
    ensures var k := Kwargs(input);
      && (Given(input.websiteUrl) ==>
            k["website_url"] == Str(input.websiteUrl.value) && k["base_urls"] == Arr([Str(input.websiteUrl.value)]))
      && (Given(input.pitchDeckPath) ==> k["pitch_deck_path"] == Str(input.pitchDeckPath.value))
      && (Given(input.tokenSymbol) ==> k["token_symbol"] == Str(input.tokenSymbol.value))
  {
  }

  /** `collect_data`'s default result cap, which `run` does not override. */
  const DefaultMaxResults := 10

  /** One `collect_data` call `run` schedules. */
  datatype Call = Call(collector: CollectorKind, startupName: string, keywords: seq<string>, maxResults: int, kwargs: map<string, Json>)

  /** What a collector's task came back with from `gather(..., return_exceptions=True)`. */
  datatype Outcome = ListResult(points: seq<DataPoint>) | Raised(message: string) | OtherValue(value: Json)

  /** The points an outcome contributes: those of a list, nothing otherwise. */
  function Contribution(o: Outcome): seq<DataPoint> {
    if o.ListResult? then o.points else []
  }

  /** The fan-in: list results concatenated in collector order. */
  function Flatten(outcomes: seq<Outcome>): seq<DataPoint> {
    if |outcomes| == 0 then []
    else Flatten(outcomes[..|outcomes| - 1]) + Contribution(outcomes[|outcomes| - 1])
  }

  lemma {:induction false} FlattenAppend(a: seq<Outcome>, b: seq<Outcome>)
    ensures Flatten(a + b) == Flatten(a) + Flatten(b)
    decreases |b|
  {
    if |b| == 0 {
      assert a + b == a;
    } else {
      assert (a + b)[..|a + b| - 1] == a + b[..|b| - 1];
      FlattenAppend(a, b[..|b| - 1]);
    }
  }

  /** A failed or non-list outcome is dropped and changes nothing else. */
  lemma {:induction false} FlattenDropsNonLists(outcomes: seq<Outcome>, i: nat)
    requires i < |outcomes| && !outcomes[i].ListResult?
    ensures Flatten(outcomes) == Flatten(outcomes[..i] + outcomes[i + 1..])
  {
    var a, x, b := outcomes[..i], outcomes[i], outcomes[i + 1..];
    assert outcomes == (a + [x]) + b;
    FlattenAppend(a + [x], b);
    FlattenAppend(a, [x]);
    assert Flatten([x]) == [] by {
      assert [x][..0] == [];
    }
    FlattenAppend(a, b);
  }

  /** The total of the weights, in the table's order. */
  function WeightSum(weights: seq<(string, real)>): real {
    if |weights| == 0 then 0.0 else WeightSum(weights[..|weights| - 1]) + weights[|weights| - 1].1
  }

  /** The categories of a weight table. */
  function Categories(weights: seq<(string, real)>): set<string> {
    set i | 0 <= i < |weights| :: weights[i].0
  }

  /** The placeholder score every configured category gets. */
  const CategoryScore := 7.5
  const ScaffoldFlag := "Scaffold Mode"

  /** `_calculate_assessment`. */
  function Assessment(name: string, points: seq<DataPoint>, weights: seq<(string, real)>, now: string): DealAssessment {
    if |points| == 0 then NewAssessment(name, 0.0, 0.0, now)
    else
      DealAssessment(
        name,
        Min(CategoryScore * WeightSum(weights), 10.0),
        SumBy(points, (p: DataPoint) => p.confidence) / |points| as real,
        points,
        map c | c in Categories(weights) :: CategoryScore,
        [ScaffoldFlag],
        now)
  }

  /** No points: scores 0 and nothing else. Otherwise the mean confidence,
    * 7.5 for every configured category, the capped weighted total and the
    * scaffold flag. */
  lemma AssessmentSpec(name: string, points: seq<DataPoint>, weights: seq<(string, real)>, now: string)
    ensures var a := Assessment(name, points, weights, now);
      |points| == 0 ==>
        && a.overallScore == 0.0 && a.confidenceScore == 0.0
        && a.categoryScores == map[] && a.flags == [] && a.dataPoints == []
    ensures var a := Assessment(name, points, weights, now);
      |points| > 0 ==>
        && a.dataPoints == points
        && a.flags == [ScaffoldFlag]
        && a.categoryScores.Keys == Categories(weights)
        && (forall c :: c in a.categoryScores ==> a.categoryScores[c] == 7.5)
        && a.overallScore <= 10.0
        && (a.overallScore == 10.0 || a.overallScore == 7.5 * WeightSum(weights))
        && a.overallScore == Min(7.5 * WeightSum(weights), 10.0)
        && a.confidenceScore == SumBy(points, (p: DataPoint) => p.confidence) / (|points| as real)
  {
  }

  /** The mean confidence lies between the extreme confidences. */
  lemma AssessmentConfidenceRange(name: string, points: seq<DataPoint>, weights: seq<(string, real)>, now: string, lo: real, hi: real)
    requires |points| > 0 && lo <= hi
    requires forall p :: p in points ==> lo <= p.confidence <= hi
    ensures lo <= Assessment(name, points, weights, now).confidenceScore <= hi
  {
    SumByBounds(points, (p: DataPoint) => p.confidence, lo, hi);
    MeanBounds(SumBy(points, (p: DataPoint) => p.confidence), |points| as real, lo, hi);
  }

  /** The default weight table of the agent's configuration. */
  const DefaultWeights: seq<(string, real)> :=
    [("team", 0.3), ("market", 0.2), ("product", 0.2), ("tokenomics", 0.15), ("traction", 0.15)]

  /** The default weights sum to 1, so a non-empty assessment scores 7.5. */
  lemma DefaultWeightsScore(name: string, points: seq<DataPoint>, now: string)
    requires |points| > 0
    ensures Assessment(name, points, DefaultWeights, now).overallScore == 7.5
  {
    var w := DefaultWeights;
    assert w[..1][..0] == [] && w[..2][..1] == w[..1] && w[..3][..2] == w[..2] && w[..4][..3] == w[..3];
    assert WeightSum(w[..1]) == 0.3;
    assert WeightSum(w[..2]) == 0.5;
    assert WeightSum(w[..3]) == 0.7;
    assert WeightSum(w[..4]) == 0.85;
    assert WeightSum(w) == 1.0;
  }

  /** The scaffold agent: a weight table and its registered collectors. */
  class DealQualificationAgent {
    var collectors: seq<CollectorKind>
    var weights: seq<(string, real)>

    constructor (weights: seq<(string, real)>)
      ensures this.collectors == [] && this.weights == weights
    {
      this.collectors := [];
      this.weights := weights;
    }

    /** `register_collector`: appended, so collectors run in registration order. */
    method RegisterCollector(c: CollectorKind)
      modifies this
      ensures collectors == old(collectors) + [c]
      ensures weights == old(weights)
    {
      collectors := collectors + [c];
    }

    /** The calls `run` schedules: one per collector, in registration order,
      * all with the same name, keywords and keyword arguments. */
    method ScheduleCalls(input: DealInput) returns (calls: seq<Call>)
      ensures |calls| == |collectors|
      ensures forall i :: 0 <= i < |calls| ==>
        calls[i] == Call(collectors[i], input.startupName, Keywords(input), DefaultMaxResults, Kwargs(input))
    {
      calls := [];
      var i := 0;
      while i < |collectors|
        invariant 0 <= i <= |collectors|
        invariant |calls| == i
        invariant forall j :: 0 <= j < i ==>
          calls[j] == Call(collectors[j], input.startupName, Keywords(input), DefaultMaxResults, Kwargs(input))
      {
        var keywords := [input.startupName] + input.additionalKeywords;
        var kwargs: map<string, Json> := map[];
        if Given(input.pitchDeckPath) {
          kwargs := kwargs["pitch_deck_path" := Str(input.pitchDeckPath.value)];
        }
        if Given(input.websiteUrl) {
          kwargs := kwargs["website_url" := Str(input.websiteUrl.value)];
          kwargs := kwargs["base_urls" := Arr([Str(input.websiteUrl.value)])];
        }
        if Given(input.whitepaperPath) {
          kwargs := kwargs["whitepaper_path" := Str(input.whitepaperPath.value)];
        }
        if Given(input.tokenSymbol) {
          kwargs := kwargs["token_symbol" := Str(input.tokenSymbol.value)];
        }
        calls := calls + [Call(collectors[i], input.startupName, keywords, DefaultMaxResults, kwargs)];
        i := i + 1;
      }
    }

    /** The fan-in loop of `run`. */
    static method Gather(outcomes: seq<Outcome>) returns (points: seq<DataPoint>)
      ensures points == Flatten(outcomes)
    {
      points := [];
      var i := 0;
      while i < |outcomes|
        invariant 0 <= i <= |outcomes|
        invariant points == Flatten(outcomes[..i])
      {
        assert outcomes[..i + 1][..i] == outcomes[..i];
        if outcomes[i].ListResult? {
          points := points + outcomes[i].points;
        }
        i := i + 1;
      }
      assert outcomes[..i] == outcomes;
    }

    /** `_calculate_assessment` over this agent's weight table. */
    method CalculateAssessment(name: string, points: seq<DataPoint>, now: string) returns (a: DealAssessment)
      ensures a == Assessment(name, points, weights, now)
    {
      if |points| == 0 {
        return NewAssessment(name, 0.0, 0.0, now);
      }
      var confidence := 0.0;
      var i := 0;
      while i < |points|
        invariant 0 <= i <= |points|
        invariant confidence == SumBy(points[..i], (p: DataPoint) => p.confidence)
      {
        assert points[..i + 1][..i] == points[..i];
        confidence := confidence + points[i].confidence;
        i := i + 1;
      }
      assert points[..i] == points;
      var scores: map<string, real> := map[];
      var total := 0.0;
      var j := 0;
      while j < |weights|
        invariant 0 <= j <= |weights|
        invariant total == CategoryScore * WeightSum(weights[..j])
        invariant scores == map c | c in Categories(weights[..j]) :: CategoryScore
      {
        assert weights[..j + 1][..j] == weights[..j];
        assert Categories(weights[..j + 1]) == Categories(weights[..j]) + {weights[j].0} by {
          assert forall k :: 0 <= k < j + 1 ==> weights[..j + 1][k] == weights[k];
        }
        scores := scores[weights[j].0 := CategoryScore];
        total := total + CategoryScore * weights[j].1;
        j := j + 1;
      }
      assert weights[..j] == weights;
      a := DealAssessment(name, Min(total, 10.0), confidence / |points| as real, points, scores, [ScaffoldFlag], now);
    }

    /** `run`: schedule one call per collector, gather the outcomes in the
      * same order (`outcomes[i]` is what collector `i` gave) and score the
      * concatenated points. */
    method Run(input: DealInput, outcomes: seq<Outcome>, now: string) returns (calls: seq<Call>, a: DealAssessment)
      requires |outcomes| == |collectors|
      ensures |calls| == |collectors|
      ensures forall i :: 0 <= i < |calls| ==>
        calls[i] == Call(collectors[i], input.startupName, Keywords(input), DefaultMaxResults, Kwargs(input))
      ensures a == Assessment(input.startupName, Flatten(outcomes), weights, now)
    {
      calls := ScheduleCalls(input);
      var points := Gather(outcomes);
      a := CalculateAssessment(input.startupName, points, now);
    }
  }
}
