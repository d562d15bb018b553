// The shared record every collector emits, its dictionary form, the
// per-item normalisation, the collection envelope with graceful degradation,
// and the bounded retry loop with exponential backoff.

module BaseCollector {
  import opened Values

  datatype DataSource = PitchDeck | Whitepaper | Website | Tokenomics | FounderProfile

  /** The enum's string value. */
  function SourceValue(d: DataSource): string {
    match d
    case PitchDeck => "pitch_deck"
    case Whitepaper => "whitepaper"
    case Website => "website"
    case Tokenomics => "tokenomics"
    case FounderProfile => "founder_profile"
  }

  /** `DataSource(value)`: looks a member up by its value. */
  function ParseSource(s: string): (r: Option<DataSource>)
    ensures r.Some? ==> SourceValue(r.value) == s
  {
    if s == "pitch_deck" then Some(PitchDeck)
    else if s == "whitepaper" then Some(Whitepaper)
    else if s == "website" then Some(Website)
    else if s == "tokenomics" then Some(Tokenomics)
    else if s == "founder_profile" then Some(FounderProfile)
    else None
  }

  lemma SourceValueRoundTrip(d: DataSource)
    ensures ParseSource(SourceValue(d)) == Some(d)
  {
  }

  /** The five concrete collectors. */
  datatype CollectorKind =
    | PitchDeckParser
    | WhitepaperProcessor
    | WebsiteCrawler
    | TokenomicsCollector
    | FounderBackgroundCollector

  function ClassName(k: CollectorKind): string {
    match k
    case PitchDeckParser => "PitchDeckParser"
    case WhitepaperProcessor => "WhitepaperProcessor"
    case WebsiteCrawler => "WebsiteCrawler"
    case TokenomicsCollector => "TokenomicsCollector"
    case FounderBackgroundCollector => "FounderBackgroundCollector"
  }

  /** Each collector's `_get_source_type()`. */
  function SourceOf(k: CollectorKind): DataSource {
    match k
    case PitchDeckParser => PitchDeck
    case WhitepaperProcessor => Whitepaper
    case WebsiteCrawler => Website
    case TokenomicsCollector => Tokenomics
    case FounderBackgroundCollector => FounderProfile
  }

  /** The record. The timestamp is kept as its ISO text; the clock that
    * produces it is a parameter wherever a record is built. */
  datatype DataPoint = DataPoint(
    startupName: string,
    sourceType: DataSource,
    sourceUrl: Json,
    rawContent: Json,
    structuredData: map<string, Json>,
    collectionTimestamp: string,
    confidence: real,
    qualityIndicators: seq<string>,
    processingNotes: seq<string>,
    errors: seq<string>,
    retryCount: int,
    searchKeywords: seq<string>,
    searchStartupName: Option<string>)

  const FieldNames: set<string> := {
    "startup_name", "source_type", "source_url", "raw_content", "structured_data",
    "collection_timestamp", "confidence_score", "data_quality_indicators",
    "processing_notes", "errors", "retry_count", "search_keywords", "search_startup_name"
  }

  function OptStr(o: Option<string>): Json {
    match o
    case None => Null
    case Some(s) => Str(s)
  }

  /** `to_dict()`. */
  function ToDict(p: DataPoint): (d: map<string, Json>)
    ensures d.Keys == FieldNames
    ensures d["source_type"] == Str(SourceValue(p.sourceType))
  {
    map[
      "startup_name" := Str(p.startupName),
      "source_type" := Str(SourceValue(p.sourceType)),
      "source_url" := p.sourceUrl,
      "raw_content" := p.rawContent,
      "structured_data" := Obj(p.structuredData),
      "collection_timestamp" := Str(p.collectionTimestamp),
      "confidence_score" := Num(p.confidence),
      "data_quality_indicators" := StrList(p.qualityIndicators),
      "processing_notes" := StrList(p.processingNotes),
      "errors" := StrList(p.errors),
      "retry_count" := Num(p.retryCount as real),
      "search_keywords" := StrList(p.searchKeywords),
      "search_startup_name" := OptStr(p.searchStartupName)
    ]
  }

  /** `s.replace('Z', '+00:00')`. */
  function ReplaceZ(s: string): string {
    if |s| == 0 then ""
    else (if s[0] == 'Z' then "+00:00" else [s[0]]) + ReplaceZ(s[1..])
  }

  lemma {:induction false} ReplaceZIdentity(s: string)
    requires 'Z' !in s
    ensures ReplaceZ(s) == s
  {
    if |s| > 0 {
      ReplaceZIdentity(s[1..]);
      assert s == [s[0]] + s[1..];
    }
  }

  function AsReal(j: Json): Option<real> {
    if IsNumber(j) then Some(NumValue(j)) else None
  }

  function AsInt(j: Json): Option<int> {
    if j.Num? && j.n == j.n.Floor as real then Some(j.n.Floor) else None
  }

  function AsOptStr(j: Json): Option<Option<string>> {
    match j
    case Null => Some(None)
    case Str(s) => Some(Some(s))
    case _ => None
  }

  function AsMap(j: Json): Option<map<string, Json>> {
    if j.Obj? then Some(j.fields) else None
  }

  /** An optional constructor argument: its default when the key is absent. */
  function Field<T>(d: map<string, Json>, key: string, default: T, conv: Json -> Option<T>): Option<T> {
    if key in d then conv(d[key]) else Some(default)
  }

  /** `from_dict(data)`. The error cases are those of the source, in its
    * order: a missing or non-text timestamp, a timestamp that
    * `datetime.fromisoformat` rejects once 'Z' is replaced (`isIso` decides
    * that), a missing or unknown source type, an unexpected key or a missing
    * startup name. */
  function FromDict(d: map<string, Json>, isIso: string -> bool): (r: Result<DataPoint>)
    ensures r.Ok? ==> d.Keys <= FieldNames && "startup_name" in d && "source_type" in d
    ensures r.Ok? ==> d["source_type"] == Str(SourceValue(r.value.sourceType))
    ensures r.Ok? ==> "collection_timestamp" in d && d["collection_timestamp"].Str?
                      && r.value.collectionTimestamp == ReplaceZ(d["collection_timestamp"].s)
                      && isIso(r.value.collectionTimestamp)
  {
    if "collection_timestamp" !in d then Err("KeyError: 'collection_timestamp'")
    else if !d["collection_timestamp"].Str? then Err("AttributeError: replace")
    else if !isIso(ReplaceZ(d["collection_timestamp"].s)) then Err("ValueError: Invalid isoformat string")
    else if "source_type" !in d then Err("KeyError: 'source_type'")
    else if !d["source_type"].Str? || ParseSource(d["source_type"].s).None? then Err("ValueError: not a valid DataSource")
    else if !(d.Keys <= FieldNames) then Err("TypeError: unexpected keyword argument")
    else if "startup_name" !in d then Err("TypeError: missing argument 'startup_name'")
    else if !d["startup_name"].Str? then Err("TypeError: startup_name")
    else
      var sd := Field(d, "structured_data", map[], AsMap);
      var conf := Field(d, "confidence_score", 0.5, AsReal);
      var qi := Field(d, "data_quality_indicators", [], AsStrList);
      var notes := Field(d, "processing_notes", [], AsStrList);
      var errs := Field(d, "errors", [], AsStrList);
      var retry := Field(d, "retry_count", 0, AsInt);
      var kws := Field(d, "search_keywords", [], AsStrList);
      var ssn := Field(d, "search_startup_name", None, AsOptStr);
      if sd.None? || conf.None? || qi.None? || notes.None? || errs.None? || retry.None? || kws.None? || ssn.None? then
        Err("TypeError: field of unexpected type")
      else
        Ok(DataPoint(
          d["startup_name"].s,
          ParseSource(d["source_type"].s).value,
          GetOr(d, "source_url", Null),
          GetOr(d, "raw_content", Null),
          sd.value,
          ReplaceZ(d["collection_timestamp"].s),
          conf.value,
          qi.value,
          notes.value,
          errs.value,
          retry.value,
          kws.value,
          ssn.value))
  }

  /** Each field of `to_dict(p)` reads back, through its conversion, as the field of `p`. */
  lemma ToDictFields(p: DataPoint)
    ensures var d := ToDict(p);
      && Field(d, "structured_data", map[], AsMap) == Some(p.structuredData)
      && Field(d, "confidence_score", 0.5, AsReal) == Some(p.confidence)
      && Field(d, "data_quality_indicators", [], AsStrList) == Some(p.qualityIndicators)
      && Field(d, "processing_notes", [], AsStrList) == Some(p.processingNotes)
      && Field(d, "errors", [], AsStrList) == Some(p.errors)
      && Field(d, "retry_count", 0, AsInt) == Some(p.retryCount)
      && Field(d, "search_keywords", [], AsStrList) == Some(p.searchKeywords)
      && Field(d, "search_startup_name", None, AsOptStr) == Some(p.searchStartupName)
  {
    ToDictListFields(p);
    ToDictScalarFields(p);
  }

  lemma ToDictListFields(p: DataPoint)
    ensures var d := ToDict(p);
      && Field(d, "data_quality_indicators", [], AsStrList) == Some(p.qualityIndicators)
      && Field(d, "processing_notes", [], AsStrList) == Some(p.processingNotes)
      && Field(d, "errors", [], AsStrList) == Some(p.errors)
      && Field(d, "search_keywords", [], AsStrList) == Some(p.searchKeywords)
  {
    StrListRoundTrip(p.qualityIndicators);
    StrListRoundTrip(p.processingNotes);
    StrListRoundTrip(p.errors);
    StrListRoundTrip(p.searchKeywords);
  }

  lemma ToDictScalarFields(p: DataPoint)
    ensures var d := ToDict(p);
      && Field(d, "structured_data", map[], AsMap) == Some(p.structuredData)
      && Field(d, "confidence_score", 0.5, AsReal) == Some(p.confidence)
      && Field(d, "retry_count", 0, AsInt) == Some(p.retryCount)
      && Field(d, "search_startup_name", None, AsOptStr) == Some(p.searchStartupName)
  {
    var d := ToDict(p);
    assert d["structured_data"] == Obj(p.structuredData);
    assert d["confidence_score"] == Num(p.confidence);
    assert d["retry_count"] == Num(p.retryCount as real);
    assert (p.retryCount as real).Floor == p.retryCount;
    assert d["search_startup_name"] == OptStr(p.searchStartupName);
  }

  /** `from_dict(to_dict(p))`, for a timestamp in the form `isoformat`
    * writes, gives back the name, source type and confidence, and the whole
    * record when the timestamp has no 'Z'. */
  lemma FromDictToDict(p: DataPoint, isIso: string -> bool)
    requires isIso(ReplaceZ(p.collectionTimestamp))
    ensures FromDict(ToDict(p), isIso).Ok?
    ensures FromDict(ToDict(p), isIso).value.startupName == p.startupName
    ensures FromDict(ToDict(p), isIso).value.sourceType == p.sourceType
    ensures FromDict(ToDict(p), isIso).value.confidence == p.confidence
    ensures 'Z' !in p.collectionTimestamp ==> FromDict(ToDict(p), isIso) == Ok(p)
  {
    FromDictOfToDict(p, isIso);
    if 'Z' !in p.collectionTimestamp {
      ReplaceZIdentity(p.collectionTimestamp);
    }
  }

  /** Reading back `to_dict(p)` changes only the timestamp's 'Z', and fails
    * exactly when `fromisoformat` rejects the timestamp. */
  lemma FromDictOfToDict(p: DataPoint, isIso: string -> bool)
    ensures isIso(ReplaceZ(p.collectionTimestamp)) ==>
              FromDict(ToDict(p), isIso) == Ok(p.(collectionTimestamp := ReplaceZ(p.collectionTimestamp)))
    ensures !isIso(ReplaceZ(p.collectionTimestamp)) ==> FromDict(ToDict(p), isIso).Err?
  {
    var d := ToDict(p);
    SourceValueRoundTrip(p.sourceType);
    ToDictFields(p);
    assert d["collection_timestamp"] == Str(p.collectionTimestamp);
    assert d["startup_name"] == Str(p.startupName);
    assert GetOr(d, "source_url", Null) == p.sourceUrl;
    assert GetOr(d, "raw_content", Null) == p.rawContent;
  }

  // ------------------------------------------------------------ normalising

  const ExcludedFields: set<string> := {"content", "text", "data", "url", "source_url", "link", "html"}

  /** `_calculate_confidence_score`. */
  function Confidence(raw: map<string, Json>): (r: real)
    ensures 0.5 <= r <= 1.0
    ensures raw == map[] ==> r == 0.5
  {
    var score := 0.5
      + (if Truthy(Get(raw, "content")) || Truthy(Get(raw, "text")) then 0.2 else 0.0)
      + (if Truthy(Get(raw, "url")) || Truthy(Get(raw, "source_url")) then 0.1 else 0.0)
      + (if Truthy(Get(raw, "metadata")) then 0.1 else 0.0)
      + (if Truthy(Get(raw, "title")) then 0.1 else 0.0);
    Min(score, 1.0)
  }

  /** Each completeness signal raises the base score by its own fixed bonus. */
  lemma ConfidenceBonuses(raw: map<string, Json>)
    ensures Confidence(raw) ==
      0.5
      + (if Truthy(Get(raw, "content")) || Truthy(Get(raw, "text")) then 0.2 else 0.0)
      + (if Truthy(Get(raw, "url")) || Truthy(Get(raw, "source_url")) then 0.1 else 0.0)
      + (if Truthy(Get(raw, "metadata")) then 0.1 else 0.0)
      + (if Truthy(Get(raw, "title")) then 0.1 else 0.0)
    ensures Confidence(raw) == 1.0 <==>
      (Truthy(Get(raw, "content")) || Truthy(Get(raw, "text")))
      && (Truthy(Get(raw, "url")) || Truthy(Get(raw, "source_url")))
      && Truthy(Get(raw, "metadata")) && Truthy(Get(raw, "title"))
  {
  }

  /** `_extract_structured_data`. */
  function StructuredData(raw: map<string, Json>): (r: map<string, Json>)
    ensures r.Keys == raw.Keys - ExcludedFields
    ensures forall k :: k in r ==> r[k] == raw[k]
  {
    map k | k in raw && k !in ExcludedFields :: raw[k]
  }

  /** `_assess_data_quality`; `None` where `len(content)` raises. */
  function QualityIndicators(raw: map<string, Json>): (r: Option<seq<string>>)
    ensures r.None? <==> Truthy(Get(raw, "content")) && !HasLen(Get(raw, "content"))
  {
    var c := Get(raw, "content");
    if Truthy(c) && !HasLen(c) then None
    else Some(
      (if Truthy(c) && Len(c) > 100 then ["substantial_content"] else [])
      + (if Truthy(Get(raw, "url")) then ["has_source_url"] else [])
      + (if Truthy(Get(raw, "metadata")) then ["has_metadata"] else [])
      + (if Truthy(Get(raw, "title")) then ["has_title"] else []))
  }

  /** Each tag is present exactly when its condition holds. */
  lemma QualityTags(raw: map<string, Json>)
    requires QualityIndicators(raw).Some?
    ensures var tags := QualityIndicators(raw).value;
      && |tags| <= 4
      && ("substantial_content" in tags <==> Truthy(Get(raw, "content")) && Len(Get(raw, "content")) > 100)
      && ("has_source_url" in tags <==> Truthy(Get(raw, "url")))
      && ("has_metadata" in tags <==> Truthy(Get(raw, "metadata")))
      && ("has_title" in tags <==> Truthy(Get(raw, "title")))
  {
  }

  /** `_generate_processing_notes`. */
  function ProcessingNotes(k: CollectorKind, raw: map<string, Json>): (r: seq<string>)
    ensures 1 <= |r| <= 2 && r[0] == "Collected via " + ClassName(k)
    ensures |r| == 2 <==> Truthy(Get(raw, "collection_method"))
  {
    ["Collected via " + ClassName(k)]
    + (if Truthy(Get(raw, "collection_method")) then ["Method: " + Display(raw["collection_method"])] else [])
  }

  /** Python's `a or b or …`: the first truthy operand, else the last one. */
  function FirstTruthy(xs: seq<Json>): Json
    requires |xs| > 0
  {
    if |xs| == 1 || Truthy(xs[0]) then xs[0] else FirstTruthy(xs[1..])
  }

  lemma FirstTruthyOfThree(a: Json, b: Json, c: Json)
    ensures FirstTruthy([a, b, c]) == Or(Or(a, b), c)
  {
    assert [a, b, c][1..] == [b, c];
    assert [b, c][1..] == [c];
    assert FirstTruthy([c]) == c;
    assert FirstTruthy([b, c]) == Or(b, c);
  }

  /** `_normalize_data`; `None` where it catches an exception (an item that is
    * not a dictionary, or a content value without a length). */
  function Normalize(k: CollectorKind, item: Json, name: string, kws: seq<string>, now: string): Option<DataPoint> {
    if !item.Obj? then None
    else
      var raw := item.fields;
      match QualityIndicators(raw)
      case None => None
      case Some(tags) =>
        Some(DataPoint(
          name,
          SourceOf(k),
          Or(Or(Get(raw, "url"), Get(raw, "source_url")), Get(raw, "link")),
          Or(Or(Get(raw, "content"), Get(raw, "text")), Get(raw, "data")),
          StructuredData(raw),
          now,
          Confidence(raw),
          tags,
          ProcessingNotes(k, raw),
          [],
          0,
          kws,
          Some(name)))
  }

  /** The normalised record, if any, as a list of zero or one. */
  function OptionSeq<U>(o: Option<U>): (r: seq<U>)
    ensures |r| <= 1
  {
    match o
    case None => []
    case Some(p) => [p]
  }

  /** What every normalised record promises about its context. */
  predicate WellFormed(p: DataPoint, k: CollectorKind, name: string, kws: seq<string>) {
    && p.sourceType == SourceOf(k)
    && p.startupName == name
    && p.searchStartupName == Some(name)
    && p.searchKeywords == kws
    && p.errors == []
    && 0.5 <= p.confidence <= 1.0
  }

  lemma NormalizeSpec(k: CollectorKind, item: Json, name: string, kws: seq<string>, now: string)
    ensures Normalize(k, item, name, kws, now).None? <==>
      !item.Obj? || (Truthy(Get(item.fields, "content")) && IsNumber(Get(item.fields, "content")))
    ensures Normalize(k, item, name, kws, now).Some? ==>
      var p := Normalize(k, item, name, kws, now).value;
      var raw := item.fields;
      && WellFormed(p, k, name, kws)
      && p.sourceUrl == FirstTruthy([Get(raw, "url"), Get(raw, "source_url"), Get(raw, "link")])
      && p.rawContent == FirstTruthy([Get(raw, "content"), Get(raw, "text"), Get(raw, "data")])
      && p.structuredData.Keys == raw.Keys - ExcludedFields
      && (forall key :: key in p.structuredData ==> p.structuredData[key] == raw[key])
      && p.confidence == Confidence(raw)
  {
    if item.Obj? {
      var raw := item.fields;
      FirstTruthyOfThree(Get(raw, "url"), Get(raw, "source_url"), Get(raw, "link"));
      FirstTruthyOfThree(Get(raw, "content"), Get(raw, "text"), Get(raw, "data"));
    }
  }

  /** The `Some` values of `f` over `items`, in order. */
  function KeepSome<T, U>(f: T -> Option<U>, items: seq<T>): seq<U> {
    if |items| == 0 then []
    else OptionSeq(f(items[0])) + KeepSome(f, items[1..])
  }

  lemma {:induction false} KeepSomeAppend<T, U>(f: T -> Option<U>, a: seq<T>, b: seq<T>)
    ensures KeepSome(f, a + b) == KeepSome(f, a) + KeepSome(f, b)
  {
    if |a| == 0 {
      assert a + b == b;
    } else {
      assert (a + b)[0] == a[0];
      assert (a + b)[1..] == a[1..] + b;
      KeepSomeAppend(f, a[1..], b);
    }
  }

  lemma KeepSomeStep<T, U>(f: T -> Option<U>, items: seq<T>, i: nat)
    requires i < |items|
    ensures KeepSome(f, items[..i + 1]) == KeepSome(f, items[..i]) + OptionSeq(f(items[i]))
  {
    KeepSomeAppend(f, items[..i], [items[i]]);
    assert items[..i + 1] == items[..i] + [items[i]];
    assert [items[i]][1..] == [];
  }

  /** The items that survive normalisation, in their original order. */
  function NormalizeAll(k: CollectorKind, items: seq<Json>, name: string, kws: seq<string>, now: string): seq<DataPoint> {
    KeepSome(x => Normalize(k, x, name, kws, now), items)
  }

  lemma {:induction false} NormalizeAllWellFormed(k: CollectorKind, items: seq<Json>, name: string, kws: seq<string>, now: string)
    ensures |NormalizeAll(k, items, name, kws, now)| <= |items|
    ensures forall p :: p in NormalizeAll(k, items, name, kws, now) ==> WellFormed(p, k, name, kws)
  {
    if |items| > 0 {
      NormalizeSpec(k, items[0], name, kws, now);
      NormalizeAllWellFormed(k, items[1..], name, kws, now);
    }
  }

  /** `_graceful_degradation`. */
  function Degrade(k: CollectorKind, name: string, kws: seq<string>, msg: string, now: string): DataPoint {
    DataPoint(name, SourceOf(k), Null, Null, map[], now, 0.1, [],
      ["Graceful degradation for " + ClassName(k)], [msg], 0, kws, Some(name))
  }

  /** What `_collect_raw_data` delivered: its list, or the message of what it raised. */
  datatype Fetch = Fetched(items: seq<Json>) | Raised(msg: string)

  /** The records `collect_data` returns. */
  function CollectSpec(k: CollectorKind, name: string, kws: seq<string>, maxResults: int, fetch: Fetch, now: string): seq<DataPoint> {
    match fetch
    case Raised(msg) => [Degrade(k, name, kws, msg, now)]
    case Fetched(items) => PySlice(NormalizeAll(k, items, name, kws, now), maxResults)
  }

  /** A failure yields exactly one degraded record; success yields at most
    * `max_results` well-formed records in raw order. */
  lemma CollectSpecProperties(k: CollectorKind, name: string, kws: seq<string>, maxResults: int, fetch: Fetch, now: string)
    ensures var r := CollectSpec(k, name, kws, maxResults, fetch, now);
      fetch.Raised? ==>
        && |r| == 1
        && r[0].sourceType == SourceOf(k)
        && r[0].confidence == 0.1
        && r[0].errors == [fetch.msg]
        && r[0].processingNotes == ["Graceful degradation for " + ClassName(k)]
        && r[0].searchKeywords == kws
        && r[0].searchStartupName == Some(name)
    ensures var r := CollectSpec(k, name, kws, maxResults, fetch, now);
      fetch.Fetched? ==>
        && |r| <= |fetch.items|
        && (maxResults >= 0 ==> |r| <= maxResults)
        && r == NormalizeAll(k, fetch.items, name, kws, now)[..|r|]
        && (forall p :: p in r ==> WellFormed(p, k, name, kws))
  {
    if fetch.Fetched? {
      var all := NormalizeAll(k, fetch.items, name, kws, now);
      NormalizeAllWellFormed(k, fetch.items, name, kws, now);
      var r := PySlice(all, maxResults);
      forall p | p in r ensures WellFormed(p, k, name, kws) {
        var i :| 0 <= i < |r| && r[i] == p;
        assert all[i] == p;
      }
    }
  }

  function Repeat(x: real, n: nat): (r: seq<real>)
    ensures |r| == n && forall i :: 0 <= i < n ==> r[i] == x
  {
    seq(n, _ => x)
  }

  lemma RepeatSnoc(x: real, n: nat)
    ensures Repeat(x, n + 1) == Repeat(x, n) + [x]
  {
  }

  /** One call of the wrapped function: its value, or an exception. */
  datatype CallOutcome = Returned(value: Json) | Failed(error: string)

  /** Outcome of `_retry_with_backoff`: its return value, how many calls were
    * made, and the delays slept between them. */
  datatype RetryResult = RetryResult(value: Json, attempts: nat, sleeps: seq<real>)

  /** The retry loop from attempt `a` on, for `n` attempts in all. */
  function RetryFrom(outcome: nat -> CallOutcome, a: nat, n: int, base: real): RetryResult
    decreases n - a
  {
    if a >= n then RetryResult(Null, a, [])
    else match outcome(a)
      case Returned(v) => RetryResult(v, a + 1, [])
      case Failed(_) =>
        var rest := RetryFrom(outcome, a + 1, n, base);
        if a < n - 1 then AfterSleeps([Delay(base, a)], rest) else rest
  }

  /** `r` with the delays `s` slept before it. */
  function AfterSleeps(s: seq<real>, r: RetryResult): RetryResult {
    r.(sleeps := s + r.sleeps)
  }

  /** One failed attempt `a` before the last sleeps `base·2^a` and moves on. */
  lemma RetryStep(outcome: nat -> CallOutcome, a: nat, n: int, base: real)
    requires a < n && outcome(a).Failed?
    ensures a < n - 1 ==> RetryFrom(outcome, a, n, base) == AfterSleeps([Delay(base, a)], RetryFrom(outcome, a + 1, n, base))
    ensures a == n - 1 ==> RetryFrom(outcome, a, n, base) == RetryFrom(outcome, a + 1, n, base)
  {
  }

  /** The retry loop's step over a failed attempt, with the delays slept so far. */
  lemma RetryLoopStep(outcome: nat -> CallOutcome, a: nat, n: int, base: real, sleeps: seq<real>)
    requires a < n && outcome(a).Failed?
    ensures a < n - 1 ==>
      AfterSleeps(sleeps, RetryFrom(outcome, a, n, base)) == AfterSleeps(sleeps + [Delay(base, a)], RetryFrom(outcome, a + 1, n, base))
    ensures a == n - 1 ==>
      AfterSleeps(sleeps, RetryFrom(outcome, a, n, base)) == AfterSleeps(sleeps, RetryFrom(outcome, a + 1, n, base))
  {
    RetryStep(outcome, a, n, base);
    var rest := RetryFrom(outcome, a + 1, n, base);
    assert sleeps + ([Delay(base, a)] + rest.sleeps) == (sleeps + [Delay(base, a)]) + rest.sleeps;
  }

  /** The delay after failed attempt `a`: `base·2^a` seconds. */
  function Delay(base: real, a: nat): real {
    base * Pow2(a) as real
  }

  /** The backoff delays `base·2^i` for attempts `a` up to `b`. */
  function Backoff(base: real, a: nat, b: nat): (r: seq<real>)
    ensures |r| == if a <= b then b - a else 0
    decreases b - a
  {
    if a >= b then [] else [Delay(base, a)] + Backoff(base, a + 1, b)
  }

  lemma {:induction false} RetryFromSpec(outcome: nat -> CallOutcome, a: nat, n: int, base: real)
    ensures var r := RetryFrom(outcome, a, n, base);
      && a <= r.attempts
      && (a < n ==> r.attempts <= n)
      && (forall j :: a <= j < r.attempts - 1 ==> outcome(j).Failed?)
    ensures var r := RetryFrom(outcome, a, n, base);
      (exists j :: a <= j < n && outcome(j).Returned?) ==>
        && r.attempts > a
        && outcome(r.attempts - 1).Returned?
        && r.value == outcome(r.attempts - 1).value
        && r.sleeps == Backoff(base, a, r.attempts - 1)
    ensures var r := RetryFrom(outcome, a, n, base);
      (forall j :: a <= j < n ==> outcome(j).Failed?) ==>
        && r.value == Null
        && r.attempts == (if a < n then n else a)
        && r.sleeps == Backoff(base, a, if a < n then n - 1 else a)
    decreases n - a
  {
    if a < n {
      if outcome(a).Failed? {
        RetryFromSpec(outcome, a + 1, n, base);
      }
    }
  }

  /** `_retry_with_backoff` as a whole: at most `max_retries` calls, the first
    * success is returned, and a delay of `base·2^k` follows failed call `k`
    * only when another call comes after it. */
  lemma RetrySpec(outcome: nat -> CallOutcome, n: int, base: real)
    ensures var r := RetryFrom(outcome, 0, n, base);
      && r.attempts <= (if n < 0 then 0 else n)
      && (forall j :: 0 <= j < r.attempts - 1 ==> outcome(j).Failed?)
    ensures var r := RetryFrom(outcome, 0, n, base);
      (exists j :: 0 <= j < n && outcome(j).Returned?) ==>
        && r.attempts > 0
        && outcome(r.attempts - 1).Returned?
        && r.value == outcome(r.attempts - 1).value
        && r.sleeps == Backoff(base, 0, r.attempts - 1)
    ensures var r := RetryFrom(outcome, 0, n, base);
      (forall j :: 0 <= j < n ==> outcome(j).Failed?) ==>
        && r.value == Null
        && r.attempts == (if n < 0 then 0 else n)
        && r.sleeps == Backoff(base, 0, if n <= 0 then 0 else n - 1)
  {
    RetryFromSpec(outcome, 0, n, base);
  }

  /** With the default three attempts and a base delay of one second, a call
    * that always fails sleeps 1 then 2 seconds and yields None. */
  lemma DefaultRetriesAllFail(outcome: nat -> CallOutcome)
    requires forall j :: outcome(j).Failed?
    ensures RetryFrom(outcome, 0, 3, 1.0) == RetryResult(Null, 3, [1.0, 2.0])
  {
    RetrySpec(outcome, 3, 1.0);
    assert Backoff(1.0, 0, 2) == [1.0, 2.0];
  }

  /** A collector's retry and rate-limit settings. */
  class Collector {
    const kind: CollectorKind
    var rateLimitDelay: real
    var maxRetries: int
    var baseDelay: real

    /** `rate_limit_delay or config.RATE_LIMIT_DELAY`: a missing or zero
      * argument falls back to the configured delay. */
    constructor (kind: CollectorKind, rateLimitDelay: Option<real>, configDelay: real)
      ensures this.kind == kind
      ensures this.rateLimitDelay == if rateLimitDelay.Some? && rateLimitDelay.value != 0.0 then rateLimitDelay.value else configDelay
      ensures maxRetries == 3 && baseDelay == 1.0
    {
      this.kind := kind;
      this.rateLimitDelay := if rateLimitDelay.Some? && rateLimitDelay.value != 0.0 then rateLimitDelay.value else configDelay;
      maxRetries := 3;
      baseDelay := 1.0;
    }

    /** `collect_data`: normalise each raw item, sleep once per kept record,
      * truncate to `maxResults`; if the raw fetch raised, degrade gracefully. */
    method CollectData(name: string, kws: seq<string>, maxResults: int, fetch: Fetch, now: string)
      returns (points: seq<DataPoint>, sleeps: seq<real>)
      ensures points == CollectSpec(kind, name, kws, maxResults, fetch, now)
      ensures fetch.Raised? ==> sleeps == []
      ensures fetch.Fetched? ==> sleeps == Repeat(rateLimitDelay, |NormalizeAll(kind, fetch.items, name, kws, now)|)
    {
      match fetch
      case Raised(msg) =>
        points := [Degrade(kind, name, kws, msg, now)];
        sleeps := [];
      case Fetched(items) =>
        var normalized;
        normalized, sleeps := NormalizeItems(items, name, kws, now);
        points := PySlice(normalized, maxResults);
    }

    /** The loop of `collect_data` over the raw items: keep what normalises,
      * sleeping once per kept record. */
    method NormalizeItems(items: seq<Json>, name: string, kws: seq<string>, now: string)
      returns (normalized: seq<DataPoint>, sleeps: seq<real>)
      ensures normalized == NormalizeAll(kind, items, name, kws, now)
      ensures sleeps == Repeat(rateLimitDelay, |normalized|)
    {
      normalized := [];
      sleeps := [];
      var i := 0;
      while i < |items|
        invariant 0 <= i <= |items|
        invariant normalized == NormalizeAll(kind, items[..i], name, kws, now)
        invariant sleeps == Repeat(rateLimitDelay, |normalized|)
      {
        var item := Normalize(kind, items[i], name, kws, now);
        KeepSomeStep(x => Normalize(kind, x, name, kws, now), items, i);
        if item.Some? {
          RepeatSnoc(rateLimitDelay, |normalized|);
          normalized := normalized + [item.value];
          sleeps := sleeps + [rateLimitDelay];
        }
        i := i + 1;
      }
      assert items[..|items|] == items;
    }

    /** `_retry_with_backoff` over a call whose k-th outcome is `outcome(k)`. */
    method RetryWithBackoff(outcome: nat -> CallOutcome) returns (value: Json, attempts: nat, sleeps: seq<real>)
      ensures RetryResult(value, attempts, sleeps) == RetryFrom(outcome, 0, maxRetries, baseDelay)
    {
      var n, base := maxRetries, baseDelay;
      var attempt: nat := 0;
      sleeps := [];
      while attempt < n
        invariant attempt <= 0 || attempt <= n
        invariant RetryFrom(outcome, 0, n, base) == AfterSleeps(sleeps, RetryFrom(outcome, attempt, n, base))
        decreases n - attempt
      {
        match outcome(attempt)
        case Returned(v) =>
          return v, attempt + 1, sleeps;
        case Failed(_) =>
          RetryLoopStep(outcome, attempt, n, base, sleeps);
          if attempt < n - 1 {
            sleeps := sleeps + [Delay(base, attempt)];
          }
          attempt := attempt + 1;
      }
      value, attempts := Null, attempt;
    }
  }
}
