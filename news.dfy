// The news aggregator (agent/data_collectors/news_aggregator.py): which feed
// entries count as funding news for a category, and which capitalised title
// words are taken as company names.

module News {
  import opened Values
  import DataParser

  type Record = map<string, Json>

  const TitleField := "title"
  const SummaryField := "summary"

  const FundingKeywords: seq<string> := ["funding", "raises", "investment", "series", "round", "capital", "venture"]
  const SectorKeywords: seq<string> := ["blockchain", "crypto", "web3", "defi"]

  /** The lower-cased category first, then the fixed sector words. */
  function CategoryKeywords(category: string): seq<string> {
    [Lower(category)] + SectorKeywords
  }

  /** `entry.get(key, '')` as an f-string renders it. */
  function FieldText(e: Record, key: string): string {
    if key in e then Display(e[key]) else ""
  }

  /** The lower-cased "title summary" text that the keywords are looked for in. */
  function EntryText(e: Record): string {
    Lower(FieldText(e, TitleField) + " " + FieldText(e, SummaryField))
  }

  /** `any(keyword in text for keyword in words)`. */
  function AnyIn(text: string, words: seq<string>): bool {
    |words| > 0 && (Contains(text, words[0]) || AnyIn(text, words[1..]))
  }

  /** `_is_funding_related`. */
  function IsFundingRelated(e: Record, category: string): bool {
    var text := EntryText(e);
    AnyIn(text, FundingKeywords) && AnyIn(text, CategoryKeywords(category))
  }

  lemma {:induction false} AnyInMeaning(text: string, words: seq<string>)
    ensures AnyIn(text, words) <==> exists k :: 0 <= k < |words| && Contains(text, words[k])
  {
    if |words| > 0 {
      AnyInMeaning(text, words[1..]);
      if exists k :: 1 <= k < |words| && Contains(text, words[k]) {
        var k :| 1 <= k < |words| && Contains(text, words[k]);
        assert words[1..][k - 1] == words[k];
      }
    }
  }

  /** An entry is funding news exactly when its lower-cased "title summary"
    * text contains some funding keyword and some category keyword. */
  lemma FundingRelatedMeaning(e: Record, category: string)
    ensures IsFundingRelated(e, category) <==>
      (exists k :: 0 <= k < |FundingKeywords| && Contains(EntryText(e), FundingKeywords[k]))
      && (exists k :: 0 <= k < |CategoryKeywords(category)| && Contains(EntryText(e), CategoryKeywords(category)[k]))
  {
    AnyInMeaning(EntryText(e), FundingKeywords);
    AnyInMeaning(EntryText(e), CategoryKeywords(category));
  }

  /** A missing title or summary reads as the empty text. */
  lemma MissingFieldIsEmpty(e: Record, category: string)
    ensures TitleField !in e ==> IsFundingRelated(e, category) == IsFundingRelated(e[TitleField := Str("")], category)
    ensures SummaryField !in e ==> IsFundingRelated(e, category) == IsFundingRelated(e[SummaryField := Str("")], category)
  {
    assert TitleField != SummaryField;
  }

  lemma ContainsAround(s: string, t: string, a: string, b: string)
    requires Contains(s, t)
    ensures Contains(a + s + b, t)
  {
    var i :| 0 <= i <= |s| && OccursAt(s, t, i);
    assert (a + s + b)[|a| + i..|a| + i + |t|] == s[i..i + |t|];
    assert OccursAt(a + s + b, t, |a| + i);
  }

  lemma {:induction false} AnyInAround(text: string, words: seq<string>, a: string, b: string)
    requires AnyIn(text, words)
    ensures AnyIn(a + text + b, words)
  {
    if Contains(text, words[0]) {
      ContainsAround(text, words[0], a, b);
    } else {
      AnyInAround(text, words[1..], a, b);
    }
  }

  /** Entry with the given title and summary texts. */
  function Entry(title: string, summary: string): Record {
    map[TitleField := Str(title), SummaryField := Str(summary)]
  }

  /** Keywords are matched as plain substrings, not whole words: an entry
    * that is funding news stays so whatever is written before its title and
    * after its summary, letters included. */
  lemma SubstringMatching(title: string, summary: string, before: string, after: string, category: string)
    requires IsFundingRelated(Entry(title, summary), category)
    ensures IsFundingRelated(Entry(before + title, summary + after), category)
  {
    var plain := Lower(title + " " + summary);
    var wider := Lower(before + title + " " + (summary + after));
    assert FieldText(Entry(title, summary), TitleField) == title;
    assert FieldText(Entry(before + title, summary + after), TitleField) == before + title;
    assert FieldText(Entry(title, summary), SummaryField) == summary;
    assert FieldText(Entry(before + title, summary + after), SummaryField) == summary + after;
    assert wider == Lower(before) + plain + Lower(after) by {
      assert before + title + " " + (summary + after) == before + (title + " " + summary) + after;
      LowerAppend(before + (title + " " + summary), after);
      LowerAppend(before, title + " " + summary);
    }
    AnyInAround(plain, FundingKeywords, Lower(before), Lower(after));
    AnyInAround(plain, CategoryKeywords(category), Lower(before), Lower(after));
  }

  /** The empty category is a substring of every text, so it lets through
    * every entry with a funding keyword. */
  lemma EmptyCategoryMatchesAll(e: Record)
    ensures IsFundingRelated(e, "") == AnyIn(EntryText(e), FundingKeywords)
  {
    assert OccursAt(EntryText(e), Lower(""), 0);
  }

  /** The category is compared in lower case. */
  lemma CategoryCaseIgnored(e: Record, category: string)
    ensures IsFundingRelated(e, Lower(category)) == IsFundingRelated(e, category)
  {
    DataParser.LowerIdempotent(category);
  }

  // ---- extract_companies_from_news ----

  /** `article.get('title', '')` as far as `.split()` accepts it: a missing
    * title is the empty text, anything but a text raises. */
  function TitleOf(a: Record): Option<string> {
    if TitleField !in a then Some("")
    else match a[TitleField]
      case Str(t) => Some(t)
      case _ => None
  }

  /** A title word taken as a company name: capitalised and longer than three. */
  predicate IsCompanyWord(w: string) {
    |w| > 0 && IsUpperLetter(w[0]) && |w| > 3
  }

  /** The company words of `words`, in order, duplicates kept. */
  function Picks(words: seq<string>): seq<string> {
    if |words| == 0 then []
    else
      var w := words[|words| - 1];
      Picks(words[..|words| - 1]) + (if IsCompanyWord(w) then [w] else [])
  }

  /** The `companies` list built over the articles, or None when a title
    * is not a text. */
  function CompanyList(articles: seq<Record>): Option<seq<string>> {
    if |articles| == 0 then Some([])
    else
      match CompanyList(articles[..|articles| - 1])
      case None => None
      case Some(before) =>
        match TitleOf(articles[|articles| - 1])
        case None => None
        case Some(t) => Some(before + Picks(SplitWs(t)))
  }

  function AsSet(xs: seq<string>): set<string> {
    set x | x in xs
  }

  /** `list(set(companies))`, its order left open. */
  function CompanySet(articles: seq<Record>): Option<set<string>> {
    match CompanyList(articles)
    case None => None
    case Some(c) => Some(AsSet(c))
  }

  method ExtractCompaniesFromNews(articles: seq<Record>) returns (r: Option<set<string>>)
    ensures r == CompanySet(articles)
  {
    var companies: seq<string> := [];
    for i := 0 to |articles|
      invariant CompanyList(articles[..i]) == Some(companies)
    {
      var title := TitleOf(articles[i]);
      assert articles[..i + 1][..i] == articles[..i];
      if title.None? {
        CompanyListFails(articles);
        return None;
      }
      var picked := PickCompanies(SplitWs(title.value));
      companies := companies + picked;
    }
    assert articles[..|articles|] == articles;
    r := Some(AsSet(companies));
  }

  /** The inner loop over one title's words, which `split()` never leaves empty. */
  method PickCompanies(words: seq<string>) returns (picked: seq<string>)
    requires forall k :: 0 <= k < |words| ==> |words[k]| > 0
    ensures picked == Picks(words)
  {
    picked := [];
    for j := 0 to |words|
      invariant picked == Picks(words[..j])
    {
      var word := words[j];
      assert words[..j + 1][..j] == words[..j];
      if IsUpperLetter(word[0]) && |word| > 3 {
        picked := picked + [word];
      }
    }
    assert words[..|words|] == words;
  }

  lemma {:induction false} PicksMeaning(words: seq<string>)
    ensures forall w :: w in Picks(words) <==> w in words && IsCompanyWord(w)
  {
    if |words| > 0 {
      PicksMeaning(words[..|words| - 1]);
      assert words == words[..|words| - 1] + [words[|words| - 1]];
    }
  }

  /** The extraction fails exactly when some article's title is not a text. */
  lemma {:induction false} CompanyListFails(articles: seq<Record>)
    ensures CompanyList(articles).None? <==> exists k :: 0 <= k < |articles| && TitleOf(articles[k]).None?
  {
    if |articles| > 0 {
      var init := articles[..|articles| - 1];
      CompanyListFails(init);
      if exists k :: 0 <= k < |init| && TitleOf(init[k]).None? {
        var k :| 0 <= k < |init| && TitleOf(init[k]).None?;
        assert articles[k] == init[k];
      }
      if exists k :: 0 <= k < |articles| && TitleOf(articles[k]).None? {
        var k :| 0 <= k < |articles| && TitleOf(articles[k]).None?;
        if k < |init| {
          assert init[k] == articles[k];
        }
      }
    }
  }

  /** `w` is a whitespace-separated word of the article's title. */
  predicate InTitle(a: Record, w: string) {
    TitleOf(a).Some? && w in SplitWs(TitleOf(a).value)
  }

  predicate InSomeTitle(articles: seq<Record>, w: string) {
    exists k :: 0 <= k < |articles| && InTitle(articles[k], w)
  }

  lemma ExistsSplit<T>(xs: seq<T>, init: seq<T>, p: T -> bool)
    requires |xs| > 0 && init == xs[..|xs| - 1]
    ensures (exists k :: 0 <= k < |xs| && p(xs[k])) <==>
      (exists k :: 0 <= k < |init| && p(init[k])) || p(xs[|xs| - 1])
  {
    if exists k :: 0 <= k < |xs| && p(xs[k]) {
      var k :| 0 <= k < |xs| && p(xs[k]);
      if k < |init| {
        assert p(init[k]);
      }
    }
  }

  lemma InSomeTitleSplit(articles: seq<Record>, w: string)
    requires |articles| > 0
    ensures InSomeTitle(articles, w) <==>
      InSomeTitle(articles[..|articles| - 1], w) || InTitle(articles[|articles| - 1], w)
  {
    ExistsSplit(articles, articles[..|articles| - 1], a => InTitle(a, w));
  }

  lemma {:induction false} CompanyListMeaning(articles: seq<Record>, w: string)
    requires CompanyList(articles).Some?
    ensures w in CompanyList(articles).value <==> IsCompanyWord(w) && InSomeTitle(articles, w)
  {
    if |articles| > 0 {
      var init := articles[..|articles| - 1];
      var last := articles[|articles| - 1];
      assert CompanyList(init).Some? && TitleOf(last).Some?;
      var words := SplitWs(TitleOf(last).value);
      assert CompanyList(articles).value == CompanyList(init).value + Picks(words);
      CompanyListMeaning(init, w);
      PicksMeaning(words);
      InSomeTitleSplit(articles, w);
    }
  }

  /** A name is reported exactly when it is a capitalised word longer than
    * three in some article's title. */
  lemma CompanySetMeaning(articles: seq<Record>, w: string)
    requires CompanyList(articles).Some?
    ensures w in CompanySet(articles).value <==>
      IsCompanyWord(w) && exists k :: 0 <= k < |articles| && InTitle(articles[k], w)
  {
    CompanyListMeaning(articles, w);
  }
}
