// The website crawler (agent/dqda/data_collectors/website_crawler.py): URL
// blocking, page priority, name variations, the merge of company data, the
// internal-link filter, and the bounded breadth-first crawl, with page fetching,
// HTML link extraction, URL parsing and the regex company extractor as oracle
// parameters.

module WebsiteCrawling {
  import opened Values

  // ------------------------------------------------------------ URL blocking

  /** A blocked-URL pattern. The default list uses three regex shapes, each
    * matched case-insensitively anywhere in the URL: a literal piece of text,
    * a file extension at the end (`\.(jpg|...)$`, where `$` also matches just
    * before a final newline), and a `?` followed later on the same line by some
    * text (`\?.*utm_`). */
  datatype BlockPattern =
    | Literal(text: string)
    | Extension(exts: seq<string>)
    | Then(first: string, later: string)

  /** `later` occurs in `s` at or after `from` with no newline in between
    * (the regex `.*`). */
  predicate OccursLaterOnLine(s: string, later: string, from: nat) {
    exists j :: from <= j <= |s| && OccursAt(s, later, j) && forall m :: from <= m < j ==> s[m] != '\n'
  }

  predicate PatternMatches(p: BlockPattern, url: string) {
    var u := Lower(url);
    match p
    case Literal(t) => Contains(u, Lower(t))
    case Extension(exts) =>
      exists e :: 0 <= e < |exts| && (EndsWith(u, "." + Lower(exts[e])) || EndsWith(u, "." + Lower(exts[e]) + "\n"))
    case Then(a, b) => exists i :: 0 <= i <= |u| && OccursAt(u, Lower(a), i) && OccursLaterOnLine(u, Lower(b), i + |a|)
  }

  /** `_should_block_url`: some pattern matches. */
  predicate ShouldBlock(patterns: seq<BlockPattern>, url: string) {
    exists k :: 0 <= k < |patterns| && PatternMatches(patterns[k], url)
  }

  const Exts := ["jpg", "jpeg", "png", "gif", "css", "js", "xml", "json", "rss", "atom"]

  const Admin := "/admin"
  const Login := "/login"
  const Api := "/api/"

  /** The default `blocked_patterns`, in order. */
  const DefaultFirst: seq<BlockPattern> := [
    Literal(Admin), Literal(Login), Literal("/signup"), Literal("/register"), Literal("/dashboard"),
    Literal(Api), Literal("/v1/"), Literal("/v2/"), Literal("/internal"), Literal("/private")]
  const DefaultLater: seq<BlockPattern> := [
    Literal("/wp-admin"), Literal("/wp-content"), Literal("/wp-includes"), Literal("/phpmyadmin"),
    Literal("/cgi-bin"), Literal("/search?")]
  const DefaultBlocked: seq<BlockPattern> :=
    DefaultFirst + [Extension(Exts)] + DefaultLater + [Then("?", "utm_"), Then("?", "ref=")]

  /** So a literal pattern with a lowercase character the lowercased URL
    * lacks does not match. */
  lemma LiteralMisses(url: string, t: string, c: char)
    requires c in t && !IsUpperLetter(c) && c !in Lower(url)
    ensures !PatternMatches(Literal(t), url)
  {
    var k :| 0 <= k < |t| && t[k] == c;
    assert Lower(t)[k] == c;
    MissingCharNotContained(Lower(url), Lower(t), c);
  }

  const Example := "https://example.com"

  /** The regression test's blocked URLs: `/admin`, `/login`, `/api/v1/data`,
    * an image, and a search with a tracking parameter. */
  lemma BlockedAdmin()
    ensures ShouldBlock(DefaultBlocked, Example + Admin)
  {
    var a := Example + Admin;
    LowerIdentity(a);
    LowerIdentity(Admin);
    assert OccursAt(a, Admin, |Example|);
    assert PatternMatches(DefaultBlocked[0], a);
  }

  lemma BlockedLogin()
    ensures ShouldBlock(DefaultBlocked, Example + Login)
  {
    var l := Example + Login;
    LowerIdentity(l);
    LowerIdentity(Login);
    assert OccursAt(l, Login, |Example|);
    assert PatternMatches(DefaultBlocked[1], l);
  }

  lemma BlockedApi()
    ensures ShouldBlock(DefaultBlocked, Example + Api + "v1/data")
  {
    var p := Example + Api + "v1/data";
    LowerIdentity(p);
    LowerIdentity(Api);
    assert p[|Example|..|Example| + |Api|] == Api;
    assert OccursAt(p, Api, |Example|);
    assert PatternMatches(DefaultBlocked[5], p);
  }

  lemma BlockedImage()
    ensures ShouldBlock(DefaultBlocked, Example + "/image.jpg")
  {
    var img := Example + "/image.jpg";
    LowerIdentity(img);
    assert img[|img| - 4..] == ".jpg";
    assert EndsWith(Lower(img), "." + Lower(Exts[0]));
    assert PatternMatches(DefaultBlocked[10], img);
  }

  /** `$` also matches just before a final newline, so an extension followed
    * by one newline is still blocked. */
  lemma BlockedBeforeNewline()
    ensures ShouldBlock(DefaultBlocked, Example + "/a.json\n")
  {
    var j := Example + "/a.json\n";
    LowerIdentity(j);
    assert j[|j| - 6..] == ".json\n";
    assert EndsWith(Lower(j), "." + Lower(Exts[7]) + "\n");
    assert PatternMatches(DefaultBlocked[10], j);
  }

  lemma BlockedSearch()
    ensures ShouldBlock(DefaultBlocked, Example + "/search?" + "utm_source=google")
  {
    var q := Example + "/search?" + "utm_source=google";
    LowerIdentity(q);
    LowerIdentity("/search?");
    assert q[|Example|..|Example| + 8] == "/search?";
    assert OccursAt(q, "/search?", |Example|);
    assert PatternMatches(DefaultBlocked[16], q);
  }

  /** Characters such that every literal default pattern holds one. */
  const Witnesses: set<char> := {'d', 'g', 'i', 'v', 'r', 'w', '?'}

  /** A URL whose lowercase form has none of these characters and no `.`
    * among its last five, or its last six when it ends in a newline, is not
    * blocked by the default list: each literal pattern holds a witness, each
    * extension needs a `.` at most five from the end, or six before a final
    * newline, and the two parameter patterns need a `?`. */
  lemma NotBlockedWithout(url: string)
    requires forall i :: 0 <= i < |url| ==> Lower(url)[i] !in Witnesses
    requires forall i :: 0 <= i < |url| && |url| - 5 <= i ==> Lower(url)[i] != '.'
    requires |url| > 0 && url[|url| - 1] == '\n' ==> forall i :: 0 <= i < |url| && |url| - 6 <= i ==> Lower(url)[i] != '.'
    ensures !ShouldBlock(DefaultBlocked, url)
  {
    FirstLiteralsMiss(url);
    LaterLiteralsMiss(url);
    ShapesMiss(url);
    forall k | 0 <= k < |DefaultBlocked| ensures !PatternMatches(DefaultBlocked[k], url) {
      if k < 10 {
        assert DefaultFirst[k] == DefaultBlocked[k];
      } else if k == 10 {
      } else if k < 17 {
        assert DefaultLater[k - 11] == DefaultBlocked[k];
      }
    }
  }

  lemma FirstLiteralsMiss(url: string)
    requires forall i :: 0 <= i < |url| ==> Lower(url)[i] !in Witnesses
    ensures forall k :: 0 <= k < |DefaultFirst| ==> !PatternMatches(DefaultFirst[k], url)
  {
    var b := DefaultFirst;
    LiteralMisses(url, b[0].text, 'd');
    LiteralMisses(url, b[1].text, 'g');
    LiteralMisses(url, b[2].text, 'g');
    LiteralMisses(url, b[3].text, 'g');
    LiteralMisses(url, b[4].text, 'd');
    LiteralMisses(url, b[5].text, 'i');
    LiteralMisses(url, b[6].text, 'v');
    LiteralMisses(url, b[7].text, 'v');
    LiteralMisses(url, b[8].text, 'i');
    LiteralMisses(url, b[9].text, 'r');
  }

  lemma LaterLiteralsMiss(url: string)
    requires forall i :: 0 <= i < |url| ==> Lower(url)[i] !in Witnesses
    ensures forall k :: 0 <= k < |DefaultLater| ==> !PatternMatches(DefaultLater[k], url)
  {
    var b := DefaultLater;
    LiteralMisses(url, b[0].text, 'w');
    LiteralMisses(url, b[1].text, 'w');
    LiteralMisses(url, b[2].text, 'w');
    LiteralMisses(url, b[3].text, 'd');
    LiteralMisses(url, b[4].text, 'g');
    LiteralMisses(url, b[5].text, '?');
  }

  lemma ShapesMiss(url: string)
    requires forall i :: 0 <= i < |url| ==> Lower(url)[i] != '?'
    requires forall i :: 0 <= i < |url| && |url| - 5 <= i ==> Lower(url)[i] != '.'
    requires |url| > 0 && url[|url| - 1] == '\n' ==> forall i :: 0 <= i < |url| && |url| - 6 <= i ==> Lower(url)[i] != '.'
    ensures !PatternMatches(Extension(Exts), url)
    ensures forall later :: !PatternMatches(Then("?", later), url)
  {
    var u := Lower(url);
    assert Lower("?") == "?";
    forall e | 0 <= e < |Exts| ensures !EndsWith(u, "." + Lower(Exts[e])) && !EndsWith(u, "." + Lower(Exts[e]) + "\n") {
      var x := "." + Lower(Exts[e]);
      if |x| <= |u| {
        assert u[|u| - |x|..][0] == u[|u| - |x|];
      }
      var y := x + "\n";
      if |y| <= |u| {
        assert u[|u| - |y|..][0] == u[|u| - |y|];
        assert u[|u| - |y|..][|y| - 1] == u[|u| - 1];
      }
    }
    forall i | 0 <= i <= |u| ensures !OccursAt(u, "?", i) {
      if i + 1 <= |u| {
        assert u[i..i + 1][0] == u[i];
      }
    }
  }

  /** The regression test's allowed URLs. */
  lemma AllowedSamples()
    ensures !ShouldBlock(DefaultBlocked, Example + "/about")
    ensures !ShouldBlock(DefaultBlocked, Example + "/company")
    ensures !ShouldBlock(DefaultBlocked, Example + "/team")
  {
    var paths := ["/about", "/company", "/team"];
    forall k | 0 <= k < |paths| ensures !ShouldBlock(DefaultBlocked, Example + paths[k]) {
      LowerIdentity(Example + paths[k]);
      NotBlockedWithout(Example + paths[k]);
    }
    assert paths[0] == "/about" && paths[1] == "/company" && paths[2] == "/team";
  }

  // ----------------------------------------------------------- page priority

  const About := "about"
  const Product := "product"
  const Contact := "contact"
  const LegalCategory := "legal"
  const Blog := "blog"
  const General := "general"

  /** The default `priority_paths`, in the dictionary's order. */
  const DefaultPriorityPaths: seq<(string, seq<string>)> := [
    (About, ["/about", "/about-us", "/company", "/team", "/founder", "/founders"]),
    (Product, ["/product", "/products", "/solution", "/solutions", "/services", "/platform"]),
    (Contact, ["/contact", "/contact-us", "/hello", "/info"]),
    (LegalCategory, ["/privacy", "/terms", "/legal", "/disclaimer"]),
    (Blog, ["/blog", "/news", "/updates", "/posts"])]

  /** Some path of the category occurs in the lowercased page path (the
    * category's paths themselves are not lowercased). */
  predicate CategoryMatches(paths: seq<string>, path: string) {
    exists i :: 0 <= i < |paths| && Contains(Lower(path), paths[i])
  }

  /** `_get_page_priority`: the first matching category, else `general`. */
  function PagePriority(table: seq<(string, seq<string>)>, path: string): (r: string)
    ensures r == General || exists k :: 0 <= k < |table| && table[k].0 == r
  {
    if |table| == 0 then General
    else if CategoryMatches(table[0].1, path) then table[0].0
    else PagePriority(table[1..], path)
  }

  /** The priority is the category of the first entry that matches; no entry
    * before it matches; with no match at all it is `general`. */
  lemma {:induction false} PagePriorityFirst(table: seq<(string, seq<string>)>, path: string, k: nat)
    requires k < |table| && CategoryMatches(table[k].1, path)
    requires forall j :: 0 <= j < k ==> !CategoryMatches(table[j].1, path)
    ensures PagePriority(table, path) == table[k].0
  {
    if k > 0 {
      assert !CategoryMatches(table[0].1, path);
      PagePriorityFirst(table[1..], path, k - 1);
    }
  }

  lemma {:induction false} PagePriorityGeneral(table: seq<(string, seq<string>)>, path: string)
    requires forall j :: 0 <= j < |table| ==> !CategoryMatches(table[j].1, path)
    requires forall j :: 0 <= j < |table| ==> table[j].0 != General
    ensures PagePriority(table, path) == General
  {
    if |table| > 0 {
      PagePriorityGeneral(table[1..], path);
    }
  }

  /** `/about` and `/team` are about pages. */
  lemma PagePrioritySamples()
    ensures PagePriority(DefaultPriorityPaths, "/about") == About
    ensures PagePriority(DefaultPriorityPaths, "/team") == About
  {
    LowerIdentity("/about");
    assert OccursAt("/about", "/about", 0);
    assert Contains(Lower("/about"), DefaultPriorityPaths[0].1[0]);
    assert CategoryMatches(DefaultPriorityPaths[0].1, "/about");
    LowerIdentity("/team");
    assert DefaultPriorityPaths[0].1[3] == "/team";
    assert OccursAt("/team", "/team", 0);
    assert Contains(Lower("/team"), DefaultPriorityPaths[0].1[3]);
    assert CategoryMatches(DefaultPriorityPaths[0].1, "/team");
  }

  /** A category misses a path when each of its paths has a character, listed
    * in `ws`, that the lowercased path lacks. */
  lemma CategoryMisses(paths: seq<string>, path: string, ws: string)
    requires |ws| == |paths|
    requires forall i :: 0 <= i < |paths| ==> ws[i] in paths[i] && ws[i] !in Lower(path)
    ensures !CategoryMatches(paths, path)
  {
    forall i | 0 <= i < |paths| ensures !Contains(Lower(path), paths[i]) {
      MissingCharNotContained(Lower(path), paths[i], ws[i]);
    }
  }

  lemma ProductPriority()
    ensures PagePriority(DefaultPriorityPaths, "/product") == Product
  {
    var t := DefaultPriorityPaths;
    LowerIdentity("/product");
    CategoryMisses(t[0].1, "/product", "aameff");
    assert OccursAt("/product", "/product", 0);
    assert Contains(Lower("/product"), t[1].1[0]);
    PagePriorityFirst(t, "/product", 1);
  }

  lemma ContactPriority()
    ensures PagePriority(DefaultPriorityPaths, "/contact") == Contact
  {
    var t := DefaultPriorityPaths;
    LowerIdentity("/contact");
    CategoryMisses(t[0].1, "/contact", "bbmeff");
    CategoryMisses(t[1].1, "/contact", "ppsssp");
    assert OccursAt("/contact", "/contact", 0);
    assert Contains(Lower("/contact"), t[2].1[0]);
    PagePriorityFirst(t, "/contact", 2);
  }

  lemma BlogMissesFirst()
    ensures forall j :: 0 <= j < 2 ==> !CategoryMatches(DefaultPriorityPaths[j].1, "/blog")
  {
    var t := DefaultPriorityPaths;
    LowerIdentity("/blog");
    CategoryMisses(t[0].1, "/blog", "aactff");
    CategoryMisses(t[1].1, "/blog", "ppsssp");
  }

  lemma BlogMissesLater()
    ensures forall j :: 2 <= j < 4 ==> !CategoryMatches(DefaultPriorityPaths[j].1, "/blog")
  {
    var t := DefaultPriorityPaths;
    LowerIdentity("/blog");
    CategoryMisses(t[2].1, "/blog", "cchi");
    CategoryMisses(t[3].1, "/blog", "pted");
  }

  lemma BlogPriority()
    ensures PagePriority(DefaultPriorityPaths, "/blog") == Blog
  {
    var t := DefaultPriorityPaths;
    BlogMissesFirst();
    BlogMissesLater();
    LowerIdentity("/blog");
    assert OccursAt("/blog", "/blog", 0);
    assert Contains(Lower("/blog"), t[4].1[0]);
    PagePriorityFirst(t, "/blog", 4);
  }

  const RandomPage := "/random-page"

  lemma RandomPageMissesFirst()
    ensures forall j :: 0 <= j < 2 ==> !CategoryMatches(DefaultPriorityPaths[j].1, RandomPage)
  {
    var t := DefaultPriorityPaths;
    LowerIdentity(RandomPage);
    CategoryMisses(t[0].1, RandomPage, "bbctff");
    CategoryMisses(t[1].1, RandomPage, "uusssl");
  }

  lemma RandomPageMissesContact()
    ensures !CategoryMatches(DefaultPriorityPaths[2].1, RandomPage)
  {
    LowerIdentity(RandomPage);
    CategoryMisses(DefaultPriorityPaths[2].1, RandomPage, "cchi");
  }

  lemma RandomPageMissesLater()
    ensures forall j :: 3 <= j < 5 ==> !CategoryMatches(DefaultPriorityPaths[j].1, RandomPage)
  {
    var t := DefaultPriorityPaths;
    LowerIdentity(RandomPage);
    CategoryMisses(t[3].1, RandomPage, "itli");
    CategoryMisses(t[4].1, RandomPage, "bwus");
  }

  lemma RandomPagePriority()
    ensures PagePriority(DefaultPriorityPaths, RandomPage) == General
  {
    RandomPageMissesFirst();
    RandomPageMissesContact();
    RandomPageMissesLater();
    PagePriorityGeneral(DefaultPriorityPaths, RandomPage);
  }

  // --------------------------------------------------------- name variations

  /** The first characters of the words, in order. */
  function Initials(parts: seq<string>): (r: string)
    requires forall k :: 0 <= k < |parts| ==> |parts[k]| > 0
    ensures |r| == |parts|
    ensures forall k :: 0 <= k < |parts| ==> r[k] == parts[k][0]
  {
    seq(|parts|, k requires 0 <= k < |parts| => parts[k][0])
  }

  /** `_find_name_variations`: the uppercase acronym of a multi-word name. The
    * page content is not consulted. */
  function NameVariations(content: string, startupName: string): (r: seq<string>)
    ensures |r| <= 1
    ensures |r| == 1 <==> |SplitWs(startupName)| > 1
    ensures |r| == 1 ==> r[0] == Upper(Initials(SplitWs(startupName)))
  {
    var parts := SplitWs(startupName);
    if |parts| > 1 then [Upper(Initials(parts))] else []
  }

  /** The acronym has one uppercased letter per word. */
  lemma NameVariationAcronym(content: string, startupName: string)
    requires |SplitWs(startupName)| > 1
    ensures var parts := SplitWs(startupName); var v := NameVariations(content, startupName)[0];
      |v| == |parts| && forall k :: 0 <= k < |parts| ==> v[k] == UpperChar(parts[k][0])
  {
  }

  const Word1 := "Test"
  const Word2 := "Startup"

  lemma SplitOneWord(w: string)
    requires Word(w)
    ensures SplitWs(w) == [w]
  {
    assert !IsSpace(w[0]);
    assert StripLeft(w) == w;
    WordEndAtEnd(w, 0);
    assert w[..|w|] == w;
    assert SplitWs(w[|w|..]) == [];
  }

  lemma {:induction false} WordEndAtEnd(w: string, i: nat)
    requires i <= |w| && forall j :: i <= j < |w| ==> !IsSpace(w[j])
    ensures WordEnd(w, i) == |w|
    decreases |w| - i
  {
    if i < |w| {
      WordEndAtEnd(w, i + 1);
    }
  }

  predicate Word(w: string) {
    |w| > 0 && forall i :: 0 <= i < |w| ==> !IsSpace(w[i])
  }

  /** Two words with one space between them split into those words. */
  lemma SplitTwoWords(a: string, b: string)
    requires Word(a) && Word(b)
    ensures SplitWs(a + " " + b) == [a, b]
  {
    var n := a + " " + b;
    assert !IsSpace(n[0]);
    assert StripLeft(n) == n;
    WordEndStops(n, 0, |a|);
    assert n[..|a|] == a;
    var rest := n[|a|..];
    assert rest == " " + b;
    assert rest[1..] == b;
    assert !IsSpace(b[0]);
    assert StripLeft(b) == b;
    assert StripLeft(rest) == b;
    SplitOneWord(b);
  }

  lemma {:induction false} WordEndStops(s: string, i: nat, e: nat)
    requires i <= e < |s| && IsSpace(s[e]) && forall j :: i <= j < e ==> !IsSpace(s[j])
    ensures WordEnd(s, i) == e
    decreases e - i
  {
    if i < e {
      WordEndStops(s, i + 1, e);
    }
  }

  lemma TestStartupWords()
    ensures Word(Word1) && Word(Word2)
  {
  }

  /** The regression test's name `Test Startup` gives the acronym `TS`. */
  lemma NameVariationSample(content: string)
    ensures NameVariations(content, Word1 + " " + Word2) == ["TS"]
  {
    TestStartupWords();
    SplitTwoWords(Word1, Word2);
    var i := Initials([Word1, Word2]);
    assert i == ['T', 'S'];
    assert Upper(i) == "TS";
  }

  // ------------------------------------------------------------ company data

  /** One key of `_merge_company_data` as written: a list extends a list, and
    * every other existing value is kept (the "keep first non-empty value"
    * branch only runs when the existing value is truthy, and then its inner
    * test is false). */
  function MergeValueAsWritten(existing: Json, value: Json): Json {
    if value.Arr? && existing.Arr? then Arr(existing.items + value.items) else existing
  }

  /** One key as evidently intended: an empty existing value gives way to a
    * new string. */
  function MergeValue(existing: Json, value: Json): (r: Json)
    ensures value.Arr? && existing.Arr? ==> r == Arr(existing.items + value.items)
    ensures r != existing ==> (value.Arr? && existing.Arr?) || (value.Str? && !Truthy(existing))
  {
    if value.Arr? && existing.Arr? then Arr(existing.items + value.items)
    else if value.Str? && !Truthy(existing) then value
    else existing
  }

  /** `_merge_company_data` under the one-key rule `f`: new keys are added,
    * keys only in the existing data are kept, and a key in both gets
    * `f(existing value, new value)`. */
  function MergeWith(existing: map<string, Json>, incoming: map<string, Json>, f: (Json, Json) -> Json): (r: map<string, Json>)
    ensures r.Keys == existing.Keys + incoming.Keys
    ensures forall k :: k in incoming && k !in existing ==> r[k] == incoming[k]
    ensures forall k :: k in existing && k !in incoming ==> r[k] == existing[k]
  {
    map k | k in existing.Keys + incoming.Keys ::
      if k in incoming && k in existing then f(existing[k], incoming[k])
      else if k in incoming then incoming[k] else existing[k]
  }

  function MergeCompanyDataAsWritten(existing: map<string, Json>, incoming: map<string, Json>): map<string, Json> {
    MergeWith(existing, incoming, MergeValueAsWritten)
  }

  /** `_merge_company_data`, with the first non-empty value kept. */
  function MergeCompanyData(existing: map<string, Json>, incoming: map<string, Json>): (r: map<string, Json>)
    ensures r.Keys == existing.Keys + incoming.Keys
    ensures forall k :: k in incoming && k !in existing ==> r[k] == incoming[k]
    ensures forall k :: k in existing && k !in incoming ==> r[k] == existing[k]
  {
    MergeWith(existing, incoming, MergeValue)
  }

  /** As written, an existing value that is not a list is never replaced. */
  lemma MergeAsWrittenKeepsScalars(existing: map<string, Json>, incoming: map<string, Json>, k: string)
    requires k in existing && !existing[k].Arr?
    ensures MergeCompanyDataAsWritten(existing, incoming)[k] == existing[k]
  {
  }

  const Industry := "industry"
  const DeFi := "DeFi"

  /** The input that shows it: an empty industry stays empty as written and
    * takes the new value once corrected. */
  lemma MergeEmptyExistingSample()
    ensures MergeCompanyDataAsWritten(map[Industry := Str("")], map[Industry := Str(DeFi)])[Industry] == Str("")
    ensures MergeCompanyData(map[Industry := Str("")], map[Industry := Str(DeFi)])[Industry] == Str(DeFi)
  {
  }

  /** Truthy values are never overwritten, lists only grow at the end, and
    * merging nothing changes nothing. */
  lemma MergeKeepsFirstNonEmpty(existing: map<string, Json>, incoming: map<string, Json>, k: string)
    requires k in existing && Truthy(existing[k]) && !existing[k].Arr?
    ensures MergeCompanyData(existing, incoming)[k] == existing[k]
  {
  }

  lemma MergeNothing(existing: map<string, Json>)
    ensures MergeCompanyData(existing, map[]) == existing
  {
  }

  /** The two one-key rules part exactly where the corrected rule fills an
    * empty existing value with different text. */
  lemma MergeReadingsDiffer(existing: Json, value: Json)
    ensures MergeValue(existing, value) != MergeValueAsWritten(existing, value)
            <==> value.Str? && !Truthy(existing) && value != existing
  {
  }

  /** Merging one more key changes only that key. */
  lemma MergeOneMore(existing: map<string, Json>, done: map<string, Json>, k: string, v: Json, f: (Json, Json) -> Json)
    requires k !in done
    ensures k in MergeWith(existing, done, f) <==> k in existing
    ensures k in existing ==> MergeWith(existing, done, f)[k] == existing[k]
    ensures MergeWith(existing, done[k := v], f)
         == MergeWith(existing, done, f)[k := if k in existing then f(existing[k], v) else v]
  {
  }

  /** `_merge_company_data`: the loop over the new items, updating the
    * existing dictionary, under the one-key rule `f` (`MergeValueAsWritten`
    * for the code as written, `MergeValue` for the corrected rule). */
  method MergeCompanyDataInto(existing: map<string, Json>, incoming: map<string, Json>, f: (Json, Json) -> Json)
    returns (merged: map<string, Json>)
    ensures merged == MergeWith(existing, incoming, f)
  {
    merged := existing;
    var todo := incoming.Keys;
    ghost var done: map<string, Json> := map[];
    while todo != {}
      invariant todo <= incoming.Keys && done.Keys == incoming.Keys - todo
      invariant forall k :: k in done ==> done[k] == incoming[k]
      invariant merged == MergeWith(existing, done, f)
      decreases |todo|
    {
      var k :| k in todo;
      MergeOneMore(existing, done, k, incoming[k], f);
      merged := merged[k := if k in merged then f(merged[k], incoming[k]) else incoming[k]];
      done := done[k := incoming[k]];
      todo := todo - {k};
    }
    assert done == incoming;
  }

  // ----------------------------------------------------------- link filter

  /** The first occurrence of each URL, in order. */
  function Dedup(xs: seq<string>): (r: seq<string>)
    ensures Distinct(r)
    ensures forall u :: u in r <==> u in xs
    ensures |r| <= |xs|
  {
    if |xs| == 0 then []
    else
      var init := Dedup(xs[..|xs| - 1]);
      var last := xs[|xs| - 1];
      assert forall u :: u in xs <==> u in xs[..|xs| - 1] || u == last;
      if last in init then init else init + [last]
  }

  /** `_extract_internal_links` on the resolved targets of a page's anchors:
    * the ones on the page's own host that are not blocked, without
    * duplicates, at most ten. Python takes ten from a set, whose order is
    * unspecified; the model takes them in first-occurrence order. */
  function InternalLinks(patterns: seq<BlockPattern>, pageUrl: string, targets: seq<string>,
                         netloc: string -> string): (r: seq<string>)
    ensures |r| <= 10 && Distinct(r)
    ensures forall u :: u in r ==> u in targets && netloc(u) == netloc(pageUrl) && !ShouldBlock(patterns, u)
  {
    var internal := Filter(targets, u => netloc(u) == netloc(pageUrl) && !ShouldBlock(patterns, u));
    var d := Dedup(internal);
    var r := PySlice(d, 10);
    assert forall u :: u in r ==> u in d;
    assert forall i, j :: 0 <= i < j < |r| ==> r[i] == d[i] && r[j] == d[j];
    r
  }

  function Filter(xs: seq<string>, p: string -> bool): (r: seq<string>)
    ensures forall u :: u in r <==> u in xs && p(u)
  {
    if |xs| == 0 then []
    else
      var init := Filter(xs[..|xs| - 1], p);
      assert forall u :: u in xs <==> u in xs[..|xs| - 1] || u == xs[|xs| - 1];
      if p(xs[|xs| - 1]) then init + [xs[|xs| - 1]] else init
  }

  // --------------------------------------------------------------- crawling

  /** `_fetch_and_parse_page`'s dictionary. */
  datatype Page = Page(url: string, title: string, content: string, metaDescription: string,
                       html: string, statusCode: int, contentType: string)

  /** The `site_structure` entry of a crawled page. */
  function SiteEntry(table: seq<(string, seq<string>)>, page: Page, path: string): Json {
    Obj(map["title" := Str(page.title), "content_length" := Num(|page.content| as real),
            "priority_page" := Str(PagePriority(table, path))])
  }

  /** The crawl's result dictionary. `crawl_duration` is always 0: the
    * `start_time` it looks for is never defined. */
  datatype CrawlResult = CrawlResult(
    baseUrl: string,
    crawledPages: seq<Page>,
    companyInformation: map<string, Json>,
    siteStructure: map<string, Json>,
    pagesCrawled: nat,
    totalUrlsVisited: nat,
    crawlDepth: int,
    crawlDuration: int,
    startupName: string,
    searchKeywords: seq<string>)

  /** The pages the successful fetches returned, in fetch order. */
  function PagesOf(fetched: seq<(string, int)>, fetch: string -> Option<Page>): (r: seq<Page>)
    ensures |r| <= |fetched|
  {
    if |fetched| == 0 then []
    else
      var got := fetch(fetched[|fetched| - 1].0);
      PagesOf(fetched[..|fetched| - 1], fetch) + (if got.Some? then [got.value] else [])
  }

  /** The company data merged page by page, in crawl order, under the
    * one-key merge rule `f`. */
  function CompanyOf(pages: seq<Page>, extract: (string, string) -> map<string, Json>, startupName: string,
                     f: (Json, Json) -> Json): map<string, Json> {
    if |pages| == 0 then map[]
    else MergeWith(CompanyOf(pages[..|pages| - 1], extract, startupName, f),
                   extract(pages[|pages| - 1].content, startupName), f)
  }

  lemma PagesOfSnoc(fetched: seq<(string, int)>, e: (string, int), fetch: string -> Option<Page>)
    ensures PagesOf(fetched + [e], fetch)
         == PagesOf(fetched, fetch) + (if fetch(e.0).Some? then [fetch(e.0).value] else [])
  {
    assert (fetched + [e])[..|fetched|] == fetched;
  }

  lemma CompanyOfSnoc(pages: seq<Page>, p: Page, extract: (string, string) -> map<string, Json>, startupName: string,
                      f: (Json, Json) -> Json)
    ensures CompanyOf(pages + [p], extract, startupName, f)
         == MergeWith(CompanyOf(pages, extract, startupName, f), extract(p.content, startupName), f)
  {
    assert (pages + [p])[..|pages|] == pages;
  }

  /** Under either merge rule, the company data has a key exactly when some
    * crawled page's extracted data has it. */
  lemma {:induction false} CompanyOfKeys(pages: seq<Page>, extract: (string, string) -> map<string, Json>,
                                         startupName: string, f: (Json, Json) -> Json, k: string)
    ensures k in CompanyOf(pages, extract, startupName, f)
            <==> exists i :: 0 <= i < |pages| && k in extract(pages[i].content, startupName)
  {
    if |pages| > 0 {
      var init := pages[..|pages| - 1];
      CompanyOfKeys(init, extract, startupName, f, k);
      if exists i :: 0 <= i < |init| && k in extract(init[i].content, startupName) {
        var i :| 0 <= i < |init| && k in extract(init[i].content, startupName);
        assert pages[i] == init[i];
      }
      if exists i :: 0 <= i < |pages| && k in extract(pages[i].content, startupName) {
        var i :| 0 <= i < |pages| && k in extract(pages[i].content, startupName);
        if i < |init| {
          assert init[i] == pages[i];
        }
      }
    }
  }

  /** The weight of a queue entry: an entry that can still have children
    * weighs eleven times a child, so a visit that enqueues at most ten
    * children makes the queue lighter. */
  function Weight(depth: int, maxDepth: int): (r: nat)
    ensures r >= 1
    decreases maxDepth - depth
  {
    if depth >= maxDepth then 1 else 11 * Weight(depth + 1, maxDepth)
  }

  function QueueWeight(q: seq<(string, int)>, maxDepth: int): nat {
    if |q| == 0 then 0 else Weight(q[0].1, maxDepth) + QueueWeight(q[1..], maxDepth)
  }

  /** The queue entries a crawled page adds: its links not yet visited, one
    * level deeper, in order. */
  function Children(links: seq<string>, visited: set<string>, depth: int): (r: seq<(string, int)>)
    ensures |r| <= |links|
    ensures forall i :: 0 <= i < |r| ==> r[i].1 == depth + 1 && r[i].0 in links && r[i].0 !in visited
    ensures forall u :: u in links && u !in visited ==> (u, depth + 1) in r
  {
    if |links| == 0 then []
    else
      var init := Children(links[..|links| - 1], visited, depth);
      var u := links[|links| - 1];
      if u in visited then init else init + [(u, depth + 1)]
  }

  lemma {:induction false} QueueWeightConcat(q: seq<(string, int)>, c: seq<(string, int)>, maxDepth: int)
    ensures QueueWeight(q + c, maxDepth) == QueueWeight(q, maxDepth) + QueueWeight(c, maxDepth)
  {
    if |q| == 0 {
      assert q + c == c;
    } else {
      assert (q + c)[1..] == q[1..] + c;
      QueueWeightConcat(q[1..], c, maxDepth);
    }
  }

  /** Entries of one depth weigh at most `n` times an entry, for `n` at
    * least their number. */
  lemma {:induction false} QueueWeightUniform(c: seq<(string, int)>, d: int, maxDepth: int, n: nat)
    requires forall i :: 0 <= i < |c| ==> c[i].1 == d
    requires |c| <= n
    ensures QueueWeight(c, maxDepth) <= n * Weight(d, maxDepth)
  {
    if |c| > 0 {
      QueueWeightUniform(c[1..], d, maxDepth, n - 1);
      assert n * Weight(d, maxDepth) == (n - 1) * Weight(d, maxDepth) + Weight(d, maxDepth);
    }
  }

  /** The children of a page above the depth bound weigh less than the page. */
  lemma QueueWeightChildren(q: seq<(string, int)>, links: seq<string>, visited: set<string>, depth: int, maxDepth: int)
    requires |links| <= 10 && depth < maxDepth
    ensures QueueWeight(q + Children(links, visited, depth), maxDepth) < QueueWeight(q, maxDepth) + Weight(depth, maxDepth)
  {
    var c := Children(links, visited, depth);
    QueueWeightConcat(q, c, maxDepth);
    QueueWeightUniform(c, depth + 1, maxDepth, 10);
    assert Weight(depth, maxDepth) == 11 * Weight(depth + 1, maxDepth);
  }

  /** The loop that appends a page's unvisited links to the queue. */
  method Enqueue(queue: seq<(string, int)>, links: seq<string>, visited: set<string>, depth: int)
    returns (q: seq<(string, int)>)
    ensures q == queue + Children(links, visited, depth)
  {
    q := queue;
    var k := 0;
    while k < |links|
      invariant 0 <= k <= |links|
      invariant q == queue + Children(links[..k], visited, depth)
    {
      assert links[..k + 1][..k] == links[..k];
      if links[k] !in visited {
        q := q + [(links[k], depth + 1)];
      }
      k := k + 1;
    }
    assert links[..k] == links;
  }

  predicate Fetchable(patterns: seq<BlockPattern>, maxDepth: int, e: (string, int)) {
    e.1 <= maxDepth && !ShouldBlock(patterns, e.0)
  }

  /** The fetch trace: no URL twice, each fetchable and at a depth of at
    * least 0, and `visited` holds exactly its URLs. */
  ghost predicate Trace(fetched: seq<(string, int)>, visited: set<string>, patterns: seq<BlockPattern>, maxDepth: int) {
    && (forall i, j :: 0 <= i < j < |fetched| ==> fetched[i].0 != fetched[j].0)
    && (forall u :: u in visited <==> exists i :: 0 <= i < |fetched| && fetched[i].0 == u)
    && (forall i :: 0 <= i < |fetched| ==> Fetchable(patterns, maxDepth, fetched[i]) && 0 <= fetched[i].1)
  }

  /** The site structure has an entry exactly for the paths of the URLs whose
    * fetch returned a page, and each path's entry is the `SiteEntry` of the
    * last page fetched under that path: a later page overwrites an earlier
    * one. */
  ghost predicate SiteOf(site: map<string, Json>, fetched: seq<(string, int)>, fetch: string -> Option<Page>,
                         pathOf: string -> string, table: seq<(string, seq<string>)>) {
    && (forall i :: 0 <= i < |fetched| && fetch(fetched[i].0).Some? ==> pathOf(fetched[i].0) in site)
    && (forall k :: k in site ==>
          exists i :: LastAt(fetched, fetch, pathOf, i, k) && site[k] == SiteEntry(table, fetch(fetched[i].0).value, k))
  }

  /** `fetched[i]` is the last URL of the trace that fetched a page under path `k`. */
  ghost predicate LastAt(fetched: seq<(string, int)>, fetch: string -> Option<Page>, pathOf: string -> string,
                         i: int, k: string) {
    && 0 <= i < |fetched| && fetch(fetched[i].0).Some? && pathOf(fetched[i].0) == k
    && forall j :: i < j < |fetched| && fetch(fetched[j].0).Some? ==> pathOf(fetched[j].0) != k
  }

  lemma SiteStep(site: map<string, Json>, fetched: seq<(string, int)>, fetch: string -> Option<Page>,
                 pathOf: string -> string, table: seq<(string, seq<string>)>, e: (string, int))
    requires SiteOf(site, fetched, fetch, pathOf, table)
    ensures fetch(e.0).Some? ==>
              SiteOf(site[pathOf(e.0) := SiteEntry(table, fetch(e.0).value, pathOf(e.0))], fetched + [e], fetch, pathOf, table)
    ensures fetch(e.0).None? ==> SiteOf(site, fetched + [e], fetch, pathOf, table)
  {
    var f := fetched + [e];
    forall k | k in site && (fetch(e.0).None? || k != pathOf(e.0))
      ensures exists i :: LastAt(f, fetch, pathOf, i, k) && site[k] == SiteEntry(table, fetch(f[i].0).value, k)
    {
      var i :| LastAt(fetched, fetch, pathOf, i, k) && site[k] == SiteEntry(table, fetch(fetched[i].0).value, k);
      assert f[i] == fetched[i];
      assert f[|fetched|] == e;
      assert LastAt(f, fetch, pathOf, i, k);
    }
    if fetch(e.0).Some? {
      assert f[|fetched|] == e;
      assert LastAt(f, fetch, pathOf, |fetched|, pathOf(e.0));
    }
  }

  lemma TraceStep(fetched: seq<(string, int)>, visited: set<string>, patterns: seq<BlockPattern>, maxDepth: int,
                  e: (string, int))
    requires Trace(fetched, visited, patterns, maxDepth)
    requires e.0 !in visited && Fetchable(patterns, maxDepth, e) && 0 <= e.1
    ensures Trace(fetched + [e], visited + {e.0}, patterns, maxDepth)
  {
    var f := fetched + [e];
    forall u ensures u in visited + {e.0} <==> exists i :: 0 <= i < |f| && f[i].0 == u {
      if u in visited {
        var i :| 0 <= i < |fetched| && fetched[i].0 == u;
        assert f[i].0 == u;
      }
      if u == e.0 {
        assert f[|fetched|].0 == u;
      }
    }
  }

  lemma {:induction false} DistinctCard(xs: seq<(string, int)>, s: set<string>)
    requires forall i, j :: 0 <= i < j < |xs| ==> xs[i].0 != xs[j].0
    requires forall u :: u in s <==> exists i :: 0 <= i < |xs| && xs[i].0 == u
    ensures |s| == |xs|
  {
    if |xs| > 0 {
      var last := xs[|xs| - 1].0;
      var init := xs[..|xs| - 1];
      assert forall i :: 0 <= i < |init| ==> init[i] == xs[i];
      var s' := s - {last};
      forall u ensures u in s' <==> exists i :: 0 <= i < |init| && init[i].0 == u {
        if u in s' {
          var i :| 0 <= i < |xs| && xs[i].0 == u;
          assert i < |init|;
        }
      }
      DistinctCard(init, s');
      assert last in s;
    }
  }

  /** The crawl's collaborators: the page fetch, the targets of a page's
    * anchors, the host and the path of a URL, and the company-data
    * extractor. `targets` returns each anchor's `href` already resolved
    * against the page's URL: `urljoin`'s relative-link resolution is part of
    * this oracle, not of the model. */
  datatype Web = Web(fetch: string -> Option<Page>, targets: string -> seq<string>, netloc: string -> string,
                     pathOf: string -> string, extract: (string, string) -> map<string, Json>)

  /** The crawl's local state. */
  datatype Crawl = Crawl(visited: set<string>, queue: seq<(string, int)>, crawled: seq<Page>,
                         company: map<string, Json>, site: map<string, Json>, fetched: seq<(string, int)>)

  ghost predicate CrawlInv(c: Crawl, patterns: seq<BlockPattern>, table: seq<(string, seq<string>)>, maxDepth: int,
                           maxPages: int, web: Web, startupName: string, mergeValue: (Json, Json) -> Json) {
    && Trace(c.fetched, c.visited, patterns, maxDepth)
    && (forall i :: 0 <= i < |c.queue| ==> 0 <= c.queue[i].1)
    && c.crawled == PagesOf(c.fetched, web.fetch)
    && |c.crawled| <= (if maxPages < 0 then 0 else maxPages)
    && c.company == CompanyOf(c.crawled, web.extract, startupName, mergeValue)
    && SiteOf(c.site, c.fetched, web.fetch, web.pathOf, table)
  }

  // ------------------------------------------------- breadth-first frontier

  /** The internal links a fetch of `url` yields: none when the fetch fails. */
  function LinksOf(patterns: seq<BlockPattern>, web: Web, url: string): (r: seq<string>)
    ensures |r| <= 10
    ensures forall v :: v in r ==> !ShouldBlock(patterns, v)
  {
    match web.fetch(url)
    case None => []
    case Some(p) => InternalLinks(patterns, url, web.targets(p.html), web.netloc)
  }

  /** `e` is a link, one level deeper, of a page fetched in `fetched` above
    * the depth bound. */
  ghost predicate LinkedFrom(fetched: seq<(string, int)>, e: (string, int), patterns: seq<BlockPattern>,
                             maxDepth: int, web: Web) {
    exists j :: 0 <= j < |fetched| && fetched[j].1 < maxDepth && e.1 == fetched[j].1 + 1
                && e.0 in LinksOf(patterns, web, fetched[j].0)
  }

  /** Where a queue entry or a fetch comes from: the base URL at depth 0
    * before anything was fetched, a link of a fetched page afterwards. */
  ghost predicate Origin(fetched: seq<(string, int)>, e: (string, int), baseUrl: string, patterns: seq<BlockPattern>,
                         maxDepth: int, web: Web) {
    if |fetched| == 0 then e == (baseUrl, 0) else LinkedFrom(fetched, e, patterns, maxDepth, web)
  }

  /** `v` waits in the queue at a depth the crawl will still visit. */
  ghost predicate Pending(queue: seq<(string, int)>, v: string, maxDepth: int) {
    exists k :: 0 <= k < |queue| && queue[k].0 == v && queue[k].1 <= maxDepth
  }

  /** Every link of a page fetched above the depth bound is visited, is one
    * of `spare`, or is still pending. */
  ghost predicate Closed(fetched: seq<(string, int)>, visited: set<string>, queue: seq<(string, int)>, spare: set<string>,
                         patterns: seq<BlockPattern>, maxDepth: int, web: Web) {
    forall i, v :: 0 <= i < |fetched| && fetched[i].1 < maxDepth && v in LinksOf(patterns, web, fetched[i].0) ==>
      v in visited || v in spare || Pending(queue, v, maxDepth)
  }

  /** Every fetch has its origin in the fetches before it. */
  ghost predicate Rooted(fetched: seq<(string, int)>, baseUrl: string, patterns: seq<BlockPattern>, maxDepth: int,
                         web: Web) {
    forall i :: 0 <= i < |fetched| ==> Origin(fetched[..i], fetched[i], baseUrl, patterns, maxDepth, web)
  }

  /** Every queue entry has its origin in the fetches so far. */
  ghost predicate Queued(fetched: seq<(string, int)>, queue: seq<(string, int)>, baseUrl: string,
                         patterns: seq<BlockPattern>, maxDepth: int, web: Web) {
    forall k :: 0 <= k < |queue| ==> Origin(fetched, queue[k], baseUrl, patterns, maxDepth, web)
  }

  /** The breadth-first frontier: every fetch and every queue entry has its
    * origin, the base URL waits alone until the first fetch (or was
    * skipped), and the links seen so far are all accounted for. */
  ghost predicate Frontier(fetched: seq<(string, int)>, visited: set<string>, queue: seq<(string, int)>,
                           baseUrl: string, patterns: seq<BlockPattern>, maxDepth: int, web: Web) {
    && Rooted(fetched, baseUrl, patterns, maxDepth, web)
    && Queued(fetched, queue, baseUrl, patterns, maxDepth, web)
    && (|fetched| == 0 ==> queue == [(baseUrl, 0)] || (queue == [] && !Fetchable(patterns, maxDepth, (baseUrl, 0))))
    && Closed(fetched, visited, queue, {}, patterns, maxDepth, web)
  }

  /** Popping the queue keeps the origins of the rest. */
  lemma PopQueued(fetched: seq<(string, int)>, queue: seq<(string, int)>, baseUrl: string, patterns: seq<BlockPattern>,
                  maxDepth: int, web: Web)
    requires |queue| > 0 && Queued(fetched, queue, baseUrl, patterns, maxDepth, web)
    ensures Origin(fetched, queue[0], baseUrl, patterns, maxDepth, web)
    ensures Queued(fetched, queue[1..], baseUrl, patterns, maxDepth, web)
  {
    forall k | 0 <= k < |queue| - 1 ensures Origin(fetched, queue[1..][k], baseUrl, patterns, maxDepth, web) {
      assert queue[1..][k] == queue[k + 1];
    }
  }

  /** Popping the queue: a link that was pending only through the popped
    * entry is covered by the spare set exactly when that entry is about to
    * be visited. */
  lemma PopClosed(fetched: seq<(string, int)>, visited: set<string>, queue: seq<(string, int)>,
                  patterns: seq<BlockPattern>, maxDepth: int, web: Web)
    requires |queue| > 0 && Closed(fetched, visited, queue, {}, patterns, maxDepth, web)
    ensures var e := queue[0];
            Closed(fetched, visited, queue[1..],
                   if e.0 !in visited && Fetchable(patterns, maxDepth, e) then {e.0} else {}, patterns, maxDepth, web)
  {
    var e := queue[0];
    var spare: set<string> := if e.0 !in visited && Fetchable(patterns, maxDepth, e) then {e.0} else {};
    forall i, v | 0 <= i < |fetched| && fetched[i].1 < maxDepth && v in LinksOf(patterns, web, fetched[i].0)
      ensures v in visited || v in spare || Pending(queue[1..], v, maxDepth)
    {
      if v !in visited {
        assert Pending(queue, v, maxDepth);
        var k :| 0 <= k < |queue| && queue[k].0 == v && queue[k].1 <= maxDepth;
        if k > 0 {
          assert queue[1..][k - 1] == queue[k];
        }
      }
    }
  }

  /** A popped entry that is skipped leaves the frontier intact. */
  lemma SkipFrontier(fetched: seq<(string, int)>, visited: set<string>, queue: seq<(string, int)>,
                     baseUrl: string, patterns: seq<BlockPattern>, maxDepth: int, web: Web)
    requires |queue| > 0 && Frontier(fetched, visited, queue, baseUrl, patterns, maxDepth, web)
    requires |fetched| == 0 ==> queue[0].0 !in visited
    requires queue[0].0 in visited || !Fetchable(patterns, maxDepth, queue[0])
    ensures Frontier(fetched, visited, queue[1..], baseUrl, patterns, maxDepth, web)
  {
    PopQueued(fetched, queue, baseUrl, patterns, maxDepth, web);
    PopClosed(fetched, visited, queue, patterns, maxDepth, web);
  }

  lemma LinkedFromGrows(fetched: seq<(string, int)>, x: (string, int), e: (string, int), patterns: seq<BlockPattern>,
                        maxDepth: int, web: Web)
    requires LinkedFrom(fetched, e, patterns, maxDepth, web)
    ensures LinkedFrom(fetched + [x], e, patterns, maxDepth, web)
  {
    var j :| 0 <= j < |fetched| && fetched[j].1 < maxDepth && e.1 == fetched[j].1 + 1
             && e.0 in LinksOf(patterns, web, fetched[j].0);
    assert (fetched + [x])[j] == fetched[j];
  }

  /** A new fetch whose origin is in the fetches before it keeps them rooted. */
  lemma VisitRooted(fetched: seq<(string, int)>, e: (string, int), baseUrl: string, patterns: seq<BlockPattern>,
                    maxDepth: int, web: Web)
    requires Rooted(fetched, baseUrl, patterns, maxDepth, web)
    requires Origin(fetched, e, baseUrl, patterns, maxDepth, web)
    ensures Rooted(fetched + [e], baseUrl, patterns, maxDepth, web)
  {
    var fetched' := fetched + [e];
    forall i | 0 <= i < |fetched'| ensures Origin(fetched'[..i], fetched'[i], baseUrl, patterns, maxDepth, web) {
      if i < |fetched| {
        assert fetched'[..i] == fetched[..i] && fetched'[i] == fetched[i];
      } else {
        assert fetched'[..i] == fetched;
      }
    }
  }

  /** After a fetch, the old queue entries and the fetched page's children
    * all have their origin. */
  lemma VisitQueued(fetched: seq<(string, int)>, queue: seq<(string, int)>, e: (string, int), children: seq<(string, int)>,
                    baseUrl: string, patterns: seq<BlockPattern>, maxDepth: int, web: Web)
    requires Queued(fetched, queue, baseUrl, patterns, maxDepth, web)
    requires |fetched| == 0 ==> queue == []
    requires children != [] ==> e.1 < maxDepth
    requires forall k :: 0 <= k < |children| ==> children[k].1 == e.1 + 1 && children[k].0 in LinksOf(patterns, web, e.0)
    ensures Queued(fetched + [e], queue + children, baseUrl, patterns, maxDepth, web)
  {
    var fetched', queue' := fetched + [e], queue + children;
    forall k | 0 <= k < |queue'| ensures Origin(fetched', queue'[k], baseUrl, patterns, maxDepth, web) {
      if k < |queue| {
        LinkedFromGrows(fetched, e, queue[k], patterns, maxDepth, web);
      } else {
        assert fetched'[|fetched|] == e;
        assert queue'[k] == children[k - |queue|];
      }
    }
  }

  /** After a fetch of `e`, whose links not yet visited are enqueued, every
    * link seen is visited or pending. */
  lemma VisitClosed(fetched: seq<(string, int)>, visited: set<string>, queue: seq<(string, int)>, e: (string, int),
                    patterns: seq<BlockPattern>, maxDepth: int, web: Web)
    requires Closed(fetched, visited, queue, {e.0}, patterns, maxDepth, web)
    ensures var visited' := visited + {e.0};
            Closed(fetched + [e], visited',
                   queue + (if e.1 < maxDepth then Children(LinksOf(patterns, web, e.0), visited', e.1) else []),
                   {}, patterns, maxDepth, web)
  {
    var fetched', visited' := fetched + [e], visited + {e.0};
    var children := if e.1 < maxDepth then Children(LinksOf(patterns, web, e.0), visited', e.1) else [];
    var queue' := queue + children;
    forall i, v | 0 <= i < |fetched'| && fetched'[i].1 < maxDepth && v in LinksOf(patterns, web, fetched'[i].0)
      ensures v in visited' || Pending(queue', v, maxDepth)
    {
      if v !in visited' {
        if i < |fetched| {
          assert fetched'[i] == fetched[i];
          assert Pending(queue, v, maxDepth);
          var k :| 0 <= k < |queue| && queue[k].0 == v && queue[k].1 <= maxDepth;
          assert queue'[k] == queue[k];
        } else {
          assert fetched'[i] == e;
          assert (v, e.1 + 1) in children;
          var k :| 0 <= k < |children| && children[k] == (v, e.1 + 1);
          assert queue'[|queue| + k] == children[k];
        }
      }
    }
  }

  /** Visiting the popped entry `e`: fetching it and enqueueing its
    * unvisited links, one level deeper, restores the frontier. */
  lemma VisitFrontier(fetched: seq<(string, int)>, visited: set<string>, queue: seq<(string, int)>,
                      baseUrl: string, patterns: seq<BlockPattern>, maxDepth: int, web: Web)
    requires |queue| > 0 && Frontier(fetched, visited, queue, baseUrl, patterns, maxDepth, web)
    requires queue[0].0 !in visited && Fetchable(patterns, maxDepth, queue[0])
    ensures var e, visited' := queue[0], visited + {queue[0].0};
            Frontier(fetched + [e], visited',
                     queue[1..] + (if e.1 < maxDepth then Children(LinksOf(patterns, web, e.0), visited', e.1) else []),
                     baseUrl, patterns, maxDepth, web)
  {
    var e, visited' := queue[0], visited + {queue[0].0};
    var children := if e.1 < maxDepth then Children(LinksOf(patterns, web, e.0), visited', e.1) else [];
    PopQueued(fetched, queue, baseUrl, patterns, maxDepth, web);
    PopClosed(fetched, visited, queue, patterns, maxDepth, web);
    VisitRooted(fetched, e, baseUrl, patterns, maxDepth, web);
    VisitQueued(fetched, queue[1..], e, children, baseUrl, patterns, maxDepth, web);
    VisitClosed(fetched, visited, queue[1..], e, patterns, maxDepth, web);
  }

  /** Rooted fetches start at the base URL, and every later one is a link of
    * an earlier page. */
  lemma RootedOrder(fetched: seq<(string, int)>, baseUrl: string, patterns: seq<BlockPattern>, maxDepth: int, web: Web)
    requires Rooted(fetched, baseUrl, patterns, maxDepth, web)
    ensures |fetched| > 0 ==> fetched[0] == (baseUrl, 0)
    ensures forall i :: 0 < i < |fetched| ==> LinkedFrom(fetched[..i], fetched[i], patterns, maxDepth, web)
  {
    if |fetched| > 0 {
      assert Origin(fetched[..0], fetched[0], baseUrl, patterns, maxDepth, web);
    }
    forall i | 0 < i < |fetched| ensures LinkedFrom(fetched[..i], fetched[i], patterns, maxDepth, web) {
      assert Origin(fetched[..i], fetched[i], baseUrl, patterns, maxDepth, web);
    }
  }

  /** With the queue drained, every link of a page fetched above the depth
    * bound was fetched too. */
  lemma DrainedClosed(fetched: seq<(string, int)>, visited: set<string>, patterns: seq<BlockPattern>, maxDepth: int,
                      web: Web)
    requires Closed(fetched, visited, [], {}, patterns, maxDepth, web)
    requires forall u :: u in visited ==> exists j :: 0 <= j < |fetched| && fetched[j].0 == u
    ensures forall i, v :: 0 <= i < |fetched| && fetched[i].1 < maxDepth && v in LinksOf(patterns, web, fetched[i].0)
              ==> exists j :: 0 <= j < |fetched| && fetched[j].0 == v
  {
    forall i, v | 0 <= i < |fetched| && fetched[i].1 < maxDepth && v in LinksOf(patterns, web, fetched[i].0)
      ensures exists j :: 0 <= j < |fetched| && fetched[j].0 == v
    {
      assert !Pending([], v, maxDepth);
      assert v in visited;
    }
  }

  /** Popping the queue keeps the invariant, and before the first fetch
    * nothing is visited. */
  lemma PopStep(c: Crawl, patterns: seq<BlockPattern>, table: seq<(string, seq<string>)>, maxDepth: int,
                maxPages: int, web: Web, startupName: string, mergeValue: (Json, Json) -> Json)
    requires |c.queue| > 0 && CrawlInv(c, patterns, table, maxDepth, maxPages, web, startupName, mergeValue)
    ensures CrawlInv(c.(queue := c.queue[1..]), patterns, table, maxDepth, maxPages, web, startupName, mergeValue)
    ensures |c.fetched| == 0 ==> c.queue[0].0 !in c.visited
  {
  }

  /** One iteration's work on the queue's head `(url, depth)` once it passed
    * the checks: pop it, mark it visited, fetch it once, and on a page
    * record it, merge its company data under the one-key rule `mergeValue`,
    * note its site entry and, above the depth bound, enqueue its unvisited
    * internal links one level deeper. */
  method VisitPage(c: Crawl, url: string, depth: int, patterns: seq<BlockPattern>, table: seq<(string, seq<string>)>,
                   maxDepth: int, maxPages: int, web: Web, startupName: string, mergeValue: (Json, Json) -> Json)
    returns (d: Crawl)
    requires CrawlInv(c, patterns, table, maxDepth, maxPages, web, startupName, mergeValue)
    requires |c.queue| > 0 && c.queue[0] == (url, depth)
    requires url !in c.visited && Fetchable(patterns, maxDepth, (url, depth)) && |c.crawled| < maxPages
    ensures CrawlInv(d, patterns, table, maxDepth, maxPages, web, startupName, mergeValue)
    ensures d.visited == c.visited + {url} && d.fetched == c.fetched + [(url, depth)]
    ensures d.queue == c.queue[1..] + (if depth < maxDepth then Children(LinksOf(patterns, web, url), d.visited, depth) else [])
    ensures web.fetch(url).None? ==> d.crawled == c.crawled && d.company == c.company
    ensures web.fetch(url).Some? ==> d.crawled == c.crawled + [web.fetch(url).value]
    ensures web.fetch(url).Some? ==>
              d.company == MergeWith(c.company, web.extract(web.fetch(url).value.content, startupName), mergeValue)
    ensures QueueWeight(d.queue, maxDepth) < QueueWeight(c.queue, maxDepth)
  {
    TraceStep(c.fetched, c.visited, patterns, maxDepth, (url, depth));
    PagesOfSnoc(c.fetched, (url, depth), web.fetch);
    var rest := c.queue[1..];
    assert QueueWeight(c.queue, maxDepth) == Weight(depth, maxDepth) + QueueWeight(rest, maxDepth);
    var visited := c.visited + {url};
    var fetched := c.fetched + [(url, depth)];
    var page := web.fetch(url);
    if page.None? {
      SiteStep(c.site, c.fetched, web.fetch, web.pathOf, table, (url, depth));
      d := c.(visited := visited, queue := rest, fetched := fetched);
      assert rest + [] == rest;
    } else {
      var p := page.value;
      var entry := SiteEntry(table, p, web.pathOf(url));
      SiteStep(c.site, c.fetched, web.fetch, web.pathOf, table, (url, depth));
      CompanyOfSnoc(c.crawled, p, web.extract, startupName, mergeValue);
      var company := MergeCompanyDataInto(c.company, web.extract(p.content, startupName), mergeValue);
      var queue := rest;
      if depth < maxDepth {
        var newUrls := InternalLinks(patterns, url, web.targets(p.html), web.netloc);
        QueueWeightChildren(queue, newUrls, visited, depth, maxDepth);
        queue := Enqueue(queue, newUrls, visited, depth);
      } else {
        assert queue + [] == queue;
      }
      d := Crawl(visited, queue, c.crawled + [p], company, c.site[web.pathOf(url) := entry], fetched);
    }
  }

  /** One iteration of the crawl loop: pop the queue's head and visit it if
    * it is unvisited, within the depth bound and not blocked. */
  method CrawlStep(c: Crawl, baseUrl: string, patterns: seq<BlockPattern>, table: seq<(string, seq<string>)>,
                   maxDepth: int, maxPages: int, web: Web, startupName: string, mergeValue: (Json, Json) -> Json)
    returns (d: Crawl)
    requires |c.queue| > 0 && |c.crawled| < maxPages
    requires CrawlInv(c, patterns, table, maxDepth, maxPages, web, startupName, mergeValue)
    requires Frontier(c.fetched, c.visited, c.queue, baseUrl, patterns, maxDepth, web)
    ensures CrawlInv(d, patterns, table, maxDepth, maxPages, web, startupName, mergeValue)
    ensures Frontier(d.fetched, d.visited, d.queue, baseUrl, patterns, maxDepth, web)
    ensures Fetchable(patterns, maxDepth, c.queue[0]) && c.queue[0].0 !in c.visited ==>
              d.fetched == c.fetched + [c.queue[0]] && d.visited == c.visited + {c.queue[0].0}
    ensures !(Fetchable(patterns, maxDepth, c.queue[0]) && c.queue[0].0 !in c.visited) ==> d == c.(queue := c.queue[1..])
    ensures QueueWeight(d.queue, maxDepth) < QueueWeight(c.queue, maxDepth)
  {
    var url, depth := c.queue[0].0, c.queue[0].1;
    if url !in c.visited && depth <= maxDepth && !ShouldBlock(patterns, url) {
      VisitFrontier(c.fetched, c.visited, c.queue, baseUrl, patterns, maxDepth, web);
      d := VisitPage(c, url, depth, patterns, table, maxDepth, maxPages, web, startupName, mergeValue);
    } else {
      PopStep(c, patterns, table, maxDepth, maxPages, web, startupName, mergeValue);
      SkipFrontier(c.fetched, c.visited, c.queue, baseUrl, patterns, maxDepth, web);
      d := c.(queue := c.queue[1..]);
    }
  }

  /** What the invariants give once the loop stops: one visited URL per
    * fetch, the base URL fetched first, every later fetch a link of an
    * earlier page and, with the queue drained, the base URL fetched unless
    * it is not fetchable and every link seen fetched. */
  lemma CrawlDone(fetched: seq<(string, int)>, visited: set<string>, queue: seq<(string, int)>, baseUrl: string,
                  patterns: seq<BlockPattern>, maxDepth: int, web: Web)
    requires Trace(fetched, visited, patterns, maxDepth)
    requires Frontier(fetched, visited, queue, baseUrl, patterns, maxDepth, web)
    ensures |visited| == |fetched|
    ensures |fetched| > 0 ==> fetched[0] == (baseUrl, 0)
    ensures forall i :: 0 < i < |fetched| ==> LinkedFrom(fetched[..i], fetched[i], patterns, maxDepth, web)
    ensures queue == [] && Fetchable(patterns, maxDepth, (baseUrl, 0)) ==> |fetched| > 0
    ensures queue == [] ==>
              forall i, v :: 0 <= i < |fetched| && fetched[i].1 < maxDepth && v in LinksOf(patterns, web, fetched[i].0)
                ==> exists j :: 0 <= j < |fetched| && fetched[j].0 == v
  {
    DistinctCard(fetched, visited);
    RootedOrder(fetched, baseUrl, patterns, maxDepth, web);
    if queue == [] {
      DrainedClosed(fetched, visited, patterns, maxDepth, web);
    }
  }

  class WebsiteCrawler {
    var blockedPatterns: seq<BlockPattern>
    var priorityPaths: seq<(string, seq<string>)>

    constructor ()
      ensures blockedPatterns == DefaultBlocked && priorityPaths == DefaultPriorityPaths
    {
      blockedPatterns := DefaultBlocked;
      priorityPaths := DefaultPriorityPaths;
    }

    /** `add_blocked_patterns`: the new patterns go after the old ones. */
    method AddBlockedPatterns(patterns: seq<BlockPattern>)
      modifies this
      ensures blockedPatterns == old(blockedPatterns) + patterns
      ensures |blockedPatterns| == |old(blockedPatterns)| + |patterns|
      ensures priorityPaths == old(priorityPaths)
    {
      blockedPatterns := blockedPatterns + patterns;
    }

    /** `set_priority_paths`: the table is replaced. */
    method SetPriorityPaths(table: seq<(string, seq<string>)>)
      modifies this
      ensures priorityPaths == table && blockedPatterns == old(blockedPatterns)
    {
      priorityPaths := table;
    }

    /** `_crawl_website`: breadth-first from the base URL. A URL is checked
      * against the visited set and the depth bound, then the blocked
      * patterns, and marked visited before its one fetch, even when that fetch
      * fails; only pages above the depth bound enqueue children, one level
      * deeper; the crawl stops at `max_pages` pages. `fetched` is the trace of
      * fetches (URL and depth). Company data merge key by key under
      * `mergeValue`: `MergeValueAsWritten` is `_merge_company_data` as
      * written, `MergeValue` the rule it evidently intends. */
    method CrawlWebsite(baseUrl: string, startupName: string, keywords: seq<string>, maxDepth: int, maxPages: int,
                        web: Web, mergeValue: (Json, Json) -> Json)
      returns (r: CrawlResult, fetched: seq<(string, int)>)
      ensures |fetched| > 0 ==> fetched[0] == (baseUrl, 0)
      ensures maxPages > 0 && Fetchable(blockedPatterns, maxDepth, (baseUrl, 0)) ==> |fetched| > 0
      ensures forall i :: 0 < i < |fetched| ==> LinkedFrom(fetched[..i], fetched[i], blockedPatterns, maxDepth, web)
      ensures |r.crawledPages| < maxPages ==>
                forall i, v :: 0 <= i < |fetched| && fetched[i].1 < maxDepth && v in LinksOf(blockedPatterns, web, fetched[i].0)
                  ==> exists j :: 0 <= j < |fetched| && fetched[j].0 == v
      ensures forall i, j :: 0 <= i < j < |fetched| ==> fetched[i].0 != fetched[j].0
      ensures forall i :: 0 <= i < |fetched| ==> Fetchable(blockedPatterns, maxDepth, fetched[i])
      ensures forall i :: 0 <= i < |fetched| ==> 0 <= fetched[i].1
      ensures r.crawledPages == PagesOf(fetched, web.fetch)
      ensures |r.crawledPages| <= if maxPages < 0 then 0 else maxPages
      ensures r.companyInformation == CompanyOf(r.crawledPages, web.extract, startupName, mergeValue)
      ensures SiteOf(r.siteStructure, fetched, web.fetch, web.pathOf, priorityPaths)
      ensures r.pagesCrawled == |r.crawledPages| <= r.totalUrlsVisited == |fetched|
      ensures r.baseUrl == baseUrl && r.crawlDepth == maxDepth && r.crawlDuration == 0
    {
      var patterns := blockedPatterns;
      var table := priorityPaths;
      var c := Crawl({}, [(baseUrl, 0)], [], map[], map[], []);
      while |c.queue| > 0 && |c.crawled| < maxPages
        invariant CrawlInv(c, patterns, table, maxDepth, maxPages, web, startupName, mergeValue)
        invariant Frontier(c.fetched, c.visited, c.queue, baseUrl, patterns, maxDepth, web)
        decreases QueueWeight(c.queue, maxDepth)
      {
        c := CrawlStep(c, baseUrl, patterns, table, maxDepth, maxPages, web, startupName, mergeValue);
      }
      CrawlDone(c.fetched, c.visited, c.queue, baseUrl, patterns, maxDepth, web);
      fetched := c.fetched;
      r := CrawlResult(baseUrl, c.crawled, c.company, c.site, |c.crawled|, |c.visited|, maxDepth, 0, startupName, keywords);
    }
  }
}
