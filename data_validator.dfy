// The record validator (agent/processors/data_validator.py): required
// fields, URL and date shapes, and the filtering and de-duplication of
// startup lists.

module DataValidation {
  import opened Values
  import DataParser

  type Record = map<string, Json>

  // ------------------------------------------------------ required fields

  const RequiredFields: seq<string> := [DataParser.NameField, DataParser.CategoryField, DataParser.FundingAmountField]

  /** Every field of `fields` is present with a truthy value. */
  function AllPresent(startup: Record, fields: seq<string>): (r: bool)
    ensures r <==> forall i :: 0 <= i < |fields| ==> fields[i] in startup && Truthy(startup[fields[i]])
  {
    if |fields| == 0 then true
    else fields[0] in startup && Truthy(startup[fields[0]]) && AllPresent(startup, fields[1..])
  }

  /** `validate_startup`. */
  function ValidateStartup(startup: Record): (r: bool)
    ensures r <==>
      && DataParser.NameField in startup && Truthy(startup[DataParser.NameField])
      && DataParser.CategoryField in startup && Truthy(startup[DataParser.CategoryField])
      && DataParser.FundingAmountField in startup && Truthy(startup[DataParser.FundingAmountField])
  {
    var ok := AllPresent(startup, RequiredFields);
    assert ok ==> RequiredFields[0] in startup && RequiredFields[1] in startup && RequiredFields[2] in startup;
    ok
  }

  // ------------------------------------------------------------------ URLs

  const HttpScheme := "http://"
  const HttpsScheme := "https://"
  const Localhost := "localhost"

  /** The length of the `https?://` prefix, in any case. */
  function SchemeLength(s: string): (r: Option<nat>)
    ensures r.Some? ==> r.value <= |s| && (Lower(s[..r.value]) == HttpScheme || Lower(s[..r.value]) == HttpsScheme)
  {
    if |s| >= 8 && Lower(s[..8]) == HttpsScheme then Some(8)
    else if |s| >= 7 && Lower(s[..7]) == HttpScheme then Some(7)
    else None
  }

  /** A domain label: 1 to 63 letters, digits and hyphens, starting and
    * ending with a letter or digit. */
  predicate IsLabel(x: string) {
    && 1 <= |x| <= 63
    && IsAlnum(x[0]) && IsAlnum(x[|x| - 1])
    && forall i :: 0 <= i < |x| ==> IsAlnum(x[i]) || x[i] == '-'
  }

  /** A top-level domain: 2 to 6 letters. */
  predicate IsTld(x: string) {
    2 <= |x| <= 6 && forall i :: 0 <= i < |x| ==> IsLetter(x[i])
  }

  /** One or more labels, each followed by a dot, then a top-level domain. */
  predicate DottedCore(x: string) {
    var parts := SplitOn(x, '.');
    && |parts| >= 2
    && (forall k :: 0 <= k < |parts| - 1 ==> IsLabel(parts[k]))
    && IsTld(parts[|parts| - 1])
  }

  /** A domain name, with an optional final dot. */
  predicate DottedName(x: string) {
    DottedCore(x) || (|x| > 0 && x[|x| - 1] == '.' && DottedCore(x[..|x| - 1]))
  }

  /** Four dot-separated groups of one to three digits. */
  predicate DottedQuad(x: string) {
    var parts := SplitOn(x, '.');
    |parts| == 4 && forall k :: 0 <= k < 4 ==> 1 <= |parts[k]| <= 3 && DataParser.AllDigits(parts[k])
  }

  predicate IsHost(x: string) {
    DottedName(x) || Lower(x) == Localhost || DottedQuad(x)
  }

  /** An optional `:` followed by one or more digits. */
  predicate IsPort(x: string) {
    x == "" || (|x| >= 2 && x[0] == ':' && DataParser.AllDigits(x[1..]))
  }

  /** Nothing, a lone `/`, or `/` or `?` followed by one or more
    * characters that are not whitespace. */
  predicate IsPath(x: string) {
    x == "" || x == "/" || (|x| >= 2 && (x[0] == '/' || x[0] == '?') && forall i :: 1 <= i < |x| ==> !IsSpace(x[i]))
  }

  /** The text after the scheme split into host, port and path at `h`
    * and `p`. */
  predicate SplitAt(r: string, h: nat, p: nat) {
    h <= p <= |r| && IsHost(r[..h]) && IsPort(r[h..p]) && IsPath(r[p..])
  }

  /** What the pattern asks of the text after the scheme, as a regular
    * expression reads it: some split into host, port and path. */
  ghost predicate Authority(r: string) {
    exists h: nat, p: nat :: SplitAt(r, h, p)
  }

  predicate IsDelimiter(c: char) {
    c == ':' || c == '/' || c == '?'
  }

  /** The first index at or after `i` holding `:`, `/` or `?`, or the end. */
  function HostEnd(r: string, i: nat): (e: nat)
    requires i <= |r|
    ensures i <= e <= |r|
    ensures forall j :: i <= j < e ==> !IsDelimiter(r[j])
    ensures e < |r| ==> IsDelimiter(r[e])
    decreases |r| - i
  {
    if i == |r| || IsDelimiter(r[i]) then i else HostEnd(r, i + 1)
  }

  /** The port and path after the host. */
  predicate PortAndPath(t: string) {
    if |t| > 0 && t[0] == ':' then
      var e := RunEnd(t, 1, IsDigit);
      e > 1 && IsPath(t[e..])
    else IsPath(t)
  }

  /** The text after the scheme, read left to right: the host runs to the
    * first `:`, `/` or `?`. */
  predicate AuthorityScan(r: string) {
    var h := HostEnd(r, 0);
    IsHost(r[..h]) && PortAndPath(r[h..])
  }

  /** `validate_url`: the pattern anchored at both ends, where the final
    * `$` also matches before a newline that ends the text. */
  function ValidateUrl(url: string): bool {
    match SchemeLength(url)
    case None => false
    case Some(k) =>
      var r := url[k..];
      AuthorityScan(r) || (|r| > 0 && r[|r| - 1] == '\n' && AuthorityScan(r[..|r| - 1]))
  }

  // ------------------------------------------- reading the host left to right

  predicate IsHostChar(c: char) {
    IsAlnum(c) || c == '-' || c == '.'
  }

  /** If every part of a split and the separator pass `ok`, every character
    * of the text does. */
  lemma {:induction false} SplitCharsPass(s: string, sep: char, ok: char -> bool)
    requires ok(sep)
    requires forall k, j :: 0 <= k < |SplitOn(s, sep)| && 0 <= j < |SplitOn(s, sep)[k]| ==> ok(SplitOn(s, sep)[k][j])
    ensures forall i :: 0 <= i < |s| ==> ok(s[i])
    decreases |s|
  {
    if |s| > 0 {
      var parts := SplitOn(s, sep);
      var rest := SplitOn(s[1..], sep);
      if s[0] == sep {
        assert parts == [""] + rest;
        forall k, j | 0 <= k < |rest| && 0 <= j < |rest[k]|
          ensures ok(rest[k][j])
        {
          assert rest[k] == parts[k + 1];
        }
      } else {
        assert parts == [[s[0]] + rest[0]] + rest[1..];
        forall k, j | 0 <= k < |rest| && 0 <= j < |rest[k]|
          ensures ok(rest[k][j])
        {
          if k == 0 {
            assert rest[0][j] == parts[0][j + 1];
          } else {
            assert rest[k] == parts[k];
          }
        }
        assert s[0] == parts[0][0];
      }
      SplitCharsPass(s[1..], sep, ok);
      forall i | 1 <= i < |s|
        ensures ok(s[i])
      {
        assert s[i] == s[1..][i - 1];
      }
    }
  }

  lemma CoreChars(x: string)
    requires DottedCore(x)
    ensures forall i :: 0 <= i < |x| ==> IsHostChar(x[i])
  {
    var parts := SplitOn(x, '.');
    forall k, j | 0 <= k < |parts| && 0 <= j < |parts[k]|
      ensures IsHostChar(parts[k][j])
    {
    }
    SplitCharsPass(x, '.', IsHostChar);
  }

  lemma QuadChars(x: string)
    requires DottedQuad(x)
    ensures forall i :: 0 <= i < |x| ==> IsHostChar(x[i])
  {
    var parts := SplitOn(x, '.');
    forall k, j | 0 <= k < |parts| && 0 <= j < |parts[k]|
      ensures IsHostChar(parts[k][j])
    {
      assert IsDigit(parts[k][j]);
    }
    SplitCharsPass(x, '.', IsHostChar);
  }

  lemma LocalhostChars(x: string)
    requires Lower(x) == Localhost
    ensures forall i :: 0 <= i < |x| ==> IsHostChar(x[i])
  {
    forall i | 0 <= i < |x|
      ensures IsHostChar(x[i])
    {
      assert IsLowerLetter(Localhost[i]);
      assert LowerChar(x[i]) == Localhost[i];
    }
  }

  /** A host consists of letters, digits, hyphens and dots only. */
  lemma HostChars(x: string)
    requires IsHost(x)
    ensures forall i :: 0 <= i < |x| ==> IsHostChar(x[i])
  {
    if DottedCore(x) {
      CoreChars(x);
    } else if |x| > 0 && x[|x| - 1] == '.' && DottedCore(x[..|x| - 1]) {
      CoreChars(x[..|x| - 1]);
      assert forall i :: 0 <= i < |x| - 1 ==> x[i] == x[..|x| - 1][i];
    } else if Lower(x) == Localhost {
      LocalhostChars(x);
    } else {
      QuadChars(x);
    }
  }

  lemma {:induction false} HostEndAt(r: string, i: nat, h: nat)
    requires i <= h <= |r|
    requires forall j :: i <= j < h ==> !IsDelimiter(r[j])
    requires h < |r| ==> IsDelimiter(r[h])
    ensures HostEnd(r, i) == h
    decreases h - i
  {
    if i < h {
      HostEndAt(r, i + 1, h);
    }
  }

  lemma {:induction false} RunEndAt(s: string, i: nat, e: nat, p: char -> bool)
    requires i <= e <= |s|
    requires forall j :: i <= j < e ==> p(s[j])
    requires e < |s| ==> !p(s[e])
    ensures RunEnd(s, i, p) == e
    decreases e - i
  {
    if i < e {
      RunEndAt(s, i + 1, e, p);
    }
  }

  /** Reading left to right finds a split whenever one exists. */
  lemma SplitScanned(r: string, h: nat, p: nat)
    requires SplitAt(r, h, p)
    ensures AuthorityScan(r)
  {
    HostChars(r[..h]);
    forall j | 0 <= j < h
      ensures !IsDelimiter(r[j])
    {
      assert r[j] == r[..h][j];
    }
    if h < |r| {
      if h < p {
        assert r[h] == r[h..p][0];
      } else {
        assert r[h] == r[p..][0];
      }
    }
    HostEndAt(r, 0, h);
    var t := r[h..];
    if h < p {
      var port := r[h..p];
      forall j | 1 <= j < p - h
        ensures IsDigit(t[j])
      {
        assert t[j] == port[1..][j - 1];
      }
      if p < |r| {
        assert t[p - h] == r[p..][0];
      }
      RunEndAt(t, 1, p - h, IsDigit);
      assert t[p - h..] == r[p..];
    } else if |t| > 0 {
      assert t[0] == r[p..][0];
    }
  }

  /** A split found by reading left to right is a split. */
  lemma ScanSplit(r: string)
    requires AuthorityScan(r)
    ensures Authority(r)
  {
    var h := HostEnd(r, 0);
    var t := r[h..];
    if |t| > 0 && t[0] == ':' {
      var e := RunEnd(t, 1, IsDigit);
      var p := h + e;
      assert r[h..p] == t[..e] && r[p..] == t[e..];
      assert forall j :: 0 <= j < e - 1 ==> t[..e][1..][j] == t[j + 1];
      assert SplitAt(r, h, p);
    } else {
      assert r[h..h] == "" && r[h..] == t;
      assert SplitAt(r, h, h);
    }
  }

  /** The left-to-right reading accepts exactly what the pattern accepts. */
  lemma ScanMeansSplit(r: string)
    ensures AuthorityScan(r) <==> Authority(r)
  {
    if AuthorityScan(r) {
      ScanSplit(r);
    }
    if Authority(r) {
      var h: nat, p: nat :| SplitAt(r, h, p);
      SplitScanned(r, h, p);
    }
  }

  /** `validate_url` accepts exactly an `http://` or `https://` prefix in
    * any case followed by a host, port and path, with at most one newline
    * after them. */
  lemma UrlMeaning(url: string)
    ensures ValidateUrl(url) <==>
      && SchemeLength(url).Some?
      && var r := url[SchemeLength(url).value..];
         Authority(r) || (|r| > 0 && r[|r| - 1] == '\n' && Authority(r[..|r| - 1]))
  {
    var k := SchemeLength(url);
    if k.Some? {
      var r := url[k.value..];
      ScanMeansSplit(r);
      if |r| > 0 {
        ScanMeansSplit(r[..|r| - 1]);
      }
    }
  }

  /** Host, port and path hold no whitespace. */
  lemma SplitNoSpace(r: string, h: nat, p: nat)
    requires SplitAt(r, h, p)
    ensures forall i :: 0 <= i < |r| ==> !IsSpace(r[i])
  {
    HostChars(r[..h]);
    forall i | 0 <= i < |r|
      ensures !IsSpace(r[i])
    {
      if i < h {
        assert r[i] == r[..h][i];
      } else if i < p {
        var port := r[h..p];
        assert r[i] == port[i - h];
        if i > h {
          assert port[i - h] == port[1..][i - h - 1];
        }
      } else {
        assert r[i] == r[p..][i - p];
      }
    }
  }

  /** The scheme holds no whitespace. */
  lemma SchemeNoSpace(url: string, k: nat)
    requires SchemeLength(url) == Some(k)
    ensures forall i :: 0 <= i < k ==> !IsSpace(url[i])
  {
    forall i | 0 <= i < k
      ensures !IsSpace(url[i])
    {
      assert LowerChar(url[i]) == Lower(url[..k])[i];
      if k == 8 {
        assert !IsSpace(HttpsScheme[i]);
      } else {
        assert !IsSpace(HttpScheme[i]);
      }
    }
  }

  /** An accepted URL contains no whitespace, except perhaps a final newline. */
  lemma UrlNoWhitespace(url: string)
    requires ValidateUrl(url)
    ensures forall i :: 0 <= i < |url| - 1 ==> !IsSpace(url[i])
    ensures |url| > 0 && IsSpace(url[|url| - 1]) ==> url[|url| - 1] == '\n'
  {
    var k := SchemeLength(url).value;
    SchemeNoSpace(url, k);
    var r := url[k..];
    var body := if AuthorityScan(r) then r else r[..|r| - 1];
    ScanSplit(body);
    var h: nat, p: nat :| SplitAt(body, h, p);
    SplitNoSpace(body, h, p);
    forall i | k <= i < k + |body|
      ensures !IsSpace(url[i])
    {
      assert url[i] == body[i - k];
    }
  }

  /** A URL that does not start with `h` or `H` is refused. */
  lemma NoSchemeRefused(url: string)
    requires |url| == 0 || LowerChar(url[0]) != 'h'
    ensures !ValidateUrl(url)
  {
    if |url| >= 7 {
      assert Lower(url[..7])[0] == LowerChar(url[0]);
    }
    if |url| >= 8 {
      assert Lower(url[..8])[0] == LowerChar(url[0]);
    }
  }

  /** `https://` with one label and a top-level domain is accepted. */
  lemma DomainAccepted(domain: string, tld: string)
    requires IsLabel(domain) && IsTld(tld)
    ensures ValidateUrl(HttpsScheme + domain + "." + tld)
  {
    var r := domain + "." + tld;
    assert HttpsScheme + domain + "." + tld == HttpsScheme + r;
    SecureScheme(r);
    DomainHost(domain, tld);
    SchemeThen(HttpsScheme + r, 8, r);
  }

  lemma SchemeThen(url: string, k: nat, r: string)
    requires SchemeLength(url) == Some(k) && url[k..] == r && AuthorityScan(r)
    ensures ValidateUrl(url)
  {
  }

  lemma SecureScheme(r: string)
    ensures SchemeLength(HttpsScheme + r) == Some(8) && (HttpsScheme + r)[8..] == r
  {
    var url := HttpsScheme + r;
    assert url[..8] == HttpsScheme;
    LowerIdentity(HttpsScheme);
  }

  lemma DomainHost(domain: string, tld: string)
    requires IsLabel(domain) && IsTld(tld)
    ensures AuthorityScan(domain + "." + tld)
  {
    var r := domain + "." + tld;
    DomainCore(domain, tld);
    CoreChars(r);
    assert forall j :: 0 <= j < |r| ==> !IsDelimiter(r[j]);
    HostEndAt(r, 0, |r|);
    assert r[..|r|] == r && r[|r|..] == "";
  }

  lemma DomainCore(domain: string, tld: string)
    requires IsLabel(domain) && IsTld(tld)
    ensures DottedCore(domain + "." + tld)
  {
    var r := domain + "." + tld;
    assert '.' !in domain && '.' !in tld;
    assert r == domain + ['.'] + tld;
    DataParser.SplitAppend(domain, tld, '.');
    DataParser.NoSepSplit(tld, '.');
    assert SplitOn(r, '.') == [domain, tld];
  }

  const ExampleDomain := "example"
  const ComTld := "com"

  /** "https://example.com" is accepted. */
  lemma ExampleComAccepted()
    ensures ValidateUrl(HttpsScheme + ExampleDomain + "." + ComTld)
  {
    ExampleParts();
    DomainAccepted(ExampleDomain, ComTld);
  }

  lemma ExampleParts()
    ensures IsLabel(ExampleDomain) && IsTld(ComTld)
  {
  }

  // ----------------------------------------------------------------- dates

  predicate IsoDate(s: string) {
    && |s| == 10 && DataParser.AllDigits(s[..4]) && s[4] == '-'
    && DataParser.AllDigits(s[5..7]) && s[7] == '-' && DataParser.AllDigits(s[8..])
  }

  predicate YearOnly(s: string) {
    |s| == 4 && DataParser.AllDigits(s)
  }

  predicate UsDate(s: string) {
    && |s| == 10 && DataParser.AllDigits(s[..2]) && s[2] == '/'
    && DataParser.AllDigits(s[3..5]) && s[5] == '/' && DataParser.AllDigits(s[6..])
  }

  /** YYYY-MM-DD, YYYY or MM/DD/YYYY, digits only, with no range check. */
  predicate DateShape(s: string) {
    IsoDate(s) || YearOnly(s) || UsDate(s)
  }

  /** `validate_date`: one of the shapes, anchored at both ends, where `$`
    * also matches before a newline that ends the text. */
  function ValidateDate(s: string): (r: bool)
    ensures r ==> |s| == 4 || |s| == 5 || |s| == 10 || |s| == 11
  {
    DateShape(s) || (|s| > 0 && s[|s| - 1] == '\n' && DateShape(s[..|s| - 1]))
  }

  /** An accepted date holds only digits, `-` and `/`, apart from a final
    * newline. */
  lemma DateChars(s: string)
    requires ValidateDate(s)
    ensures forall i :: 0 <= i < |s| && !(i == |s| - 1 && s[i] == '\n') ==> IsDigit(s[i]) || s[i] == '-' || s[i] == '/'
  {
    var t := if DateShape(s) then s else s[..|s| - 1];
    forall i | 0 <= i < |t|
      ensures IsDigit(t[i]) || t[i] == '-' || t[i] == '/'
    {
      if IsoDate(t) {
        if i < 4 { assert t[i] == t[..4][i]; }
        else if 5 <= i < 7 { assert t[i] == t[5..7][i - 5]; }
        else if i >= 8 { assert t[i] == t[8..][i - 8]; }
      } else if UsDate(t) {
        if i < 2 { assert t[i] == t[..2][i]; }
        else if 3 <= i < 5 { assert t[i] == t[3..5][i - 3]; }
        else if i >= 6 { assert t[i] == t[6..][i - 6]; }
      }
    }
    forall i | 0 <= i < |s| && !(i == |s| - 1 && s[i] == '\n')
      ensures IsDigit(s[i]) || s[i] == '-' || s[i] == '/'
    {
      assert i < |t|;
      assert s[i] == t[i];
    }
  }

  /** Every four-digit year is accepted. */
  lemma YearAccepted(n: nat)
    requires 1000 <= n <= 9999
    ensures ValidateDate(NatToString(n))
  {
    DataParser.DigitsOfNat(n);
    assert DataParser.Pow10(3) == 1000 && DataParser.Pow10(4) == 10000 by {
      assert DataParser.Pow10(1) == 10 && DataParser.Pow10(2) == 100;
    }
    DigitCount(n, 4);
  }

  /** A number below 10^k, and at least 10^(k-1), prints with k digits. */
  lemma {:induction false} DigitCount(n: nat, k: nat)
    requires k >= 1 && DataParser.Pow10(k - 1) <= n < DataParser.Pow10(k)
    ensures |NatToString(n)| == k
    decreases k
  {
    if k > 1 {
      assert DataParser.Pow10(k - 1) == 10 * DataParser.Pow10(k - 2);
      assert DataParser.Pow10(k) == 10 * DataParser.Pow10(k - 1);
      DigitCount(n / 10, k - 1);
    } else {
      assert DataParser.Pow10(0) == 1 && DataParser.Pow10(1) == 10;
    }
  }

  const NoSuchDay := "2024-13-45"

  /** Month and day are not checked: "2024-13-45" is accepted. */
  lemma NoRangeCheck()
    ensures ValidateDate(NoSuchDay)
  {
    assert NoSuchDay[..4] == "2024" && NoSuchDay[5..7] == "13" && NoSuchDay[8..] == "45";
  }

  // -------------------------------------------------------------- filtering

  /** The startups that pass `validate_startup`, in order. */
  function FilterValid(ss: seq<Record>): (r: seq<Record>)
    ensures |r| <= |ss|
  {
    if |ss| == 0 then []
    else FilterValid(ss[..|ss| - 1]) + (if ValidateStartup(ss[|ss| - 1]) then [ss[|ss| - 1]] else [])
  }

  /** `filter_valid_startups`. */
  method FilterValidStartups(startups: seq<Record>) returns (valid: seq<Record>)
    ensures valid == FilterValid(startups)
  {
    valid := [];
    for i := 0 to |startups|
      invariant valid == FilterValid(startups[..i])
    {
      if ValidateStartup(startups[i]) {
        valid := valid + [startups[i]];
      }
      assert startups[..i + 1][..i] == startups[..i];
    }
    assert startups[..|startups|] == startups;
  }

  /** Filtering a concatenation filters each part: the order is kept. */
  lemma {:induction false} FilterAppend(a: seq<Record>, b: seq<Record>)
    ensures FilterValid(a + b) == FilterValid(a) + FilterValid(b)
    decreases |b|
  {
    if |b| > 0 {
      var init := b[..|b| - 1];
      assert (a + b)[..|a + b| - 1] == a + init;
      assert (a + b)[|a + b| - 1] == b[|b| - 1];
      FilterAppend(a, init);
    } else {
      assert a + b == a;
    }
  }

  /** Exactly the valid startups are kept. */
  lemma {:induction false} FilterMembers(ss: seq<Record>, x: Record)
    ensures x in FilterValid(ss) <==> x in ss && ValidateStartup(x)
    decreases |ss|
  {
    if |ss| > 0 {
      var init := ss[..|ss| - 1];
      FilterMembers(init, x);
      assert ss == init + [ss[|ss| - 1]];
      assert x in ss <==> x in init || x == ss[|ss| - 1];
    }
  }

  /** Filtering twice is filtering once. */
  lemma {:induction false} FilterIdempotent(ss: seq<Record>)
    ensures FilterValid(FilterValid(ss)) == FilterValid(ss)
    decreases |ss|
  {
    if |ss| > 0 {
      var init := ss[..|ss| - 1];
      var x := ss[|ss| - 1];
      FilterIdempotent(init);
      FilterAppend(FilterValid(init), if ValidateStartup(x) then [x] else []);
      if ValidateStartup(x) {
        assert [x][..0] == [];
        assert FilterValid([x]) == [x];
      }
    }
  }

  // --------------------------------------------------------- de-duplication

  /** `startup.get('name', '').lower()`: `None` when the name is there but
    * is not text, where `lower` raises. */
  function NameKey(x: Record): Option<string> {
    if DataParser.NameField !in x then Some("")
    else if x[DataParser.NameField].Str? then Some(Lower(x[DataParser.NameField].s))
    else None
  }

  function Prepend(xs: seq<Record>, r: Option<seq<Record>>): Option<seq<Record>> {
    if r.None? then None else Some(xs + r.value)
  }

  /** The loop of `deduplicate_startups` from a set of names already seen:
    * a startup is kept when its lower-cased name is not empty and not yet
    * seen; a name that is not text raises. */
  function DedupFrom(ss: seq<Record>, seen: set<string>): Option<seq<Record>>
    decreases |ss|
  {
    if |ss| == 0 then Some([])
    else match NameKey(ss[0])
      case None => None
      case Some(k) =>
        if k != "" && k !in seen then Prepend([ss[0]], DedupFrom(ss[1..], seen + {k}))
        else DedupFrom(ss[1..], seen)
  }

  function Dedup(ss: seq<Record>): Option<seq<Record>> {
    DedupFrom(ss, {})
  }

  /** The startup at position `j` is the first one with its lower-cased
    * name, and that name is text and not empty. */
  predicate FirstAt(ss: seq<Record>, j: int)
    requires 0 <= j < |ss|
  {
    && NameKey(ss[j]).Some? && NameKey(ss[j]).value != ""
    && forall k :: 0 <= k < j ==> NameKey(ss[k]) != NameKey(ss[j])
  }

  /** The reference for `deduplicate_startups`: the startups that are the
    * first with their name, in input order. */
  function FirstOccurrences(ss: seq<Record>): (r: seq<Record>)
    ensures |r| <= |ss|
    decreases |ss|
  {
    if |ss| == 0 then []
    else
      var n := |ss| - 1;
      FirstOccurrences(ss[..n]) + (if FirstAt(ss, n) then [ss[n]] else [])
  }

  /** `deduplicate_startups`. */
  method DeduplicateStartups(startups: seq<Record>) returns (r: Option<seq<Record>>)
    ensures r == Dedup(startups)
    ensures r.Some? ==> r.value == FirstOccurrences(startups)
  {
    if Dedup(startups).Some? {
      DedupFirst(startups);
    }
    var seen: set<string> := {};
    var unique: seq<Record> := [];
    assert startups[0..] == startups;
    PrependNothing(Dedup(startups));
    for i := 0 to |startups|
      invariant Dedup(startups) == Prepend(unique, DedupFrom(startups[i..], seen))
    {
      var x := startups[i];
      assert startups[i..][1..] == startups[i + 1..];
      var key := NameKey(x);
      assert startups[i..][0] == x;
      if key.None? {
        assert DedupFrom(startups[i..], seen) == None;
        return None;
      }
      var name := key.value;
      if name != "" && name !in seen {
        seen := seen + {name};
        PrependTwice(unique, [x], DedupFrom(startups[i + 1..], seen));
        unique := unique + [x];
      }
    }
    assert startups[|startups|..] == [];
    assert unique + [] == unique;
    r := Some(unique);
  }

  lemma PrependNothing(r: Option<seq<Record>>)
    ensures Prepend([], r) == r
  {
    if r.Some? {
      assert [] + r.value == r.value;
    }
  }

  lemma PrependTwice(a: seq<Record>, b: seq<Record>, r: Option<seq<Record>>)
    ensures Prepend(a, Prepend(b, r)) == Prepend(a + b, r)
  {
    if r.Some? {
      assert a + (b + r.value) == (a + b) + r.value;
    }
  }

  /** Names that are not text make the call raise; otherwise it succeeds. */
  lemma {:induction false} DedupFails(ss: seq<Record>, seen: set<string>)
    ensures DedupFrom(ss, seen).None? <==> exists i :: 0 <= i < |ss| && NameKey(ss[i]).None?
    decreases |ss|
  {
    if |ss| > 0 {
      DedupFails(ss[1..], seen);
      if NameKey(ss[0]).Some? {
        var k := NameKey(ss[0]).value;
        DedupFails(ss[1..], seen + {k});
      }
      assert forall i :: 1 <= i < |ss| ==> ss[i] == ss[1..][i - 1];
      if exists i :: 0 <= i < |ss[1..]| && NameKey(ss[1..][i]).None? {
        var i :| 0 <= i < |ss[1..]| && NameKey(ss[1..][i]).None?;
        assert ss[i + 1] == ss[1..][i];
      }
    }
  }

  /** The names kept are not empty, were not seen before, and differ from
    * each other regardless of case. */
  predicate FreshNames(u: seq<Record>, seen: set<string>) {
    && (forall i :: 0 <= i < |u| ==> NameKey(u[i]).Some? && NameKey(u[i]).value != "" && NameKey(u[i]).value !in seen)
    && (forall i, j :: 0 <= i < j < |u| ==> NameKey(u[i]) != NameKey(u[j]))
  }

  lemma {:induction false} DedupFresh(ss: seq<Record>, seen: set<string>)
    requires DedupFrom(ss, seen).Some?
    ensures FreshNames(DedupFrom(ss, seen).value, seen)
    decreases |ss|
  {
    if |ss| > 0 {
      var k := NameKey(ss[0]).value;
      if k != "" && k !in seen {
        DedupFresh(ss[1..], seen + {k});
        var rest := DedupFrom(ss[1..], seen + {k}).value;
        var u := [ss[0]] + rest;
        assert forall i :: 1 <= i < |u| ==> u[i] == rest[i - 1];
      } else {
        DedupFresh(ss[1..], seen);
      }
    }
  }

  /** Output names are pairwise distinct, case-insensitively, and never empty. */
  lemma DedupDistinct(ss: seq<Record>)
    requires Dedup(ss).Some?
    ensures FreshNames(Dedup(ss).value, {})
  {
    DedupFresh(ss, {});
  }

  /** A list whose names are already fresh comes back unchanged. */
  lemma {:induction false} DedupOfFresh(u: seq<Record>, seen: set<string>)
    requires FreshNames(u, seen)
    ensures DedupFrom(u, seen) == Some(u)
    decreases |u|
  {
    if |u| > 0 {
      var k := NameKey(u[0]).value;
      var rest := u[1..];
      forall i | 0 <= i < |rest|
        ensures NameKey(rest[i]).value != k
      {
        assert NameKey(u[0]) != NameKey(u[i + 1]);
      }
      DedupOfFresh(rest, seen + {k});
      assert [u[0]] + rest == u;
    }
  }

  /** De-duplicating twice is de-duplicating once. */
  lemma DedupIdempotent(ss: seq<Record>)
    requires Dedup(ss).Some?
    ensures Dedup(Dedup(ss).value) == Dedup(ss)
  {
    DedupFresh(ss, {});
    DedupOfFresh(Dedup(ss).value, {});
  }

  /** Every startup kept comes from the input, and every name in the input
    * that is not empty and not already seen is represented in the output. */
  lemma {:induction false} DedupCovers(ss: seq<Record>, seen: set<string>)
    requires DedupFrom(ss, seen).Some?
    ensures forall y :: y in DedupFrom(ss, seen).value ==> y in ss
    ensures forall i :: 0 <= i < |ss| && NameKey(ss[i]).Some? && NameKey(ss[i]).value != "" && NameKey(ss[i]).value !in seen ==>
      exists y :: y in DedupFrom(ss, seen).value && NameKey(y) == NameKey(ss[i])
    decreases |ss|
  {
    if |ss| > 0 {
      DedupFails(ss, seen);
      var k := NameKey(ss[0]).value;
      var seen' := if k != "" && k !in seen then seen + {k} else seen;
      DedupCovers(ss[1..], seen');
      var u := DedupFrom(ss, seen).value;
      var rest := DedupFrom(ss[1..], seen').value;
      assert forall y :: y in rest ==> y in u;
      forall i | 0 <= i < |ss| && NameKey(ss[i]).Some? && NameKey(ss[i]).value != "" && NameKey(ss[i]).value !in seen
        ensures exists y :: y in u && NameKey(y) == NameKey(ss[i])
      {
        if i == 0 {
          assert u[0] == ss[0];
        } else if NameKey(ss[i]).value == k {
          assert u[0] == ss[0];
        } else {
          assert ss[1..][i - 1] == ss[i];
        }
      }
    }
  }

  /** The names a pass over `ss` has seen, starting from `seen`. */
  ghost function SeenAfter(ss: seq<Record>, seen: set<string>): set<string>
    decreases |ss|
  {
    if |ss| == 0 then seen
    else
      var k := NameKey(ss[0]);
      SeenAfter(ss[1..], if k.Some? && k.value != "" then seen + {k.value} else seen)
  }

  /** A name has been seen exactly when it was seen at the start, or it is
    * not empty and some startup of the pass carries it. */
  lemma {:induction false} SeenAfterMeaning(ss: seq<Record>, seen: set<string>, k: string)
    ensures k in SeenAfter(ss, seen) <==>
              k in seen || (k != "" && exists i :: 0 <= i < |ss| && NameKey(ss[i]) == Some(k))
    decreases |ss|
  {
    if |ss| > 0 {
      var k0 := NameKey(ss[0]);
      var seen' := if k0.Some? && k0.value != "" then seen + {k0.value} else seen;
      SeenAfterMeaning(ss[1..], seen', k);
      assert forall i :: 1 <= i < |ss| ==> ss[i] == ss[1..][i - 1];
      if k != "" && exists i :: 0 <= i < |ss| && NameKey(ss[i]) == Some(k) {
        var i :| 0 <= i < |ss| && NameKey(ss[i]) == Some(k);
        if i > 0 {
          assert NameKey(ss[1..][i - 1]) == Some(k);
        }
      }
    }
  }

  /** One more startup at the end is kept exactly when its name is text,
    * not empty and not seen in the pass before it. */
  lemma {:induction false} DedupSnoc(ss: seq<Record>, x: Record, seen: set<string>)
    requires DedupFrom(ss, seen).Some?
    ensures NameKey(x).None? ==> DedupFrom(ss + [x], seen).None?
    ensures NameKey(x).Some? ==>
      DedupFrom(ss + [x], seen) ==
        Some(DedupFrom(ss, seen).value
             + (if NameKey(x).value != "" && NameKey(x).value !in SeenAfter(ss, seen) then [x] else []))
    decreases |ss|
  {
    if |ss| == 0 {
      assert ss + [x] == [x];
      assert [x][1..] == [];
      assert DedupFrom(ss, seen).value == [];
      if NameKey(x).Some? {
        assert [x] + [] == [] + [x] == [x];
        assert [] + [] == ss;
      }
    } else {
      var k := NameKey(ss[0]).value;
      assert (ss + [x])[0] == ss[0];
      assert (ss + [x])[1..] == ss[1..] + [x];
      if k != "" && k !in seen {
        DedupSnoc(ss[1..], x, seen + {k});
        var rest := DedupFrom(ss[1..], seen + {k}).value;
        if NameKey(x).Some? {
          var tail := if NameKey(x).value != "" && NameKey(x).value !in SeenAfter(ss, seen) then [x] else [];
          assert [ss[0]] + (rest + tail) == ([ss[0]] + rest) + tail;
        }
      } else {
        if k != "" {
          assert seen + {k} == seen;
        }
        DedupSnoc(ss[1..], x, seen);
      }
    }
  }

  /** `deduplicate_startups` keeps exactly the first startup of each
    * non-empty lower-cased name, in input order. */
  lemma {:induction false} DedupFirst(ss: seq<Record>)
    requires Dedup(ss).Some?
    ensures Dedup(ss).value == FirstOccurrences(ss)
    decreases |ss|
  {
    if |ss| > 0 {
      var n := |ss| - 1;
      var p := ss[..n];
      var x := ss[n];
      assert ss == p + [x];
      assert forall i :: 0 <= i < n ==> p[i] == ss[i];
      DedupFails(ss, {});
      DedupFails(p, {});
      DedupFirst(p);
      DedupSnoc(p, x, {});
      var k := NameKey(x).value;
      SeenAfterMeaning(p, {}, k);
      if !FirstAt(ss, n) && k != "" {
        var i :| 0 <= i < n && NameKey(ss[i]) == NameKey(ss[n]);
        assert NameKey(p[i]) == Some(k);
      }
    }
  }

  /** A startup is among the first occurrences exactly when it stands at a
    * position that is the first with its name. */
  lemma {:induction false} FirstOccurrencesMembers(ss: seq<Record>, y: Record)
    ensures y in FirstOccurrences(ss) <==> exists j :: 0 <= j < |ss| && FirstAt(ss, j) && ss[j] == y
    decreases |ss|
  {
    if |ss| > 0 {
      var n := |ss| - 1;
      var p := ss[..n];
      FirstOccurrencesMembers(p, y);
      if y in FirstOccurrences(p) {
        var j :| 0 <= j < |p| && FirstAt(p, j) && p[j] == y;
        FirstAtPrefix(ss, j);
      }
      if exists j :: 0 <= j < |ss| && FirstAt(ss, j) && ss[j] == y {
        var j :| 0 <= j < |ss| && FirstAt(ss, j) && ss[j] == y;
        if j < n {
          FirstAtPrefix(ss, j);
        }
      }
    }
  }

  /** Dropping the last startup changes no earlier position's first-ness. */
  lemma FirstAtPrefix(ss: seq<Record>, j: int)
    requires 0 <= j < |ss| - 1
    ensures ss[..|ss| - 1][j] == ss[j]
    ensures FirstAt(ss[..|ss| - 1], j) <==> FirstAt(ss, j)
  {
    var p := ss[..|ss| - 1];
    assert forall k :: 0 <= k <= j ==> p[k] == ss[k];
  }
}
