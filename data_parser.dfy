// The record cleaner (agent/processors/data_parser.py): funding amounts,
// valuations and employee counts read from text, category names, investor
// lists, and the cleaning of one startup record field by field.

module DataParser {
  import opened Values

  // ---------------------------------------------------------------- numbers

  predicate AllDigits(s: string) {
    forall i :: 0 <= i < |s| ==> IsDigit(s[i])
  }

  /** The value of a string of decimal digits, most significant first. */
  function DigitsValue(s: string): nat
    requires AllDigits(s)
  {
    if |s| == 0 then 0 else DigitsValue(s[..|s| - 1]) * 10 + (s[|s| - 1] as int - '0' as int)
  }

  function Pow10(k: nat): (r: nat)
    ensures r >= 1
  {
    if k == 0 then 1 else 10 * Pow10(k - 1)
  }

  /** Printing a number and reading its digits back gives the number. */
  lemma {:induction false} DigitsOfNat(n: nat)
    ensures AllDigits(NatToString(n)) && DigitsValue(NatToString(n)) == n
    decreases n
  {
    var s := NatToString(n);
    if n >= 10 {
      DigitsOfNat(n / 10);
      assert s[..|s| - 1] == NatToString(n / 10);
    }
  }

  /** A plain decimal numeral: an optional sign, digits, and an optional
    * fraction after one point, with at least one digit in all. */
  predicate IsDecimal(s: string) {
    var body := if |s| > 0 && (s[0] == '+' || s[0] == '-') then s[1..] else s;
    var parts := SplitOn(body, '.');
    && |parts| <= 2
    && AllDigits(parts[0]) && (|parts| == 2 ==> AllDigits(parts[1]))
    && |body| > |parts| - 1
  }

  function DecimalValue(s: string): real
    requires IsDecimal(s)
  {
    var negative := |s| > 0 && s[0] == '-';
    var body := if |s| > 0 && (s[0] == '+' || s[0] == '-') then s[1..] else s;
    var parts := SplitOn(body, '.');
    var whole := DigitsValue(parts[0]) as real;
    var fraction := if |parts| == 2 then DigitsValue(parts[1]) as real / Pow10(|parts[1]|) as real else 0.0;
    if negative then -(whole + fraction) else whole + fraction
  }

  /** Python's `float(s)` on text. Plain decimal numerals are read exactly;
    * `other` stands for the rest of the syntax `float` accepts (exponents,
    * digit-group underscores, infinity and nan) and is `None` wherever
    * `float` raises. */
  function PyFloat(s: string, other: string -> Option<real>): Option<real> {
    var t := Strip(s);
    if IsDecimal(t) then Some(DecimalValue(t)) else other(t)
  }

  /** A string of digits is a decimal numeral of that value. */
  lemma DigitsAreDecimal(s: string)
    requires |s| > 0 && AllDigits(s)
    ensures IsDecimal(s) && DecimalValue(s) == DigitsValue(s) as real
  {
    NoSepSplit(s, '.');
  }

  /** Splitting a string without the separator gives the string itself. */
  lemma {:induction false} NoSepSplit(s: string, sep: char)
    requires sep !in s
    ensures SplitOn(s, sep) == [s]
  {
    if |s| > 0 {
      NoSepSplit(s[1..], sep);
      assert [s[0]] + s[1..] == s;
    }
  }

  // ------------------------------------------------------ character helpers

  lemma {:induction false} RemoveAbsent(s: string, c: char)
    requires c !in s
    ensures RemoveChar(s, c) == s
  {
    if |s| > 0 {
      RemoveAbsent(s[1..], c);
      assert [s[0]] + s[1..] == s;
    }
  }

  lemma {:induction false} RemoveAppend(a: string, b: string, c: char)
    ensures RemoveChar(a + b, c) == RemoveChar(a, c) + RemoveChar(b, c)
  {
    if |a| == 0 {
      assert a + b == b;
    } else {
      assert (a + b)[0] == a[0] && (a + b)[1..] == a[1..] + b;
      RemoveAppend(a[1..], b, c);
    }
  }

  /** A character other than `c` survives removing `c`, and only those. */
  lemma {:induction false} RemoveMembers(s: string, c: char, x: char)
    ensures x in RemoveChar(s, c) <==> x in s && x != c
  {
    if |s| > 0 {
      RemoveMembers(s[1..], c, x);
      assert x in s <==> x == s[0] || x in s[1..];
    }
  }

  lemma {:induction false} RemoveTwice(s: string, c: char)
    ensures RemoveChar(RemoveChar(s, c), c) == RemoveChar(s, c)
  {
    RemoveMembers(s, c, c);
    RemoveAbsent(RemoveChar(s, c), c);
  }

  lemma {:induction false} RemoveCommute(s: string, a: char, b: char)
    ensures RemoveChar(RemoveChar(s, a), b) == RemoveChar(RemoveChar(s, b), a)
  {
    if |s| > 0 {
      RemoveCommute(s[1..], a, b);
    }
  }

  /** Upper-casing commutes with removing a character that is not a letter. */
  lemma {:induction false} UpperRemove(s: string, c: char)
    requires !IsLetter(c)
    ensures Upper(RemoveChar(s, c)) == RemoveChar(Upper(s), c)
  {
    if |s| > 0 {
      UpperRemove(s[1..], c);
      assert Upper(s) == [UpperChar(s[0])] + Upper(s[1..]);
      if s[0] != c {
        assert Upper([s[0]] + RemoveChar(s[1..], c)) == [UpperChar(s[0])] + Upper(RemoveChar(s[1..], c));
      }
    }
  }

  /** Text without spaces at its ends is its own strip. */
  lemma StripTrimmed(s: string)
    requires |s| > 0 ==> !IsSpace(s[0]) && !IsSpace(s[|s| - 1])
    ensures Strip(s) == s
  {
  }

  // --------------------------------------------------------- funding amount

  /** The suffixes in the order they are tried, with their multipliers. */
  function Multiplier(c: char): real {
    if c == 'K' then 1_000.0 else if c == 'M' then 1_000_000.0 else if c == 'B' then 1_000_000_000.0 else 1.0
  }

  function Scaled(x: Option<real>, m: real): Option<real> {
    if x.Some? then Some(x.value * m) else None
  }

  /** The text the suffix search runs on: upper-cased, without `$` and `,`,
    * stripped. */
  function FundingText(s: string): string {
    Strip(RemoveChar(RemoveChar(Upper(s), '$'), ','))
  }

  /** The suffix search on the prepared text: the first of K, M and B
    * present scales the number that remains once every copy of it is
    * removed; no suffix reads the whole text. */
  function ParseFundingText(s: string, float: string -> Option<real>): Option<real> {
    if 'K' in s then Scaled(float(RemoveChar(s, 'K')), Multiplier('K'))
    else if 'M' in s then Scaled(float(RemoveChar(s, 'M')), Multiplier('M'))
    else if 'B' in s then Scaled(float(RemoveChar(s, 'B')), Multiplier('B'))
    else float(s)
  }

  /** Python's `float` on text, as a function value. */
  function Float(other: string -> Option<real>): string -> Option<real> {
    t => PyFloat(t, other)
  }

  /** `parse_funding_amount`. Anything that does not read as a number, and
    * any value that is not text (`upper` raises), gives `None`. */
  function ParseFundingAmount(j: Json, other: string -> Option<real>): Option<real> {
    if !j.Str? then None else ParseFundingText(FundingText(j.s), Float(other))
  }

  /** `parse_valuation` reads a valuation as a funding amount. */
  function ParseValuation(j: Json, other: string -> Option<real>): Option<real> {
    ParseFundingAmount(j, other)
  }

  /** A whole number printed after `$` and followed by a suffix reads back
    * as the number times the suffix's multiplier, as an amount and as a
    * valuation. */
  lemma FundingRoundTrip(n: nat, c: char, other: string -> Option<real>)
    requires c == 'K' || c == 'M' || c == 'B'
    ensures ParseFundingAmount(Str("$" + NatToString(n) + [c]), other) == Some(n as real * Multiplier(c))
    ensures ParseValuation(Str("$" + NatToString(n) + [c]), other) == Some(n as real * Multiplier(c))
  {
    NatRead(n, other);
    DigitsOfNat(n);
    FundingOfDigits(NatToString(n), c, other, n as real);
  }

  /** `float` reads a printed whole number as that number. */
  lemma NatRead(n: nat, other: string -> Option<real>)
    ensures Float(other)(NatToString(n)) == Some(n as real)
  {
    DigitsOfNat(n);
    DigitsRead(NatToString(n), other);
  }

  lemma FundingOfDigits(d: string, c: char, other: string -> Option<real>, v: real)
    requires |d| > 0 && AllDigits(d) && Float(other)(d) == Some(v)
    requires c == 'K' || c == 'M' || c == 'B'
    ensures ParseFundingAmount(Str("$" + d + [c]), other) == Some(v * Multiplier(c))
  {
    PreparedDigits(d, c);
    SuffixScales(d, c, Float(other), v);
  }

  /** Preparing `$`, digits and a suffix letter leaves the digits and the letter. */
  lemma PreparedDigits(d: string, c: char)
    requires |d| > 0 && AllDigits(d) && IsUpperLetter(c)
    ensures FundingText("$" + d + [c]) == d + [c]
  {
    var t := d + [c];
    var u := ['$'] + t;
    assert "$" + d + [c] == u;
    DollarDigitsUpper(d, c);
    SuffixedLacks(d, c, '$');
    SuffixedLacks(d, c, ',');
    RemoveLeading(t, '$');
    RemoveAbsent(t, ',');
    SuffixedTrimmed(d, c);
    PreparedFrom(u, t);
  }

  lemma DollarDigitsUpper(d: string, c: char)
    requires AllDigits(d) && IsUpperLetter(c)
    ensures Upper(['$'] + (d + [c])) == ['$'] + (d + [c])
  {
    UpperIdentity(['$'] + (d + [c]));
  }

  /** Neither `$` nor `,` occurs in digits followed by a letter. */
  lemma SuffixedLacks(d: string, c: char, x: char)
    requires AllDigits(d) && IsUpperLetter(c) && !IsDigit(x) && !IsUpperLetter(x)
    ensures x !in d + [c]
  {
  }

  lemma SuffixedTrimmed(d: string, c: char)
    requires |d| > 0 && AllDigits(d) && IsUpperLetter(c)
    ensures Strip(d + [c]) == d + [c]
  {
    var t := d + [c];
    assert IsDigit(t[0]) && t[|t| - 1] == c;
    StripTrimmed(t);
  }

  lemma PreparedFrom(u: string, t: string)
    requires Upper(u) == u && RemoveChar(u, '$') == t && RemoveChar(t, ',') == t && Strip(t) == t
    ensures FundingText(u) == t
  {
  }

  lemma UpperIdentity(s: string)
    requires forall i :: 0 <= i < |s| ==> !IsLowerLetter(s[i])
    ensures Upper(s) == s
  {
  }

  lemma RemoveLeading(s: string, c: char)
    requires c !in s
    ensures RemoveChar([c] + s, c) == s
  {
    assert ([c] + s)[1..] == s;
    RemoveAbsent(s, c);
  }

  /** Digits followed by one suffix letter read as the digits' value times
    * the multiplier. */
  lemma SuffixScales(d: string, c: char, float: string -> Option<real>, v: real)
    requires AllDigits(d) && float(d) == Some(v)
    requires c == 'K' || c == 'M' || c == 'B'
    ensures ParseFundingText(d + [c], float) == Some(v * Multiplier(c))
  {
    var s := d + [c];
    RemoveTrailing(d, c);
    assert s[|d|] == c;
    if c != 'K' {
      NotInDigits(d, 'K');
      if c != 'M' {
        NotInDigits(d, 'M');
      }
    }
  }

  /** A letter other than the suffix is absent from digits and suffix. */
  lemma NotInDigits(d: string, x: char)
    requires AllDigits(d) && !IsDigit(x)
    ensures forall c :: c != x ==> x !in d + [c]
  {
  }

  lemma RemoveTrailing(s: string, c: char)
    requires c !in s
    ensures RemoveChar(s + [c], c) == s
  {
    RemoveAppend(s, [c], c);
    RemoveAbsent(s, c);
    assert RemoveChar([c], c) == [];
  }

  /** `float` reads a string of digits as its value. */
  lemma DigitsRead(d: string, other: string -> Option<real>)
    requires |d| > 0 && AllDigits(d)
    ensures Float(other)(d) == Some(DigitsValue(d) as real)
  {
    DigitsAreDecimal(d);
    StripTrimmed(d);
  }

  /** Thousands separators and dollar signs anywhere in the text are ignored. */
  lemma SeparatorsIgnored(s: string, other: string -> Option<real>)
    ensures ParseFundingAmount(Str(RemoveChar(s, ',')), other) == ParseFundingAmount(Str(s), other)
    ensures ParseFundingAmount(Str(RemoveChar(s, '$')), other) == ParseFundingAmount(Str(s), other)
  {
    UpperRemove(s, ',');
    UpperRemove(s, '$');
    var u := Upper(s);
    RemoveCommute(u, ',', '$');
    RemoveTwice(RemoveChar(u, '$'), ',');
    RemoveTwice(u, '$');
    assert FundingText(RemoveChar(s, ',')) == FundingText(s);
    assert FundingText(RemoveChar(s, '$')) == FundingText(s);
  }

  /** Text that is a printed funding figure once its separators are
    * dropped reads as that figure. */
  lemma SeparatedFigure(s: string, n: nat, c: char, other: string -> Option<real>)
    requires c == 'K' || c == 'M' || c == 'B'
    requires RemoveChar(s, ',') == "$" + NatToString(n) + [c]
    ensures ParseFundingAmount(Str(s), other) == Some(n as real * Multiplier(c))
  {
    FundingRoundTrip(n, c, other);
    SeparatorsIgnored(s, other);
  }

  /** "$20M" is twenty million. */
  lemma TwentyMillion(other: string -> Option<real>)
    ensures ParseFundingAmount(Str("$20M"), other) == Some(20_000_000.0)
  {
    assert NatToString(20) == "20";
    assert RemoveChar("$20M", ',') == "$" + NatToString(20) + ['M'];
    SeparatedFigure("$20M", 20, 'M', other);
  }

  // --------------------------------------------------------- employee count

  predicate HasDigit(s: string) {
    exists i :: 0 <= i < |s| && IsDigit(s[i])
  }

  /** The first index at or after `i` holding a digit, if any. */
  function FirstDigitFrom(s: string, i: nat): (r: Option<nat>)
    requires i <= |s|
    ensures r.Some? ==> i <= r.value < |s| && IsDigit(s[r.value])
    ensures r.Some? ==> forall j :: i <= j < r.value ==> !IsDigit(s[j])
    ensures r.None? ==> forall j :: i <= j < |s| ==> !IsDigit(s[j])
    decreases |s| - i
  {
    if i == |s| then None else if IsDigit(s[i]) then Some(i) else FirstDigitFrom(s, i + 1)
  }

  /** The first run of digits in `s`, read as a number: `re.search(r'(\d+)')`. */
  function FirstNumber(s: string): (r: Option<nat>)
    ensures r.Some? <==> HasDigit(s)
  {
    match FirstDigitFrom(s, 0)
    case None => None
    case Some(k) =>
      var e := RunEnd(s, k, IsDigit);
      assert forall i :: 0 <= i < e - k ==> s[k..e][i] == s[k + i];
      Some(DigitsValue(s[k..e]))
  }

  /** The text the number is searched in: without `,` and `+`, stripped. */
  function CountText(s: string): string {
    Strip(RemoveChar(RemoveChar(s, ','), '+'))
  }

  /** `parse_employee_count`. Values that are not text (`replace` raises)
    * give `None`, as does text without a digit. */
  function ParseEmployeeCount(j: Json): Option<nat> {
    if !j.Str? then None else FirstNumber(CountText(j.s))
  }

  /** A count is found exactly when the text holds a digit. */
  lemma EmployeeCountFound(s: string)
    ensures ParseEmployeeCount(Str(s)).Some? <==> HasDigit(s)
  {
    DigitSurvives(s);
  }

  /** Dropping separators and stripping keeps exactly the digits there were. */
  lemma DigitSurvives(s: string)
    ensures HasDigit(CountText(s)) <==> HasDigit(s)
  {
    var a := RemoveChar(s, ',');
    var b := RemoveChar(a, '+');
    forall x | IsDigit(x)
      ensures x in b <==> x in s
    {
      RemoveMembers(s, ',', x);
      RemoveMembers(a, '+', x);
    }
    StripKeepsDigits(b);
    if HasDigit(s) {
      var i :| 0 <= i < |s| && IsDigit(s[i]);
      assert s[i] in s;
    }
    if HasDigit(b) {
      var i :| 0 <= i < |b| && IsDigit(b[i]);
      assert b[i] in b;
    }
  }

  /** Stripping removes only whitespace, so digits are kept. */
  lemma StripKeepsDigits(s: string)
    ensures HasDigit(Strip(s)) <==> HasDigit(s)
  {
    var l := StripLeft(s);
    var r := StripRight(l);
    assert r == Strip(s);
    var off := |s| - |l|;
    if HasDigit(s) {
      var i :| 0 <= i < |s| && IsDigit(s[i]);
      assert !IsSpace(s[i]);
      assert off <= i;
      assert l[i - off] == s[i];
      assert i - off < |r|;
      assert r[i - off] == s[i];
    }
    if HasDigit(r) {
      var j :| 0 <= j < |r| && IsDigit(r[j]);
      assert r[j] == l[j] == s[off + j];
    }
  }

  /** A printed count with a trailing `+` reads back as the count. */
  lemma EmployeeCountRoundTrip(n: nat)
    ensures ParseEmployeeCount(Str(NatToString(n) + "+")) == Some(n)
  {
    var d := NatToString(n);
    DigitsOfNat(n);
    DigitsLack(d, ',');
    DigitsLack(d, '+');
    assert ',' !in d + "+";
    RemoveAbsent(d + "+", ',');
    RemoveTrailing(d, '+');
    StripTrimmed(d);
    assert CountText(d + "+") == d;
    assert FirstDigitFrom(d, 0) == Some(0);
    assert RunEnd(d, 0, IsDigit) == |d|;
    assert d[0..|d|] == d;
  }

  lemma DigitsLack(d: string, x: char)
    requires AllDigits(d) && !IsDigit(x)
    ensures x !in d
  {
  }

  /** Thousands separators are skipped: "1,000+" is a thousand. */
  lemma ThousandEmployees()
    ensures ParseEmployeeCount(Str("1,000+")) == Some(1000)
  {
    assert NatToString(1) == "1" && NatToString(10) == "10" && NatToString(100) == "100";
    assert NatToString(1000) == "1000";
    assert RemoveChar("1,000+", ',') == NatToString(1000) + "+";
    EmployeeCountRoundTrip(1000);
  }

  // --------------------------------------------------------------- category

  const BlockchainKey := "blockchain"
  const CryptoKey := "crypto"
  const CryptocurrencyKey := "cryptocurrency"
  const Web3Key := "web3"
  const AiKey := "ai"
  const DefiKey := "defi"
  const NftKey := "nft"
  const DecentralizedFinanceKey := "decentralized finance"

  const BlockchainName := "Blockchain"
  const CryptoName := "Crypto"
  const Web3Name := "Web3"
  const AiName := "AI Web3"
  const DefiName := "DeFi"
  const NftName := "NFT"

  /** Lower-cased category names and the name each one is given. */
  const CategoryMapping: map<string, string> := map[
    BlockchainKey := BlockchainName,
    CryptoKey := CryptoName,
    CryptocurrencyKey := CryptoName,
    Web3Key := Web3Name,
    AiKey := AiName,
    DefiKey := DefiName,
    NftKey := NftName,
    DecentralizedFinanceKey := DefiName]

  /** `s.title()` (ASCII letters only): a letter is upper-cased when it does
    * not follow a letter and lower-cased when it does. */
  function Title(s: string): (r: string)
    ensures |r| == |s|
    ensures forall i :: 0 <= i < |s| ==> r[i] == if i > 0 && IsLetter(s[i - 1]) then LowerChar(s[i]) else UpperChar(s[i])
  {
    seq(|s|, i requires 0 <= i < |s| => if i > 0 && IsLetter(s[i - 1]) then LowerChar(s[i]) else UpperChar(s[i]))
  }

  /** `normalize_category`: a known name in any case gets its canonical
    * spelling; any other name is title-cased. */
  function NormalizeCategory(c: string): string {
    var l := Lower(c);
    if l in CategoryMapping then CategoryMapping[l] else Title(c)
  }

  /** Case changes keep letters letters. */
  lemma CaseKeepsLetters(c: char)
    ensures IsLetter(LowerChar(c)) <==> IsLetter(c)
    ensures IsLetter(UpperChar(c)) <==> IsLetter(c)
    ensures UpperChar(LowerChar(c)) == UpperChar(c) && LowerChar(LowerChar(c)) == LowerChar(c)
    ensures UpperChar(UpperChar(c)) == UpperChar(c) && LowerChar(UpperChar(c)) == LowerChar(c)
  {
  }

  /** Title case does not depend on the case of the input. */
  lemma TitleOfLower(s: string)
    ensures Title(Lower(s)) == Title(s)
  {
    var l := Lower(s);
    forall i | 0 <= i < |s|
      ensures Title(l)[i] == Title(s)[i]
    {
      CaseKeepsLetters(s[i]);
      if i > 0 {
        CaseKeepsLetters(s[i - 1]);
      }
    }
  }

  /** Title-casing twice is title-casing once. */
  lemma TitleIdempotent(s: string)
    ensures Title(Title(s)) == Title(s)
  {
    var t := Title(s);
    forall i | 0 <= i < |s|
      ensures Title(t)[i] == t[i]
    {
      CaseKeepsLetters(s[i]);
      if i > 0 {
        CaseKeepsLetters(s[i - 1]);
      }
    }
  }

  /** Title case changes only the case of letters. */
  lemma LowerOfTitle(s: string)
    ensures Lower(Title(s)) == Lower(s)
  {
    forall i | 0 <= i < |s|
      ensures Lower(Title(s))[i] == Lower(s)[i]
    {
      CaseKeepsLetters(s[i]);
    }
  }

  lemma LowerIdempotent(s: string)
    ensures Lower(Lower(s)) == Lower(s)
  {
    forall i | 0 <= i < |s|
      ensures Lower(Lower(s))[i] == Lower(s)[i]
    {
      CaseKeepsLetters(s[i]);
    }
  }

  /** Normalising ignores the case of the name. */
  lemma NormalizeIgnoresCase(c: string)
    ensures NormalizeCategory(Lower(c)) == NormalizeCategory(c)
  {
    LowerIdempotent(c);
    TitleOfLower(c);
  }

  /** The canonical names are fixed points of the mapping, except the one
    * for "ai", whose lower-cased form "ai web3" is not a key. */
  lemma CanonicalNamesStable(k: string)
    requires k in CategoryMapping && k != AiKey
    ensures Lower(CategoryMapping[k]) in CategoryMapping
    ensures CategoryMapping[Lower(CategoryMapping[k])] == CategoryMapping[k]
  {
    assert Lower(BlockchainName) == BlockchainKey;
    assert Lower(CryptoName) == CryptoKey;
    assert Lower(Web3Name) == Web3Key;
    assert Lower(DefiName) == DefiKey;
    assert Lower(NftName) == NftKey;
  }

  /** Normalising a normalised name changes nothing, unless the name was
    * "ai" in some case. */
  lemma NormalizeIdempotent(c: string)
    requires Lower(c) != AiKey
    ensures NormalizeCategory(NormalizeCategory(c)) == NormalizeCategory(c)
  {
    var l := Lower(c);
    if l in CategoryMapping {
      CanonicalNamesStable(l);
    } else {
      LowerOfTitle(c);
      TitleIdempotent(c);
    }
  }

  /** "ai" becomes "AI Web3", which normalises again to "Ai Web3". */
  lemma AiNotStable()
    ensures NormalizeCategory(AiKey) == AiName
    ensures NormalizeCategory(AiName) == "Ai Web3"
  {
    assert Lower(AiKey) == AiKey;
    var l := Lower(AiName);
    assert l == "ai web3";
    assert |l| != |BlockchainKey| && |l| != |CryptoKey| && |l| != |CryptocurrencyKey| && |l| != |Web3Key|;
    assert |l| != |AiKey| && |l| != |DefiKey| && |l| != |NftKey| && |l| != |DecentralizedFinanceKey|;
    assert Title(AiName) == "Ai Web3";
  }

  // -------------------------------------------------------------- investors

  /** Each part stripped. */
  function StripAll(ps: seq<string>): (r: seq<string>)
    ensures |r| == |ps|
  {
    if |ps| == 0 then [] else [Strip(ps[0])] + StripAll(ps[1..])
  }

  /** `extract_investors`: a list is returned as it is, text is split at
    * commas with each part stripped, anything else gives an empty list. */
  function ExtractInvestors(j: Json): (r: Json)
    ensures r.Arr?
    ensures j.Arr? ==> r == j
    ensures j.Str? ==> |r.items| == |SplitOn(j.s, ',')| >= 1
    ensures !j.Arr? && !j.Str? ==> r.items == []
  {
    match j
    case Arr(_) => j
    case Str(s) => StrList(StripAll(SplitOn(s, ',')))
    case _ => Arr([])
  }

  /** Text without a comma is everything before the first comma. */
  lemma {:induction false} SplitAppend(a: string, b: string, sep: char)
    requires sep !in a
    ensures SplitOn(a + [sep] + b, sep) == [a] + SplitOn(b, sep)
  {
    if |a| == 0 {
      assert a + [sep] + b == [sep] + b;
      assert ([sep] + b)[1..] == b;
    } else {
      var t := a + [sep] + b;
      assert t[0] == a[0] && t[1..] == a[1..] + [sep] + b;
      SplitAppend(a[1..], b, sep);
      assert [a[0]] + a[1..] == a;
    }
  }

  /** Names each behind one space. */
  function Spaced(ns: seq<string>): (r: seq<string>)
    ensures |r| == |ns|
  {
    if |ns| == 0 then [] else [" " + ns[0]] + Spaced(ns[1..])
  }

  /** A stripped name behind one space strips back to the name. */
  lemma StripSpaced(n: string)
    requires Strip(n) == n
    ensures Strip(" " + n) == n
  {
    assert (" " + n)[1..] == n;
  }

  /** Names without commas or outer spaces. */
  predicate AllClean(ns: seq<string>) {
    |ns| == 0 || (',' !in ns[0] && Strip(ns[0]) == ns[0] && AllClean(ns[1..]))
  }

  lemma {:induction false} CleanNames(ns: seq<string>)
    requires forall k :: 0 <= k < |ns| ==> ',' !in ns[k] && Strip(ns[k]) == ns[k]
    ensures AllClean(ns)
  {
    if |ns| > 0 {
      CleanNames(ns[1..]);
    }
  }

  lemma {:induction false} StripSpacedAll(ns: seq<string>)
    requires AllClean(ns)
    ensures StripAll(Spaced(ns)) == ns
  {
    if |ns| > 0 {
      StripSpaced(ns[0]);
      StripSpacedAll(ns[1..]);
      assert Spaced(ns)[1..] == Spaced(ns[1..]);
    }
  }

  /** Splitting ", "-joined names at commas gives the names, all but the
    * first behind a space. */
  lemma {:induction false} SplitJoin(names: seq<string>)
    requires |names| >= 1 && AllClean(names)
    ensures SplitOn(Join(names, ", "), ',') == [names[0]] + Spaced(names[1..])
    decreases |names|
  {
    if |names| == 1 {
      NoSepSplit(names[0], ',');
    } else {
      var rest := names[1..];
      var t := Join(rest, ", ");
      assert Join(names, ", ") == names[0] + [','] + (" " + t);
      SplitAppend(names[0], " " + t, ',');
      SplitJoin(rest);
      SplitBehindSpace(t, rest);
    }
  }

  lemma SplitBehindSpace(t: string, rest: seq<string>)
    requires |rest| >= 1 && SplitOn(t, ',') == [rest[0]] + Spaced(rest[1..])
    ensures SplitOn(" " + t, ',') == Spaced(rest)
  {
    assert (" " + t)[1..] == t;
    var tail := SplitOn(t, ',');
    assert SplitOn(" " + t, ',') == [" " + tail[0]] + tail[1..];
    assert tail[1..] == Spaced(rest[1..]);
  }

  /** Investor names without commas or outer spaces, written out one after
    * another with ", " between them, come back as those names. */
  lemma InvestorsRoundTrip(names: seq<string>)
    requires |names| >= 1
    requires forall k :: 0 <= k < |names| ==> ',' !in names[k] && Strip(names[k]) == names[k]
    ensures ExtractInvestors(Str(Join(names, ", "))) == StrList(names)
  {
    CleanNames(names);
    JoinedNames(names, Join(names, ", "));
  }

  lemma JoinedNames(names: seq<string>, s: string)
    requires |names| >= 1 && AllClean(names) && s == Join(names, ", ")
    ensures ExtractInvestors(Str(s)) == StrList(names)
  {
    JoinedParts(names, s);
    StrippedParts(names);
    ExtractFrom(s, [names[0]] + Spaced(names[1..]), names);
  }

  lemma JoinedParts(names: seq<string>, s: string)
    requires |names| >= 1 && AllClean(names) && s == Join(names, ", ")
    ensures SplitOn(s, ',') == [names[0]] + Spaced(names[1..])
  {
    SplitJoin(names);
  }

  lemma StrippedParts(names: seq<string>)
    requires |names| >= 1 && AllClean(names)
    ensures StripAll([names[0]] + Spaced(names[1..])) == names
  {
    var rest := names[1..];
    StripSpacedAll(rest);
    StripHeadAndSpaced(names[0], rest);
    assert [names[0]] + rest == names;
  }

  lemma ExtractFrom(s: string, parts: seq<string>, names: seq<string>)
    requires SplitOn(s, ',') == parts && StripAll(parts) == names
    ensures ExtractInvestors(Str(s)) == StrList(names)
  {
  }

  lemma StripHeadAndSpaced(n: string, rest: seq<string>)
    requires Strip(n) == n && StripAll(Spaced(rest)) == rest
    ensures StripAll([n] + Spaced(rest)) == [n] + rest
  {
    assert ([n] + Spaced(rest))[1..] == Spaced(rest);
  }

  /** "a16z, Paradigm" names two investors. */
  lemma TwoInvestors(a: string, b: string)
    requires ',' !in a && ',' !in b && Strip(a) == a && Strip(b) == b
    ensures ExtractInvestors(Str(a + ", " + b)) == StrList([a, b])
  {
    assert Join([a, b], ", ") == a + ", " + b;
    InvestorsRoundTrip([a, b]);
  }

  // ------------------------------------------------------- cleaning records

  /** The cleaners `clean_startup_data` applies to its fields. */
  datatype Cleaner =
    | StripText     // strip text, keep anything else
    | NormalizeText // normalise a category; a value that is not text is kept
    | AsText        // keep text, print anything else with `str`
    | InvestorList  // `extract_investors`

  function Clean(cl: Cleaner, v: Json): (r: Json)
    ensures cl == StripText ==> r == if v.Str? then Str(Strip(v.s)) else v
    ensures cl == NormalizeText ==> r == if v.Str? then Str(NormalizeCategory(v.s)) else v
    ensures cl == AsText ==> r.Str? && (v.Str? ==> r == v)
    ensures cl == AsText && v.Null? ==> r == Str("None")
    ensures cl == AsText && v.Bool? ==> r == Str(if v.b then "True" else "False")
    ensures cl == AsText && v.Num? && v.n == v.n.Floor as real ==> r == Str(IntToString(v.n.Floor))
    ensures cl == InvestorList ==> r.Arr?
  {
    match cl
    case StripText => if v.Str? then Str(Strip(v.s)) else v
    // `normalize_category` raises on a value that is not text and the
    // cleaner then keeps the value as it was
    case NormalizeText => if v.Str? then Str(NormalizeCategory(v.s)) else v
    case AsText => if v.Str? then v else Str(Display(v))
    case InvestorList => ExtractInvestors(v)
  }

  const NameField := "name"
  const DescriptionField := "description"
  const CategoryField := "category"
  const FundingAmountField := "funding_amount"
  const FundingRoundField := "funding_round"
  const InvestorsField := "investors"
  const ValuationField := "valuation"
  const FoundedDateField := "founded_date"
  const EmployeeCountField := "employee_count"
  const HeadquartersField := "headquarters"
  const WebsiteField := "website"
  const LastFundingDateField := "last_funding_date"

  /** The cleaned fields with their cleaners, in the order they are cleaned. */
  const Fields: seq<(string, Cleaner)> := [
    (NameField, StripText),
    (DescriptionField, StripText),
    (CategoryField, NormalizeText),
    (FundingAmountField, AsText),
    (FundingRoundField, StripText),
    (InvestorsField, InvestorList),
    (ValuationField, AsText),
    (FoundedDateField, StripText),
    (EmployeeCountField, AsText),
    (HeadquartersField, StripText),
    (WebsiteField, StripText),
    (LastFundingDateField, StripText)]

  function Names(fs: seq<(string, Cleaner)>): set<string> {
    set i | 0 <= i < |fs| :: fs[i].0
  }

  /** The first loop of `clean_startup_data` over the fields `fs`: a field
    * of the record is cleaned, a missing one is set to `None`. */
  function FieldsCleaned(startup: map<string, Json>, fs: seq<(string, Cleaner)>): (r: map<string, Json>)
    ensures r.Keys == Names(fs)
  {
    if |fs| == 0 then map[]
    else
      var f := fs[|fs| - 1];
      var earlier := FieldsCleaned(startup, fs[..|fs| - 1]);
      assert Names(fs) == Names(fs[..|fs| - 1]) + {f.0};
      earlier[f.0 := if f.0 in startup then Clean(f.1, startup[f.0]) else Null]
  }

  /** The cleaned record: the cleaned fields, then every other key of the
    * record with its value unchanged. */
  function CleanedOf(startup: map<string, Json>): map<string, Json> {
    var cleaned := FieldsCleaned(startup, Fields);
    cleaned + map k | k in startup && k !in cleaned :: startup[k]
  }

  /** `clean_startup_data`. */
  method CleanStartupData(startup: map<string, Json>) returns (cleaned: map<string, Json>)
    ensures cleaned == CleanedOf(startup)
  {
    var fields := CleanFields(startup, Fields);
    cleaned := CopyRest(startup, fields);
  }

  /** The first loop: each field of `fs` in turn. */
  method CleanFields(startup: map<string, Json>, fs: seq<(string, Cleaner)>) returns (cleaned: map<string, Json>)
    ensures cleaned == FieldsCleaned(startup, fs)
  {
    cleaned := map[];
    for i := 0 to |fs|
      invariant cleaned == FieldsCleaned(startup, fs[..i])
    {
      var (field, cleaner) := fs[i];
      if field in startup {
        cleaned := cleaned[field := Clean(cleaner, startup[field])];
      } else {
        cleaned := cleaned[field := Null];
      }
      assert fs[..i + 1][..i] == fs[..i];
    }
    assert fs[..|fs|] == fs;
  }

  /** The second loop: every key of the record not yet set is copied. */
  method CopyRest(startup: map<string, Json>, fields: map<string, Json>) returns (cleaned: map<string, Json>)
    ensures cleaned == fields + map k | k in startup && k !in fields :: startup[k]
  {
    cleaned := fields;
    var todo := startup.Keys;
    while todo != {}
      invariant todo <= startup.Keys
      invariant cleaned == fields + map k | k in startup.Keys - todo && k !in fields :: startup[k]
      decreases |todo|
    {
      var key :| key in todo;
      if key !in cleaned {
        cleaned := cleaned[key := startup[key]];
      }
      todo := todo - {key};
    }
    assert startup.Keys - todo == startup.Keys;
  }

  /** Every key of the record and every field name is in the cleaned record. */
  lemma CleanedKeys(startup: map<string, Json>)
    ensures CleanedOf(startup).Keys == startup.Keys + Names(Fields)
  {
  }

  /** A key that is not a cleaned field keeps its value. */
  lemma CleanedUnknown(startup: map<string, Json>, k: string)
    requires k in startup && k !in Names(Fields)
    ensures k in CleanedOf(startup) && CleanedOf(startup)[k] == startup[k]
  {
  }

  /** A field whose name occurs once is cleaned with its own cleaner. */
  lemma {:induction false} FieldLookup(startup: map<string, Json>, fs: seq<(string, Cleaner)>, i: nat)
    requires i < |fs|
    requires forall j :: 0 <= j < |fs| && j != i ==> fs[j].0 != fs[i].0
    ensures fs[i].0 in FieldsCleaned(startup, fs)
    ensures FieldsCleaned(startup, fs)[fs[i].0] == if fs[i].0 in startup then Clean(fs[i].1, startup[fs[i].0]) else Null
  {
    if i < |fs| - 1 {
      var init := fs[..|fs| - 1];
      FieldLookup(startup, init, i);
    }
  }

  /** The field names differ (already in their lengths and first letters). */
  lemma FieldsDistinct(i: nat, j: nat)
    requires i < j < |Fields|
    ensures Fields[i].0 != Fields[j].0
  {
    assert |NameField| == 4 && |DescriptionField| == 11 && |CategoryField| == 8;
    assert |FundingAmountField| == 14 && |FundingRoundField| == 13 && |InvestorsField| == 9;
    assert |ValuationField| == 9 && |FoundedDateField| == 12 && |EmployeeCountField| == 14;
    assert |HeadquartersField| == 12 && |WebsiteField| == 7 && |LastFundingDateField| == 17;
    assert InvestorsField[0] != ValuationField[0];
    assert FoundedDateField[0] != HeadquartersField[0];
    assert FundingAmountField[0] != EmployeeCountField[0];
  }

  /** Each field of the cleaned record holds its cleaned value, or `None`
    * when the record lacks it. */
  lemma CleanedField(startup: map<string, Json>, i: nat)
    requires i < |Fields|
    ensures Fields[i].0 in CleanedOf(startup)
    ensures CleanedOf(startup)[Fields[i].0] == if Fields[i].0 in startup then Clean(Fields[i].1, startup[Fields[i].0]) else Null
  {
    forall j | 0 <= j < |Fields| && j != i
      ensures Fields[j].0 != Fields[i].0
    {
      if j < i {
        FieldsDistinct(j, i);
      } else {
        FieldsDistinct(i, j);
      }
    }
    FieldLookup(startup, Fields, i);
  }

  /** A whole-number funding amount is printed by the cleaner and that text
    * reads back as the same amount. */
  lemma CleanedAmountReads(startup: map<string, Json>, n: nat, other: string -> Option<real>)
    requires FundingAmountField in startup && startup[FundingAmountField] == Num(n as real)
    ensures ParseFundingAmount(CleanedOf(startup)[FundingAmountField], other) == Some(n as real)
  {
    CleanedField(startup, 3);
    assert Fields[3] == (FundingAmountField, AsText);
    assert (n as real).Floor == n;
    PlainAmountReads(n, other);
  }

  /** A printed whole number, without suffix, is read as that amount. */
  lemma PlainAmountReads(n: nat, other: string -> Option<real>)
    ensures ParseFundingAmount(Str(NatToString(n)), other) == Some(n as real)
  {
    NatRead(n, other);
    DigitsOfNat(n);
    PlainDigitsRead(NatToString(n), other, n as real);
  }

  lemma PlainDigitsRead(d: string, other: string -> Option<real>, v: real)
    requires |d| > 0 && AllDigits(d) && Float(other)(d) == Some(v)
    ensures ParseFundingAmount(Str(d), other) == Some(v)
  {
    PlainPrepared(d);
    DigitsLack(d, 'K');
    DigitsLack(d, 'M');
    DigitsLack(d, 'B');
  }

  /** Preparing plain digits leaves them as they are. */
  lemma PlainPrepared(d: string)
    requires |d| > 0 && AllDigits(d)
    ensures FundingText(d) == d
  {
    UpperIdentity(d);
    DigitsLack(d, '$');
    DigitsLack(d, ',');
    RemoveAbsent(d, '$');
    RemoveAbsent(d, ',');
    StripTrimmed(d);
    PreparedFrom(d, d);
  }

  /** A category given as text is normalised; one that is not text is kept. */
  lemma CleanedCategory(startup: map<string, Json>)
    requires CategoryField in startup
    ensures var v := startup[CategoryField];
      CleanedOf(startup)[CategoryField] == if v.Str? then Str(NormalizeCategory(v.s)) else v
  {
    CleanedField(startup, 2);
    assert Fields[2] == (CategoryField, NormalizeText);
  }

  /** Investors given in any form come out as a list. */
  lemma CleanedInvestors(startup: map<string, Json>)
    requires InvestorsField in startup
    ensures CleanedOf(startup)[InvestorsField] == ExtractInvestors(startup[InvestorsField])
  {
    CleanedField(startup, 5);
    assert Fields[5] == (InvestorsField, InvestorList);
  }

  /** A field the record lacks is present in the cleaned record as `None`. */
  lemma CleanedMissing(startup: map<string, Json>, i: nat)
    requires i < |Fields| && Fields[i].0 !in startup
    ensures Fields[i].0 in CleanedOf(startup) && CleanedOf(startup)[Fields[i].0] == Null
  {
    CleanedField(startup, i);
  }
}
