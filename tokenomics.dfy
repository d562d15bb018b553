// The deterministic parts of the tokenomics collector
// (agent/dqda/data_collectors/tokenomics_collector.py): the known-token
// search, chain identification, the address-derived test supply, holder-list
// processing, the derived concentration metrics written into the record in
// place, and the data-quality score.

module Tokenomics {
  import opened Values

  // ------------------------------------------------------------ known tokens

  const Ethereum := "ethereum"
  const Bsc := "bsc"

  const EthUsdc := "0xa0b86a33e6415b8b23665e5b9adf3e9b5d0d4f62"
  const EthUsdt := "0xdac17f958d2ee523a2206206994597c13d831ec7"
  const EthDai := "0x6b175474e89094c44da98b954eedeac495271d0f"
  const EthLink := "0x514910771af9ca656af840dff83e8264ecf986ca"
  const BscUsdc := "0x8ac76a51cc950d9822d68b83fe1ad97b32cd580d"
  const BscBusd := "0xe9e7cea3dedca5984780bafc599bd69add087d56"
  const BscCake := "0x0e09fabb73bd3ade0a17ecc321fd13a19e81ce82"

  /** `known_tokens`, in the dictionary's insertion order: per chain, the
    * (token name, contract address) pairs. */
  const KnownTokens: seq<(string, seq<(string, string)>)> := [
    (Ethereum, [("USDC", EthUsdc), ("USDT", EthUsdt), ("DAI", EthDai), ("LINK", EthLink)]),
    (Bsc, [("USDC", BscUsdc), ("BUSD", BscBusd), ("CAKE", BscCake)])]

  /** `known_tokens[chain].items()`, or nothing when the chain is not listed. */
  function TokensOf(chain: string): seq<(string, string)> {
    if chain == Ethereum then KnownTokens[0].1
    else if chain == Bsc then KnownTokens[1].1
    else []
  }

  /** The search's name test: some keyword, lowercased, occurs in the
    * lowercased token name or in the lowercased startup name. */
  predicate Matches(tokenName: string, startupName: string, keywords: seq<string>) {
    (exists i :: 0 <= i < |keywords| && Contains(Lower(tokenName), Lower(keywords[i])))
    || (exists i :: 0 <= i < |keywords| && Contains(Lower(startupName), Lower(keywords[i])))
  }

  /** The addresses of the matching tokens of one chain, in table order. */
  function MatchingOf(tokens: seq<(string, string)>, startupName: string, keywords: seq<string>): seq<string> {
    if |tokens| == 0 then []
    else
      var last := tokens[|tokens| - 1];
      MatchingOf(tokens[..|tokens| - 1], startupName, keywords)
        + (if Matches(last.0, startupName, keywords) then [last.1] else [])
  }

  /** Every match over the listed chains, before the cut to five. */
  function MatchingAll(chains: seq<string>, startupName: string, keywords: seq<string>): seq<string> {
    if |chains| == 0 then []
    else
      MatchingAll(chains[..|chains| - 1], startupName, keywords)
        + MatchingOf(TokensOf(chains[|chains| - 1]), startupName, keywords)
  }

  const MaxSearchResults := 5

  /** `_search_for_token_addresses`: the first five matches. */
  function SearchTokenAddresses(startupName: string, keywords: seq<string>, chains: seq<string>): (r: seq<string>)
    ensures |r| <= MaxSearchResults && |r| <= |MatchingAll(chains, startupName, keywords)|
    ensures r == MatchingAll(chains, startupName, keywords)[..|r|]
  {
    PySlice(MatchingAll(chains, startupName, keywords), MaxSearchResults)
  }

  /** Every address of the listed chains' tables, in order. */
  function AllAddresses(chains: seq<string>): seq<string> {
    if |chains| == 0 then []
    else AllAddresses(chains[..|chains| - 1]) + Addresses(TokensOf(chains[|chains| - 1]))
  }

  function Addresses(tokens: seq<(string, string)>): (r: seq<string>)
    ensures |r| == |tokens|
    ensures forall j :: 0 <= j < |tokens| ==> r[j] == tokens[j].1
  {
    seq(|tokens|, j requires 0 <= j < |tokens| => tokens[j].1)
  }

  /** A matching address is the address of a known token of its chain. */
  lemma {:induction false} MatchingOfSound(tokens: seq<(string, string)>, startupName: string, keywords: seq<string>)
    ensures forall a :: a in MatchingOf(tokens, startupName, keywords) ==>
      exists j :: 0 <= j < |tokens| && tokens[j].1 == a && Matches(tokens[j].0, startupName, keywords)
    ensures |MatchingOf(tokens, startupName, keywords)| <= |tokens|
  {
    if |tokens| > 0 {
      var init := tokens[..|tokens| - 1];
      MatchingOfSound(init, startupName, keywords);
      forall a | a in MatchingOf(tokens, startupName, keywords)
        ensures exists j :: 0 <= j < |tokens| && tokens[j].1 == a && Matches(tokens[j].0, startupName, keywords)
      {
        if a in MatchingOf(init, startupName, keywords) {
          var j :| 0 <= j < |init| && init[j].1 == a && Matches(init[j].0, startupName, keywords);
          assert tokens[j] == init[j];
        } else {
          assert tokens[|tokens| - 1].1 == a;
        }
      }
    }
  }

  /** `a` is the address of a known token of one of `chains` that matches. */
  predicate KnownMatch(chains: seq<string>, a: string, startupName: string, keywords: seq<string>) {
    exists c, j :: 0 <= c < |chains| && 0 <= j < |TokensOf(chains[c])|
      && TokensOf(chains[c])[j].1 == a && Matches(TokensOf(chains[c])[j].0, startupName, keywords)
  }

  /** Every address found is the address of a matching known token of one of
    * the listed chains. */
  lemma {:induction false} SearchSound(startupName: string, keywords: seq<string>, chains: seq<string>)
    ensures forall a :: a in MatchingAll(chains, startupName, keywords) ==> KnownMatch(chains, a, startupName, keywords)
  {
    if |chains| > 0 {
      var init := chains[..|chains| - 1];
      var last := chains[|chains| - 1];
      SearchSound(startupName, keywords, init);
      MatchingOfSound(TokensOf(last), startupName, keywords);
      forall a | a in MatchingAll(chains, startupName, keywords)
        ensures KnownMatch(chains, a, startupName, keywords)
      {
        if a in MatchingAll(init, startupName, keywords) {
          assert KnownMatch(init, a, startupName, keywords);
          var c, j :| 0 <= c < |init| && 0 <= j < |TokensOf(init[c])|
            && TokensOf(init[c])[j].1 == a && Matches(TokensOf(init[c])[j].0, startupName, keywords);
          assert chains[c] == init[c];
        } else {
          var j :| 0 <= j < |TokensOf(last)| && TokensOf(last)[j].1 == a && Matches(TokensOf(last)[j].0, startupName, keywords);
          assert chains[|chains| - 1] == last;
        }
      }
    }
  }

  /** Every matching known token of a chain has its address among the matches. */
  lemma {:induction false} MatchingOfComplete(tokens: seq<(string, string)>, startupName: string, keywords: seq<string>)
    ensures forall j :: 0 <= j < |tokens| && Matches(tokens[j].0, startupName, keywords) ==>
      tokens[j].1 in MatchingOf(tokens, startupName, keywords)
  {
    if |tokens| > 0 {
      var init := tokens[..|tokens| - 1];
      MatchingOfComplete(init, startupName, keywords);
      forall j | 0 <= j < |tokens| && Matches(tokens[j].0, startupName, keywords)
        ensures tokens[j].1 in MatchingOf(tokens, startupName, keywords)
      {
        if j < |init| {
          assert init[j] == tokens[j];
        }
      }
    }
  }

  /** The address of a matching known token of the listed chain at index `c`
    * is among the matches. */
  lemma {:induction false} SearchCompleteAt(startupName: string, keywords: seq<string>, chains: seq<string>, c: nat, j: nat)
    requires c < |chains| && j < |TokensOf(chains[c])|
    requires Matches(TokensOf(chains[c])[j].0, startupName, keywords)
    ensures TokensOf(chains[c])[j].1 in MatchingAll(chains, startupName, keywords)
    decreases |chains|
  {
    var init := chains[..|chains| - 1];
    var tokens := TokensOf(chains[c]);
    if c < |init| {
      assert init[c] == chains[c];
      SearchCompleteAt(startupName, keywords, init, c, j);
    } else {
      MatchingOfComplete(tokens, startupName, keywords);
    }
  }

  /** Every matching known token of a listed chain has its address among the
    * matches: with `SearchSound`, an address is a match exactly when it is
    * the address of a matching known token of a listed chain. */
  lemma SearchComplete(startupName: string, keywords: seq<string>, chains: seq<string>)
    ensures forall a :: KnownMatch(chains, a, startupName, keywords) ==> a in MatchingAll(chains, startupName, keywords)
  {
    forall a | KnownMatch(chains, a, startupName, keywords)
      ensures a in MatchingAll(chains, startupName, keywords)
    {
      var c, j :| 0 <= c < |chains| && 0 <= j < |TokensOf(chains[c])|
        && TokensOf(chains[c])[j].1 == a && Matches(TokensOf(chains[c])[j].0, startupName, keywords);
      SearchCompleteAt(startupName, keywords, chains, c, j);
    }
  }

  /** A matching known token is returned whenever at most five tokens match in
    * all; more generally the first five matches are returned in order. */
  lemma SearchFinds(startupName: string, keywords: seq<string>, chains: seq<string>, a: string)
    requires KnownMatch(chains, a, startupName, keywords)
    requires |MatchingAll(chains, startupName, keywords)| <= MaxSearchResults
    ensures a in SearchTokenAddresses(startupName, keywords, chains)
  {
    SearchComplete(startupName, keywords, chains);
    assert SearchTokenAddresses(startupName, keywords, chains) == MatchingAll(chains, startupName, keywords);
  }

  lemma {:induction false} MatchingOfAll(tokens: seq<(string, string)>, startupName: string, keywords: seq<string>)
    requires exists i :: 0 <= i < |keywords| && Contains(Lower(startupName), Lower(keywords[i]))
    ensures MatchingOf(tokens, startupName, keywords) == Addresses(tokens)
  {
    if |tokens| > 0 {
      var init := tokens[..|tokens| - 1];
      MatchingOfAll(init, startupName, keywords);
      assert Addresses(tokens) == Addresses(init) + [tokens[|tokens| - 1].1];
    }
  }

  /** A keyword that occurs in the startup's own name selects every known
    * token of every listed chain, whatever the token names are. */
  lemma {:induction false} NameMatchSelectsAll(startupName: string, keywords: seq<string>, chains: seq<string>)
    requires exists i :: 0 <= i < |keywords| && Contains(Lower(startupName), Lower(keywords[i]))
    ensures MatchingAll(chains, startupName, keywords) == AllAddresses(chains)
  {
    if |chains| > 0 {
      NameMatchSelectsAll(startupName, keywords, chains[..|chains| - 1]);
      MatchingOfAll(TokensOf(chains[|chains| - 1]), startupName, keywords);
    }
  }

  lemma {:induction false} MatchingOfNone(tokens: seq<(string, string)>, startupName: string)
    ensures MatchingOf(tokens, startupName, []) == []
  {
    if |tokens| > 0 {
      MatchingOfNone(tokens[..|tokens| - 1], startupName);
    }
  }

  /** With no keywords nothing matches. */
  lemma {:induction false} NoKeywordsNoTokens(startupName: string, chains: seq<string>)
    ensures SearchTokenAddresses(startupName, [], chains) == []
  {
    if |chains| > 0 {
      NoKeywordsNoTokens(startupName, chains[..|chains| - 1]);
      MatchingOfNone(TokensOf(chains[|chains| - 1]), startupName);
    }
  }

  /** `_search_for_token_addresses`: the nested loop over the listed chains and
    * their known tokens. */
  method SearchForTokenAddresses(startupName: string, keywords: seq<string>, chains: seq<string>)
    returns (addresses: seq<string>)
    ensures addresses == SearchTokenAddresses(startupName, keywords, chains)
  {
    var found: seq<string> := [];
    var c := 0;
    while c < |chains|
      invariant 0 <= c <= |chains|
      invariant found == MatchingAll(chains[..c], startupName, keywords)
    {
      var matched := MatchTokens(TokensOf(chains[c]), startupName, keywords);
      found := found + matched;
      assert chains[..c + 1][..c] == chains[..c];
      c := c + 1;
    }
    assert chains[..c] == chains;
    addresses := PySlice(found, MaxSearchResults);
  }

  /** The inner loop over one chain's known tokens. */
  method MatchTokens(tokens: seq<(string, string)>, startupName: string, keywords: seq<string>)
    returns (matched: seq<string>)
    ensures matched == MatchingOf(tokens, startupName, keywords)
  {
    matched := [];
    for t := 0 to |tokens|
      invariant matched == MatchingOf(tokens[..t], startupName, keywords)
    {
      assert tokens[..t + 1][..t] == tokens[..t];
      if Matches(tokens[t].0, startupName, keywords) {
        matched := matched + [tokens[t].1];
      }
    }
    assert tokens[..|tokens|] == tokens;
  }

  // --------------------------------------------------------- chain and level

  /** `_identify_blockchain`. */
  function IdentifyBlockchain(address: string): (r: string)
    ensures r == Ethereum || r == Bsc
  {
    if |address| == 42 && StartsWith(address, "0x") then Ethereum
    else if StartsWith(address, "bnb") || |address| == 42 then Bsc
    else Ethereum
  }

  /** The three rules: a 42-character `0x` address is Ethereum; otherwise a
    * `bnb` prefix or a length of 42 means BSC; everything else defaults to
    * Ethereum. */
  lemma IdentifyBlockchainRules(address: string)
    ensures |address| == 42 && StartsWith(address, "0x") ==> IdentifyBlockchain(address) == Ethereum
    ensures IdentifyBlockchain(address) == Bsc <==>
      !(|address| == 42 && StartsWith(address, "0x")) && (StartsWith(address, "bnb") || |address| == 42)
  {
  }

  const SampleEthAddress := "0x123456" + "7890123456789012345678901234567890"
  const SampleBnbAddress := "bnb1abcd" + "1234567890abcd1234567890abcd1234"

  /** The regression test's two addresses. */
  lemma IdentifyBlockchainSamples()
    ensures IdentifyBlockchain(SampleEthAddress) == Ethereum
    ensures IdentifyBlockchain(SampleBnbAddress) == Bsc
  {
    assert SampleEthAddress[0] == '0' && SampleEthAddress[1] == 'x';
    assert SampleEthAddress[..2] == "0x";
    assert SampleBnbAddress[0] == 'b' && SampleBnbAddress[1] == 'n' && SampleBnbAddress[2] == 'b';
    assert SampleBnbAddress[..3] == "bnb";
  }

  const DecentralizationMap: map<string, string> := map[
    "ethereum" := "high", "bsc" := "medium", "polygon" := "medium",
    "avalanche" := "high", "solana" := "high"]

  /** `_assess_decentralization_level`: the fixed table, `unknown` elsewhere. */
  function DecentralizationLevel(chain: string): (r: string)
    ensures chain in DecentralizationMap ==> r == DecentralizationMap[chain]
    ensures chain !in DecentralizationMap ==> r == "unknown"
  {
    if chain in DecentralizationMap then DecentralizationMap[chain] else "unknown"
  }

  /** Every chain the collector can identify has a known level. */
  lemma IdentifiedChainsHaveLevel(address: string)
    ensures DecentralizationLevel(IdentifyBlockchain(address)) in {"high", "medium"}
  {
  }

  // -------------------------------------------------------- test supply data

  predicate IsHexDigit(c: char) {
    IsDigit(c) || 'a' <= c <= 'f' || 'A' <= c <= 'F'
  }

  function HexDigitValue(c: char): (r: nat)
    requires IsHexDigit(c)
    ensures r < 16
  {
    if IsDigit(c) then c as int - '0' as int
    else if 'a' <= c <= 'f' then c as int - 'a' as int + 10
    else c as int - 'A' as int + 10
  }

  predicate AllHex(s: string) {
    forall i :: 0 <= i < |s| ==> IsHexDigit(s[i])
  }

  /** The value of a run of hex digits, most significant first. */
  function HexValue(s: string): nat
    requires AllHex(s)
  {
    if |s| == 0 then 0 else 16 * HexValue(s[..|s| - 1]) + HexDigitValue(s[|s| - 1])
  }

  /** `int(s, 16)` for an alphanumeric `s`: an optional `0x`/`0X` prefix, then at
    * least one hex digit; anything else raises `ValueError` (`None`). */
  function ParseHex(s: string): (r: Option<nat>)
    ensures AllHex(s) && |s| > 0 && !(StartsWith(s, "0x") || StartsWith(s, "0X")) ==> r == Some(HexValue(s))
  {
    var digits := if StartsWith(s, "0x") || StartsWith(s, "0X") then s[2..] else s;
    if |digits| > 0 && AllHex(digits) then Some(HexValue(digits)) else None
  }

  predicate AllAlnum(s: string) {
    forall i :: 0 <= i < |s| ==> IsAlnum(s[i])
  }

  const FallbackHash := 1000000

  /** The `hash_val` of the test data: the first eight characters read as hex
    * when they are all alphanumeric (`isalnum` is false on the empty string),
    * else 1,000,000. `None` is the `ValueError` of a non-hex alphanumeric
    * prefix. */
  function HashVal(address: string): (r: Option<nat>)
    ensures !(|PySlice(address, 8)| > 0 && AllAlnum(PySlice(address, 8))) ==> r == Some(FallbackHash)
  {
    var p := PySlice(address, 8);
    if |p| > 0 && AllAlnum(p) then ParseHex(p) else Some(FallbackHash)
  }

  datatype Supply = Supply(totalSupply: int, circulatingSupply: int, maxSupply: Option<int>, inflationRate: Option<real>)

  /** `_get_test_supply_data`. */
  function TestSupplyData(address: string): (r: Option<Supply>)
    ensures r.Some? <==> HashVal(address).Some?
  {
    match HashVal(address)
    case None => None
    case Some(h) =>
      Some(Supply(h * 1000000, h * 800000,
        if h % 2 == 0 then Some(h * 2000000) else None,
        if h % 3 == 0 then Some(0.02) else None))
  }

  /** The supply figures follow from the hash: circulating is four fifths of
    * the total, the maximum is twice the total exactly when the hash is even,
    * and inflation is 2% exactly when it is a multiple of three. The data is a
    * function of the address alone, so two calls agree. */
  lemma TestSupplyShape(address: string)
    requires HashVal(address).Some?
    ensures var s := TestSupplyData(address).value; var h := HashVal(address).value;
      s.totalSupply == h * 1000000 && 5 * s.circulatingSupply == 4 * s.totalSupply
      && (s.maxSupply.Some? <==> h % 2 == 0)
      && (s.maxSupply.Some? ==> s.maxSupply.value == 2 * s.totalSupply)
      && (s.inflationRate.Some? <==> h % 3 == 0)
  {
  }

  /** The test's Ethereum address: `0x123456` is 1,193,046, which is even and
    * a multiple of three. */
  lemma TestSupplySample()
    ensures TestSupplyData(SampleEthAddress) ==
      Some(Supply(1193046000000, 954436800000, Some(2386092000000), Some(0.02)))
  {
    var a := SampleEthAddress;
    var p := PySlice(a, 8);
    assert p == a[..8] == "0x123456";
    assert AllAlnum(p);
    assert StartsWith(p, "0x");
    var d := p[2..];
    assert AllHex(d);
    assert HexValue(d[..1]) == 1 by { assert d[..1][..0] == []; }
    assert HexValue(d[..2]) == 18 by { assert d[..2][..1] == d[..1]; }
    assert HexValue(d[..3]) == 291 by { assert d[..3][..2] == d[..2]; }
    assert HexValue(d[..4]) == 4660 by { assert d[..4][..3] == d[..3]; }
    assert HexValue(d[..5]) == 74565 by { assert d[..5][..4] == d[..4]; }
    assert HexValue(d) == 1193046 by { assert d[..|d| - 1] == d[..5]; }
    assert HashVal(a) == Some(1193046);
  }

  /** The test's BSC address starts `bnb1abcd`, which is alphanumeric but not
    * hex: `int(..., 16)` raises and no test supply is produced. */
  lemma TestSupplyBnbRaises()
    ensures TestSupplyData(SampleBnbAddress) == None
  {
    var a := SampleBnbAddress;
    var p := PySlice(a, 8);
    assert p == a[..8] == "bnb1abcd";
    assert AllAlnum(p);
    assert !StartsWith(p, "0x") && !StartsWith(p, "0X");
    assert !IsHexDigit(p[1]);
  }

  // ------------------------------------------------------------ holder list

  /** `float(x)` on a dictionary value: numbers (and booleans) convert, text
    * goes through `parse`, anything else is a `TypeError`. */
  function ToFloat(j: Json, parse: string -> Option<real>): Option<real> {
    if IsNumber(j) then Some(NumValue(j))
    else if j.Str? then parse(j.s)
    else None
  }

  function HolderDict(address: Json, balance: real, percentage: real): Json {
    Obj(map["address" := address, "balance" := Num(balance), "percentage" := Num(percentage)])
  }

  /** One entry: `Err` when it is not a dictionary (the `AttributeError` the
    * loop does not catch), `Ok(None)` when a quantity does not convert
    * (skipped), else the processed holder. */
  function ProcessHolder(h: Json, parse: string -> Option<real>): Result<Option<Json>> {
    if !h.Obj? then Err("AttributeError")
    else
      var address := GetOr(h.fields, "TokenHolder", Str(""));
      var balance := ToFloat(GetOr(h.fields, "TokenHolderQuantity", Num(0.0)), parse);
      var pct := ToFloat(GetOr(h.fields, "PercentageOfTotalSupply", Num(0.0)), parse);
      if balance.Some? && pct.Some? then Ok(Some(HolderDict(address, balance.value, pct.value)))
      else Ok(None)
  }

  /** `_process_holder_list` as a fold over the raw entries. */
  function ProcessHolders(holders: seq<Json>, parse: string -> Option<real>): Result<seq<Json>> {
    if |holders| == 0 then Ok([])
    else
      match ProcessHolders(holders[..|holders| - 1], parse)
      case Err(e) => Err(e)
      case Ok(done) =>
        match ProcessHolder(holders[|holders| - 1], parse)
        case Err(e) => Err(e)
        case Ok(h) => if h.Some? then Ok(done + [h.value]) else Ok(done)
  }

  /** The processed list never grows, and every entry is the processed form of
    * some raw entry with three keys. */
  lemma {:induction false} ProcessHoldersShape(holders: seq<Json>, parse: string -> Option<real>)
    requires ProcessHolders(holders, parse).Ok?
    ensures |ProcessHolders(holders, parse).value| <= |holders|
    ensures forall k :: 0 <= k < |ProcessHolders(holders, parse).value| ==>
      exists j :: 0 <= j < |holders| && ProcessHolder(holders[j], parse) == Ok(Some(ProcessHolders(holders, parse).value[k]))
  {
    if |holders| > 0 {
      var init := holders[..|holders| - 1];
      ProcessHoldersShape(init, parse);
      var r := ProcessHolders(holders, parse).value;
      var done := ProcessHolders(init, parse).value;
      forall k | 0 <= k < |r|
        ensures exists j :: 0 <= j < |holders| && ProcessHolder(holders[j], parse) == Ok(Some(r[k]))
      {
        if k < |done| {
          var j :| 0 <= j < |init| && ProcessHolder(init[j], parse) == Ok(Some(done[k]));
          assert holders[j] == init[j];
        } else {
          assert ProcessHolder(holders[|holders| - 1], parse) == Ok(Some(r[k]));
        }
      }
    }
  }

  /** When every entry converts, the processed list has one entry per raw
    * entry, in order. */
  lemma {:induction false} ProcessHoldersAllConvert(holders: seq<Json>, parse: string -> Option<real>)
    requires forall j :: 0 <= j < |holders| ==> ProcessHolder(holders[j], parse).Ok? && ProcessHolder(holders[j], parse).value.Some?
    ensures ProcessHolders(holders, parse).Ok?
    ensures |ProcessHolders(holders, parse).value| == |holders|
    ensures forall j :: 0 <= j < |holders| ==> ProcessHolders(holders, parse).value[j] == ProcessHolder(holders[j], parse).value.value
  {
    if |holders| > 0 {
      var init := holders[..|holders| - 1];
      assert forall j :: 0 <= j < |init| ==> init[j] == holders[j];
      ProcessHoldersAllConvert(init, parse);
    }
  }

  /** `_process_holder_list`: the loop that skips unconvertible entries. */
  method ProcessHolderList(holders: seq<Json>, parse: string -> Option<real>) returns (r: Result<seq<Json>>)
    ensures r == ProcessHolders(holders, parse)
  {
    var processed: seq<Json> := [];
    var i := 0;
    while i < |holders|
      invariant 0 <= i <= |holders|
      invariant ProcessHolders(holders[..i], parse) == Ok(processed)
    {
      assert holders[..i + 1][..i] == holders[..i];
      var h := ProcessHolder(holders[i], parse);
      if h.Err? {
        assert ProcessHolders(holders[..i + 1], parse) == Err(h.error);
        ProcessHoldersErr(holders, parse, i + 1);
        assert holders[..|holders|] == holders;
        return Err(h.error);
      }
      if h.value.Some? {
        processed := processed + [h.value.value];
      }
      i := i + 1;
    }
    assert holders[..i] == holders;
    r := Ok(processed);
  }

  /** An error in a prefix is the error of the whole list. */
  lemma {:induction false} ProcessHoldersErr(holders: seq<Json>, parse: string -> Option<real>, n: nat)
    requires n <= |holders| && ProcessHolders(holders[..n], parse).Err?
    ensures ProcessHolders(holders, parse) == ProcessHolders(holders[..n], parse)
    decreases |holders| - n
  {
    if n < |holders| {
      assert holders[..n + 1][..n] == holders[..n];
      ProcessHoldersErr(holders, parse, n + 1);
    } else {
      assert holders[..n] == holders;
    }
  }

  const SampleHolderA := "0x1234567890123456789012345678901234567890"
  const SampleHolderB := "0x0987654321098765432109876543210987654321"
  const Qty1000 := "1000.0"
  const Pct10 := "10.0"
  const Qty500 := "500.0"
  const Pct5 := "5.0"

  function RawHolder(address: string, quantity: string, pct: string): Json {
    Obj(map["TokenHolder" := Str(address), "TokenHolderQuantity" := Str(quantity), "PercentageOfTotalSupply" := Str(pct)])
  }

  /** The regression test's two raw holders, with a text parser that reads the
    * four quantities as written. */
  lemma ProcessHoldersSample(parse: string -> Option<real>)
    requires parse(Qty1000) == Some(1000.0) && parse(Pct10) == Some(10.0)
    requires parse(Qty500) == Some(500.0) && parse(Pct5) == Some(5.0)
    ensures ProcessHolders([RawHolder(SampleHolderA, Qty1000, Pct10), RawHolder(SampleHolderB, Qty500, Pct5)], parse)
      == Ok([HolderDict(Str(SampleHolderA), 1000.0, 10.0), HolderDict(Str(SampleHolderB), 500.0, 5.0)])
  {
    var a := RawHolder(SampleHolderA, Qty1000, Pct10);
    var b := RawHolder(SampleHolderB, Qty500, Pct5);
    var ha := HolderDict(Str(SampleHolderA), 1000.0, 10.0);
    var hb := HolderDict(Str(SampleHolderB), 500.0, 5.0);
    assert ProcessHolder(a, parse) == Ok(Some(ha));
    assert ProcessHolder(b, parse) == Ok(Some(hb));
    ProcessHoldersSnoc([], a, [], ha, parse);
    assert [] + [a] == [a] && [] + [ha] == [ha];
    ProcessHoldersSnoc([a], b, [ha], hb, parse);
    assert [a] + [b] == [a, b] && [ha] + [hb] == [ha, hb];
  }

  lemma ProcessHoldersSnoc(init: seq<Json>, x: Json, done: seq<Json>, h: Json, parse: string -> Option<real>)
    requires ProcessHolders(init, parse) == Ok(done) && ProcessHolder(x, parse) == Ok(Some(h))
    ensures ProcessHolders(init + [x], parse) == Ok(done + [h])
  {
    var xs := init + [x];
    assert xs[..|xs| - 1] == init;
    var r := ProcessHolders(xs, parse);
    assert r.value == done + [h];
  }

  // --------------------------------------------------------- derived metrics

  /** `data.get(key, {})` used as a dictionary: `None` when the stored value is
    * not one, which makes the next `.get` raise. */
  function Sub(data: map<string, Json>, key: string): Option<map<string, Json>> {
    if key !in data then Some(map[])
    else if data[key].Obj? then Some(data[key].fields)
    else None
  }

  /** `sum(h.get('percentage', 0) for h in hs)`; `None` when an entry is not a
    * dictionary or its percentage is not a number. */
  function PctSum(hs: seq<Json>): Option<real> {
    if |hs| == 0 then Some(0.0)
    else
      match PctSum(hs[..|hs| - 1])
      case None => None
      case Some(s) =>
        var h := hs[|hs| - 1];
        if h.Obj? && IsNumber(GetOr(h.fields, "percentage", Num(0.0)))
        then Some(s + NumValue(GetOr(h.fields, "percentage", Num(0.0))))
        else None
  }

  /** The concentration-risk tier of a top-10 percentage. */
  function ConcentrationRisk(top10: real): (r: string)
    ensures r == "high" <==> top10 > 50.0
    ensures r == "medium" <==> 30.0 < top10 <= 50.0
    ensures r == "low" <==> top10 <= 30.0
  {
    if top10 > 50.0 then "high" else if top10 > 30.0 then "medium" else "low"
  }

  function WithConcentration(h: map<string, Json>, top5: real, top10: real): map<string, Json> {
    h["top_5_concentration" := Num(top5)]["top_10_concentration" := Num(top10)]["concentration_risk" := Str(ConcentrationRisk(top10))]
  }

  /** The circulation-ratio step: `None` when the division raises. */
  function RatioStep(data: map<string, Json>, supply: map<string, Json>): Option<map<string, Json>> {
    var total := Get(supply, "total_supply");
    var circ := Get(supply, "circulating_supply");
    if !(Truthy(total) && Truthy(circ)) then Some(data)
    else if IsNumber(total) && IsNumber(circ) then
      Some(data["circulation_ratio" := Num(NumValue(circ) / NumValue(total))])
    else None
  }

  /** The holder-concentration step, written into `holder_statistics`: `None`
    * when the top-holder list cannot be sliced or summed. */
  function ConcentrationStep(data: map<string, Json>, holders: map<string, Json>): Option<map<string, Json>> {
    var top := GetOr(holders, "top_holders", Arr([]));
    if !Truthy(top) then Some(data)
    else if top.Arr? && PctSum(PySlice(top.items, 5)).Some? && PctSum(PySlice(top.items, 10)).Some? then
      Some(data["holder_statistics" := Obj(WithConcentration(holders,
        PctSum(PySlice(top.items, 5)).value, PctSum(PySlice(top.items, 10)).value))])
    else None
  }

  function Times(a: real, b: real): real { a * b }

  /** The market-cap step: `None` when the product raises. */
  function MarketCapStep(data: map<string, Json>, market: map<string, Json>, total: Json): Option<map<string, Json>> {
    var price := Get(market, "current_price_usd");
    if !(Truthy(price) && Truthy(total)) then Some(data)
    else if IsNumber(price) && IsNumber(total) then
      Some(data["estimated_market_cap" := Num(Times(NumValue(price), NumValue(total)))])
    else None
  }

  /** `_calculate_derived_metrics` on the record's dictionary. The steps run
    * in order, and the first one that raises ends the calculation, keeping
    * what the earlier ones wrote: the circulation ratio, then the holder
    * concentration written into `holder_statistics`, then the estimated
    * market cap. A sub-dictionary that is not a dictionary raises at its
    * first `.get`. */
  function DerivedMetrics(data: map<string, Json>): map<string, Json> {
    match Sub(data, "supply_metrics")
    case None => data
    case Some(supply) =>
      match RatioStep(data, supply)
      case None => data
      case Some(d1) =>
        match Sub(data, "holder_statistics")
        case None => d1
        case Some(holders) =>
          match ConcentrationStep(d1, holders)
          case None => d1
          case Some(d2) =>
            match Sub(data, "market_data")
            case None => d2
            case Some(market) =>
              match MarketCapStep(d2, market, Get(supply, "total_supply"))
              case None => d2
              case Some(d3) => d3
  }

  lemma TruthyNumberNonZero(j: Json)
    requires Truthy(j) && IsNumber(j)
    ensures NumValue(j) != 0.0
  {
  }

  /** A prefix of a summable list is summable. */
  lemma {:induction false} PctSumPrefix(hs: seq<Json>, n: nat)
    requires n <= |hs| && PctSum(hs).Some?
    ensures PctSum(hs[..n]).Some?
    decreases |hs| - n
  {
    if n < |hs| {
      assert PctSum(hs[..|hs| - 1]).Some?;
      assert hs[..|hs| - 1][..n] == hs[..n];
      PctSumPrefix(hs[..|hs| - 1], n);
    } else {
      assert hs[..n] == hs;
    }
  }

  /** The derived metrics only add the circulation ratio, the estimated market
    * cap and the holder-statistics entry: every other key keeps its value. */
  lemma DerivedMetricsFrame(data: map<string, Json>)
    ensures DerivedMetrics(data).Keys <= data.Keys + {"circulation_ratio", "estimated_market_cap", "holder_statistics"}
    ensures forall k :: k in data && k !in {"circulation_ratio", "estimated_market_cap", "holder_statistics"} ==>
      k in DerivedMetrics(data) && DerivedMetrics(data)[k] == data[k]
  {
  }

  /** The circulation ratio is written exactly when both supplies are truthy
    * numbers in a dictionary, and it is their quotient. */
  lemma CirculationRatioWritten(data: map<string, Json>, total: real, circ: real)
    requires "circulation_ratio" !in data
    requires "supply_metrics" in data && data["supply_metrics"].Obj?
    requires Get(data["supply_metrics"].fields, "total_supply") == Num(total) && total != 0.0
    requires Get(data["supply_metrics"].fields, "circulating_supply") == Num(circ) && circ != 0.0
    ensures "circulation_ratio" in DerivedMetrics(data) && DerivedMetrics(data)["circulation_ratio"] == Num(circ / total)
  {
  }

  /** Without a truthy total or circulating supply no ratio is written. */
  lemma NoRatioWithoutSupply(data: map<string, Json>)
    requires "circulation_ratio" !in data
    requires Sub(data, "supply_metrics").Some?
    requires !Truthy(Get(Sub(data, "supply_metrics").value, "total_supply"))
      || !Truthy(Get(Sub(data, "supply_metrics").value, "circulating_supply"))
    ensures "circulation_ratio" !in DerivedMetrics(data)
  {
  }

  /** With summable top holders the holder statistics gain the top-5 and
    * top-10 sums and the risk tier of the top-10 sum, and keep their other
    * entries. */
  lemma ConcentrationWritten(data: map<string, Json>, supply: map<string, Json>, holders: map<string, Json>)
    requires Sub(data, "supply_metrics") == Some(supply) && RatioStep(data, supply).Some?
    requires Sub(data, "holder_statistics") == Some(holders)
    requires var top := GetOr(holders, "top_holders", Arr([]));
      top.Arr? && |top.items| > 0 && PctSum(PySlice(top.items, 10)).Some?
    ensures var top := GetOr(holders, "top_holders", Arr([])).items;
      PctSum(PySlice(top, 5)).Some? &&
      DerivedMetrics(data)["holder_statistics"] ==
        Obj(WithConcentration(holders, PctSum(PySlice(top, 5)).value, PctSum(PySlice(top, 10)).value))
  {
    var top := GetOr(holders, "top_holders", Arr([])).items;
    PctSumPrefix(PySlice(top, 10), |PySlice(top, 5)|);
    assert PySlice(top, 10)[..|PySlice(top, 5)|] == PySlice(top, 5);
    var d1 := RatioStep(data, supply).value;
    var d2 := ConcentrationStep(d1, holders).value;
    assert d2["holder_statistics"] ==
      Obj(WithConcentration(holders, PctSum(PySlice(top, 5)).value, PctSum(PySlice(top, 10)).value));
    match Sub(data, "market_data")
    case None =>
    case Some(market) =>
      var d3 := MarketCapStep(d2, market, Get(supply, "total_supply"));
      assert d3.Some? ==> "holder_statistics" in d3.value && d3.value["holder_statistics"] == d2["holder_statistics"];
  }

  function Pct(p: real): Json {
    Obj(map["percentage" := Num(p)])
  }

  const SampleDerivedInput: map<string, Json> := map[
    "supply_metrics" := Obj(map["total_supply" := Num(1000000.0), "circulating_supply" := Num(800000.0)]),
    "holder_statistics" := Obj(map["top_holders" := Arr(SampleTopHolders)]),
    "market_data" := Obj(map["current_price_usd" := Num(1.0)])]

  const SampleDerivedOutput: map<string, Json> := SampleDerivedInput
    ["circulation_ratio" := Num(0.8)]
    ["holder_statistics" := Obj(map[
      "top_holders" := Arr(SampleTopHolders),
      "top_5_concentration" := Num(83.0), "top_10_concentration" := Num(83.0),
      "concentration_risk" := Str("high")])]
    ["estimated_market_cap" := Num(1000000.0)]

  /** The regression test's record: ratio 0.8, top-5 concentration 83, high
    * risk, and a market cap of one million. */
  lemma DerivedMetricsSample()
    ensures DerivedMetrics(SampleDerivedInput) == SampleDerivedOutput
  {
    var input := SampleDerivedInput;
    var supply := map["total_supply" := Num(1000000.0), "circulating_supply" := Num(800000.0)];
    var holders := map["top_holders" := Arr(SampleTopHolders)];
    var market := map["current_price_usd" := Num(1.0)];
    var d1 := input["circulation_ratio" := Num(0.8)];
    assert RatioStep(input, supply) == Some(d1);
    SamplePercentages();
    var d2 := d1["holder_statistics" := Obj(WithConcentration(holders, 83.0, 83.0))];
    assert ConcentrationStep(d1, holders) == Some(d2);
    var d3 := d2["estimated_market_cap" := Num(1000000.0)];
    assert MarketCapStep(d2, market, Num(1000000.0)) == Some(d3);
    DerivedMetricsSteps(input, supply, holders, market, d1, d2, d3);
  }

  /** The derived metrics when all three steps succeed. */
  lemma DerivedMetricsSteps(data: map<string, Json>, supply: map<string, Json>, holders: map<string, Json>,
                            market: map<string, Json>, d1: map<string, Json>, d2: map<string, Json>, d3: map<string, Json>)
    requires Sub(data, "supply_metrics") == Some(supply) && RatioStep(data, supply) == Some(d1)
    requires Sub(data, "holder_statistics") == Some(holders) && ConcentrationStep(d1, holders) == Some(d2)
    requires Sub(data, "market_data") == Some(market) && MarketCapStep(d2, market, Get(supply, "total_supply")) == Some(d3)
    ensures DerivedMetrics(data) == d3
  {
  }

  const SampleTopHolders := [Pct(30.0), Pct(20.0), Pct(15.0), Pct(10.0), Pct(8.0)]

  lemma SamplePercentages()
    ensures PySlice(SampleTopHolders, 5) == SampleTopHolders && PySlice(SampleTopHolders, 10) == SampleTopHolders
    ensures PctSum(SampleTopHolders) == Some(83.0)
  {
    var hs := SampleTopHolders;
    assert PctSum(hs[..1]) == Some(30.0) by { assert hs[..1][..0] == []; }
    assert PctSum(hs[..2]) == Some(50.0) by { assert hs[..2][..1] == hs[..1]; }
    assert PctSum(hs[..3]) == Some(65.0) by { assert hs[..3][..2] == hs[..2]; }
    assert PctSum(hs[..4]) == Some(75.0) by { assert hs[..4][..3] == hs[..3]; }
    assert PctSum(hs) == Some(83.0) by { assert hs[..4] == hs[..|hs| - 1]; }
  }

  /** The record `_collect_token_data` assembles, whose dictionary
    * `_calculate_derived_metrics` updates in place. */
  class TokenomicsRecord {
    var data: map<string, Json>

    constructor (data: map<string, Json>)
      ensures this.data == data
    {
      this.data := data;
    }

    /** `sum(h.get('percentage', 0) for h in hs)`, `None` where it raises. */
    static method SumPercentages(hs: seq<Json>) returns (s: Option<real>)
      ensures s == PctSum(hs)
    {
      var total := 0.0;
      var i := 0;
      while i < |hs|
        invariant 0 <= i <= |hs|
        invariant PctSum(hs[..i]) == Some(total)
      {
        assert hs[..i + 1][..i] == hs[..i];
        var h := hs[i];
        if !(h.Obj? && IsNumber(GetOr(h.fields, "percentage", Num(0.0)))) {
          assert PctSum(hs[..i + 1]).None?;
          PctSumNone(hs, i + 1);
          return None;
        }
        total := total + NumValue(GetOr(h.fields, "percentage", Num(0.0)));
        i := i + 1;
      }
      assert hs[..i] == hs;
      s := Some(total);
    }

    /** `_calculate_derived_metrics`: never raises; stops at the first step
      * that would. */
    method CalculateDerivedMetrics()
      modifies this
      ensures data == DerivedMetrics(old(data))
    {
      var supply := Sub(data, "supply_metrics");
      var holders := Sub(data, "holder_statistics");
      var market := Sub(data, "market_data");
      if supply.None? {
        return;
      }
      ghost var d0 := data;
      var total := Get(supply.value, "total_supply");
      var circ := Get(supply.value, "circulating_supply");
      if Truthy(total) && Truthy(circ) {
        if !(IsNumber(total) && IsNumber(circ)) {
          return;
        }
        TruthyNumberNonZero(total);
        data := data["circulation_ratio" := Num(NumValue(circ) / NumValue(total))];
      }
      assert RatioStep(d0, supply.value) == Some(data);
      if holders.None? {
        return;
      }
      ghost var d1 := data;
      var top := GetOr(holders.value, "top_holders", Arr([]));
      if Truthy(top) {
        if !top.Arr? {
          return;
        }
        var top5 := SumPercentages(PySlice(top.items, 5));
        if top5.None? {
          return;
        }
        var top10 := SumPercentages(PySlice(top.items, 10));
        if top10.None? {
          return;
        }
        data := data["holder_statistics" := Obj(WithConcentration(holders.value, top5.value, top10.value))];
      }
      assert ConcentrationStep(d1, holders.value) == Some(data);
      if market.None? {
        return;
      }
      ghost var d2 := data;
      var price := Get(market.value, "current_price_usd");
      if Truthy(price) && Truthy(total) {
        if !(IsNumber(price) && IsNumber(total)) {
          return;
        }
        data := data["estimated_market_cap" := Num(Times(NumValue(price), NumValue(total)))];
        assert MarketCapStep(d2, market.value, total) == Some(data);
      } else {
        assert MarketCapStep(d2, market.value, total) == Some(data);
      }
    }
  }

  /** A failing prefix makes the whole sum fail. */
  lemma {:induction false} PctSumNone(hs: seq<Json>, n: nat)
    requires n <= |hs| && PctSum(hs[..n]).None?
    ensures PctSum(hs).None?
    decreases |hs| - n
  {
    if n < |hs| {
      assert hs[..n + 1][..n] == hs[..n];
      PctSumNone(hs, n + 1);
    } else {
      assert hs[..n] == hs;
    }
  }

  // ------------------------------------------------------------ data quality

  /** The weight a flag adds when the field is truthy. */
  function Weight(m: map<string, Json>, key: string, w: real): real {
    if Truthy(Get(m, key)) then w else 0.0
  }

  function MetadataScore(m: map<string, Json>): real {
    Weight(m, "explorer_verified", 0.3) + Weight(m, "abi_available", 0.2)
  }

  function SupplyScore(m: map<string, Json>): real {
    Weight(m, "total_supply", 0.4) + Weight(m, "circulating_supply", 0.3) + Weight(m, "max_supply", 0.3)
  }

  function HolderScore(m: map<string, Json>): real {
    Weight(m, "total_holders", 0.3) + Weight(m, "top_holders", 0.4) + Weight(m, "whale_analysis", 0.3)
  }

  function MarketScore(m: map<string, Json>): real {
    Weight(m, "current_price_usd", 0.4) + Weight(m, "market_cap_usd", 0.3) + Weight(m, "volume_24h_usd", 0.3)
  }

  /** `_assess_data_quality`: the four category scores over the four
    * categories' maximum of 1 each, capped at 1; `None` when a category is
    * not a dictionary (the `.get` on it raises). */
  function DataQuality(data: map<string, Json>): (r: Option<real>)
    ensures r.Some? <==> (Sub(data, "metadata").Some? && Sub(data, "supply_metrics").Some?
      && Sub(data, "holder_statistics").Some? && Sub(data, "market_data").Some?)
  {
    match (Sub(data, "metadata"), Sub(data, "supply_metrics"), Sub(data, "holder_statistics"), Sub(data, "market_data"))
    case (Some(md), Some(s), Some(h), Some(mk)) =>
      Some(Min((MetadataScore(md) + SupplyScore(s) + HolderScore(h) + MarketScore(mk)) / 4.0, 1.0))
    case _ => None
  }

  /** Each category adds at most 1 and nothing negative, so the quality lies
    * in [0, 1]; empty categories give 0. */
  lemma DataQualityRange(data: map<string, Json>)
    requires DataQuality(data).Some?
    ensures 0.0 <= DataQuality(data).value <= 1.0
  {
  }

  lemma DataQualityEmpty()
    ensures DataQuality(map["metadata" := Obj(map[]), "supply_metrics" := Obj(map[]),
      "holder_statistics" := Obj(map[]), "market_data" := Obj(map[])]) == Some(0.0)
    ensures DataQuality(map[]) == Some(0.0)
  {
  }

  const HighQualityData: map<string, Json> := map[
    "metadata" := Obj(map["explorer_verified" := Bool(true), "abi_available" := Bool(true)]),
    "supply_metrics" := Obj(map["total_supply" := Num(1000000.0), "circulating_supply" := Num(800000.0), "max_supply" := Num(2000000.0)]),
    "holder_statistics" := Obj(map["total_holders" := Num(1000.0), "top_holders" := Arr([]), "whale_analysis" := Obj(map[])]),
    "market_data" := Obj(map["current_price_usd" := Num(1.0), "market_cap_usd" := Num(1000000.0), "volume_24h_usd" := Num(100000.0)])]

  /** The regression test's "high quality" record scores exactly 0.7: the
    * empty top-holder list and whale analysis are falsy. */
  lemma DataQualityHighSample()
    ensures DataQuality(HighQualityData) == Some(0.7)
  {
    assert MetadataScore(HighQualityData["metadata"].fields) == 0.5;
    assert SupplyScore(HighQualityData["supply_metrics"].fields) == 1.0;
    assert HolderScore(HighQualityData["holder_statistics"].fields) == 0.3;
    assert MarketScore(HighQualityData["market_data"].fields) == 1.0;
  }

  // ------------------------------------------------------------- collection

  const DefaultMaxTokens := 5
  const DefaultChains := [Ethereum, Bsc]

  /** The truthy token records of the given addresses, in order; `collect`
    * stands for `_collect_token_data`, which never raises and returns a
    * record or `None`. */
  function TokenResults(addresses: seq<string>, collect: (string, string) -> Option<map<string, Json>>): seq<map<string, Json>> {
    if |addresses| == 0 then []
    else
      var a := addresses[|addresses| - 1];
      var got := collect(a, IdentifyBlockchain(a));
      TokenResults(addresses[..|addresses| - 1], collect) + (if got.Some? && |got.value| > 0 then [got.value] else [])
  }

  /** `_collect_raw_data`: the given addresses, or the search's when none are
    * given, cut to `max_results`. */
  function CollectRaw(startupName: string, keywords: seq<string>, maxResults: int, given: seq<string>,
                      chains: seq<string>, collect: (string, string) -> Option<map<string, Json>>): seq<map<string, Json>> {
    var addresses := if |given| == 0 then SearchTokenAddresses(startupName, keywords, chains) else given;
    TokenResults(PySlice(addresses, maxResults), collect)
  }

  /** Each result is the non-empty record of one address, in order, and there
    * are no more results than addresses. */
  lemma {:induction false} TokenResultsShape(addresses: seq<string>, collect: (string, string) -> Option<map<string, Json>>)
    ensures |TokenResults(addresses, collect)| <= |addresses|
    ensures forall k :: 0 <= k < |TokenResults(addresses, collect)| ==> |TokenResults(addresses, collect)[k]| > 0
  {
    if |addresses| > 0 {
      TokenResultsShape(addresses[..|addresses| - 1], collect);
    }
  }

  /** For a non-negative `max_results` at most that many records come back,
    * and never more than the addresses given. */
  lemma CollectRawBound(startupName: string, keywords: seq<string>, maxResults: int, given: seq<string>,
                        chains: seq<string>, collect: (string, string) -> Option<map<string, Json>>)
    ensures maxResults >= 0 ==> |CollectRaw(startupName, keywords, maxResults, given, chains, collect)| <= maxResults
    ensures |CollectRaw(startupName, keywords, maxResults, given, chains, collect)| <= |given| || |given| == 0
  {
    var addresses := if |given| == 0 then SearchTokenAddresses(startupName, keywords, chains) else given;
    TokenResultsShape(PySlice(addresses, maxResults), collect);
  }

  /** `_collect_raw_data`: searches when no address is given, then collects the
    * first `max_results` addresses one by one and keeps the truthy records. */
  method CollectRawData(startupName: string, keywords: seq<string>, maxResults: int, given: seq<string>,
                        chains: seq<string>, collect: (string, string) -> Option<map<string, Json>>)
    returns (results: seq<map<string, Json>>)
    ensures results == CollectRaw(startupName, keywords, maxResults, given, chains, collect)
  {
    var addresses := given;
    if |addresses| == 0 {
      addresses := SearchForTokenAddresses(startupName, keywords, chains);
    }
    var todo := PySlice(addresses, maxResults);
    results := [];
    var i := 0;
    while i < |todo|
      invariant 0 <= i <= |todo|
      invariant results == TokenResults(todo[..i], collect)
    {
      assert todo[..i + 1][..i] == todo[..i];
      var chain := IdentifyBlockchain(todo[i]);
      var tokenData := collect(todo[i], chain);
      if tokenData.Some? && |tokenData.value| > 0 {
        results := results + [tokenData.value];
      }
      i := i + 1;
    }
    assert todo[..i] == todo;
  }
}
