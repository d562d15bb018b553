// The capped collection loop several collectors share: process each URL in
// turn, keep what succeeds, and stop as soon as `max_results` records are
// held (whitepaper_processor.py and pitch_deck_parser.py `_collect_raw_data`).

module Gathering {
  import opened Values

  /** The records `process` yields for `urls`, appended to `acc`, stopping
    * right after the append that reaches `maxResults`. */
  function Gather<T>(acc: seq<T>, urls: seq<string>, process: string -> Option<T>, maxResults: int): seq<T>
    decreases |urls|
  {
    if |urls| == 0 then acc
    else match process(urls[0])
      case None => Gather(acc, urls[1..], process, maxResults)
      case Some(d) =>
        if |acc| + 1 >= maxResults then acc + [d] else Gather(acc + [d], urls[1..], process, maxResults)
  }

  /** The loop `for url in urls: data = process(url); if data: append; if
    * len(results) >= max_results: break`. */
  method GatherAll<T>(acc: seq<T>, urls: seq<string>, process: string -> Option<T>, maxResults: int)
    returns (results: seq<T>)
    ensures results == Gather(acc, urls, process, maxResults)
  {
    results := acc;
    var i := 0;
    while i < |urls|
      invariant 0 <= i <= |urls|
      invariant Gather(results, urls[i..], process, maxResults) == Gather(acc, urls, process, maxResults)
    {
      assert urls[i..][0] == urls[i] && urls[i..][1..] == urls[i + 1..];
      var data := process(urls[i]);
      if data.Some? {
        results := results + [data.value];
        if |results| >= maxResults {
          break;
        }
      }
      i := i + 1;
    }
  }

  /** The loop keeps what it had and takes at most one record per URL. */
  lemma {:induction false} GatherExtends<T>(acc: seq<T>, urls: seq<string>, process: string -> Option<T>, maxResults: int)
    ensures var g := Gather(acc, urls, process, maxResults);
      |acc| <= |g| <= |acc| + |urls| && g[..|acc|] == acc
    decreases |urls|
  {
    if |urls| > 0 {
      match process(urls[0])
      case None => GatherExtends(acc, urls[1..], process, maxResults);
      case Some(d) =>
        if |acc| + 1 < maxResults {
          GatherExtends(acc + [d], urls[1..], process, maxResults);
          var g := Gather(acc + [d], urls[1..], process, maxResults);
          assert g[..|acc|] == g[..|acc| + 1][..|acc|];
        }
    }
  }

  /** The record at position `k` that the loop added is what `process` yields
    * for one of the URLs. */
  lemma {:induction false} GatherFromAt<T>(acc: seq<T>, urls: seq<string>, process: string -> Option<T>, maxResults: int, k: int)
    requires |acc| <= k < |Gather(acc, urls, process, maxResults)|
    ensures exists j :: 0 <= j < |urls| && process(urls[j]) == Some(Gather(acc, urls, process, maxResults)[k])
    decreases |urls|
  {
    if |urls| > 0 {
      var g := Gather(acc, urls, process, maxResults);
      match process(urls[0])
      case None =>
        var rest := Gather(acc, urls[1..], process, maxResults);
        assert g == rest;
        GatherFromAt(acc, urls[1..], process, maxResults, k);
        var j :| 0 <= j < |urls[1..]| && process(urls[1..][j]) == Some(rest[k]);
        assert urls[1..][j] == urls[j + 1];
      case Some(d) =>
        if |acc| + 1 < maxResults {
          var rest := Gather(acc + [d], urls[1..], process, maxResults);
          assert g == rest;
          if k == |acc| {
            GatherExtends(acc + [d], urls[1..], process, maxResults);
            assert rest[k] == rest[..|acc| + 1][k] == d;
            assert process(urls[0]) == Some(g[k]);
          } else {
            GatherFromAt(acc + [d], urls[1..], process, maxResults, k);
            var j :| 0 <= j < |urls[1..]| && process(urls[1..][j]) == Some(rest[k]);
            assert urls[1..][j] == urls[j + 1];
          }
        } else {
          assert process(urls[0]) == Some(g[|acc|]);
        }
    }
  }

  /** Every record the loop adds is what `process` yields for one of the URLs. */
  lemma GatherFrom<T>(acc: seq<T>, urls: seq<string>, process: string -> Option<T>, maxResults: int)
    ensures var g := Gather(acc, urls, process, maxResults);
      forall k :: |acc| <= k < |g| ==> exists j :: 0 <= j < |urls| && process(urls[j]) == Some(g[k])
  {
    var g := Gather(acc, urls, process, maxResults);
    forall k | |acc| <= k < |g| ensures exists j :: 0 <= j < |urls| && process(urls[j]) == Some(g[k]) {
      GatherFromAt(acc, urls, process, maxResults, k);
    }
  }

  /** Starting below the cap, the loop never goes over it. */
  lemma {:induction false} GatherCapped<T>(acc: seq<T>, urls: seq<string>, process: string -> Option<T>, maxResults: int)
    requires |acc| < maxResults
    ensures |Gather(acc, urls, process, maxResults)| <= maxResults
    decreases |urls|
  {
    if |urls| > 0 {
      match process(urls[0])
      case None => GatherCapped(acc, urls[1..], process, maxResults);
      case Some(d) =>
        if |acc| + 1 < maxResults {
          GatherCapped(acc + [d], urls[1..], process, maxResults);
        }
    }
  }

  /** At or over the cap, the loop stops after its first record. */
  lemma {:induction false} GatherOverCap<T>(acc: seq<T>, urls: seq<string>, process: string -> Option<T>, maxResults: int)
    requires maxResults <= |acc| + 1
    ensures |Gather(acc, urls, process, maxResults)| <= |acc| + 1
    decreases |urls|
  {
    if |urls| > 0 && process(urls[0]).None? {
      GatherOverCap(acc, urls[1..], process, maxResults);
    }
  }

  /** When no URL yields a record, the loop adds nothing. */
  lemma {:induction false} GatherNothing<T>(acc: seq<T>, urls: seq<string>, process: string -> Option<T>, maxResults: int)
    requires forall u :: process(u).None?
    ensures Gather(acc, urls, process, maxResults) == acc
    decreases |urls|
  {
    if |urls| > 0 {
      assert process(urls[0]).None?;
      GatherNothing(acc, urls[1..], process, maxResults);
    }
  }
}
