/**
 * The `/numbers` service of numbers/app.py: a URL-keyed cache, the per-URL
 * fetch `get_numbers_from_url`, and `get_numbers`, which fetches every URL and
 * merges the results.
 *
 * The network is not modelled: each `GET url` (timeout 0.5 s) is replaced by
 * the Response it would produce, passed in by the caller.
 */
module Numbers {
  import opened Wrappers
  import opened Aggregate

  /** What the body of a status-200 response turns out to be. */
  datatype Body =
    | NotJson                           // `response.json()` raises
    | NotObject                         // valid JSON but not an object, so `.get` raises
    | Object(numbers: Option<seq<int>>) // a JSON object, with or without a `numbers` field

  /** The outcome of one `requests.get(url, timeout=0.5)`. */
  datatype Response =
    | Timeout                           // `requests.Timeout`
    | TransportError                    // any other exception raised by the call
    | Status(code: int, body: Body)     // a response arrived

  /** The failure kinds that `get_numbers_from_url` collapses into `[]`. */
  datatype Failure = Transport | BodyNotJson | BodyNotObject

  /** One classified fetch: a payload worth caching, or why there is none. */
  datatype Outcome =
    | Payload(numbers: seq<int>)
    | BadStatus(code: int)
    | TimedOut
    | Failed(failure: Failure)

  /** A response whose payload is returned and cached: status 200 with a JSON object body. */
  predicate IsPayload(response: Response) {
    response.Status? && response.code == 200 && response.body.Object?
  }

  /** What a response contributes on a cache miss. */
  function Contribution(response: Response): seq<int> {
    if IsPayload(response) then response.body.numbers.GetOr([]) else []
  }

  /**
   * The path `get_numbers_from_url` takes on a cache miss: a payload (status
   * 200, object body), a non-200 status (`[]`, nothing logged), a timeout
   * (logged as a timeout), or any other exception, which includes a 200 body
   * that is not JSON or not an object (logged as an error).
   */
  function Classify(response: Response): (o: Outcome)
    ensures o.Payload? <==> IsPayload(response)
    ensures o.Payload? ==> o.numbers == Contribution(response)
    ensures o.BadStatus? <==> response.Status? && response.code != 200
    ensures o.BadStatus? ==> o.code == response.code
    ensures o.TimedOut? <==> response.Timeout?
    ensures o == Failed(Transport) <==> response.TransportError?
    ensures o == Failed(BodyNotJson) <==> response.Status? && response.code == 200 && response.body.NotJson?
    ensures o == Failed(BodyNotObject) <==> response.Status? && response.code == 200 && response.body.NotObject?
  {
    match response
    case Timeout => TimedOut
    case TransportError => Failed(Transport)
    case Status(code, body) =>
      if code != 200 then BadStatus(code)
      else
        match body
        case NotJson => Failed(BodyNotJson)
        case NotObject => Failed(BodyNotObject)
        case Object(field) => Payload(field.GetOr([]))
  }

  /** The result of one fetch: the numbers returned, the cache afterwards, and whether the network was used. */
  datatype Step = Step(numbers: seq<int>, cache: map<string, seq<int>>, requested: bool)

  /**
   * One call of `get_numbers_from_url(url)` against `cache`. A hit, even on
   * an empty list, returns the entry and neither requests nor writes. A miss
   * requests once; only a 200 response with a JSON object body is cached, and
   * every other outcome returns [] and leaves the cache alone.
   */
  function FetchStep(cache: map<string, seq<int>>, url: string, response: Response): (step: Step)
    ensures url in cache ==> step == Step(cache[url], cache, false)
    ensures url !in cache ==> step.requested
    ensures url !in cache ==> step.numbers == Contribution(response)
    ensures url !in cache && IsPayload(response) ==> step.cache == cache[url := step.numbers]
    ensures url !in cache && !IsPayload(response) ==> step.numbers == [] && step.cache == cache
  {
    if url in cache then Step(cache[url], cache, false)
    else
      match Classify(response)
      case Payload(numbers) => Step(numbers, cache[url := numbers], true)
      case _ => Step([], cache, true)
  }

  /**
   * After a fetch that left `url` cached, a second fetch of `url` is a hit:
   * no request, the same numbers, whatever the source would answer now.
   */
  lemma FetchAgainHits(cache: map<string, seq<int>>, url: string, first: Response, second: Response)
    ensures url in FetchStep(cache, url, first).cache <==> url in cache || IsPayload(first)
    ensures var s := FetchStep(cache, url, first);
      url in s.cache ==> FetchStep(s.cache, url, second) == Step(s.numbers, s.cache, false)
  {
  }

  /** The per-URL results, the cache afterwards and the number of requests of a run of fetches. */
  datatype Run = Run(results: seq<seq<int>>, cache: map<string, seq<int>>, requests: nat)

  /** `url` is in none of the key sets `expired[lo..hi]`. */
  predicate Unexpired(url: string, expired: seq<set<string>>, lo: nat, hi: nat)
    requires hi <= |expired|
  {
    forall j :: lo <= j < hi ==> url !in expired[j]
  }

  /**
   * The first `n` fetches of a request, one after the other, starting from
   * `cache`: just before fetch `i` the cache drops the keys `expired[i]`
   * (time-to-live expiry or size eviction), then `urls[i]` is fetched, a miss
   * getting `responses[i]`.
   */
  function FetchAll(cache: map<string, seq<int>>, urls: seq<string>, responses: seq<Response>,
                    expired: seq<set<string>>, n: nat): (run: Run)
    requires |responses| == |urls| == |expired| && n <= |urls|
    ensures |run.results| == n
    ensures run.requests <= n
  {
    if n == 0 then Run([], cache, 0)
    else
      var prior := FetchAll(cache, urls, responses, expired, n - 1);
      var step := FetchStep(prior.cache - expired[n - 1], urls[n - 1], responses[n - 1]);
      Run(prior.results + [step.numbers], step.cache, prior.requests + if step.requested then 1 else 0)
  }

  /**
   * `url` is cached after the first `n` fetches: it was cached at the start
   * and never expired, or some fetch `i` got a 200 object response for it and
   * it did not expire after that fetch.
   */
  predicate CachedAfter(cache: map<string, seq<int>>, urls: seq<string>, responses: seq<Response>,
                        expired: seq<set<string>>, n: nat, url: string)
    requires |responses| == |urls| == |expired| && n <= |urls|
  {
    || (url in cache && Unexpired(url, expired, 0, n))
    || exists i :: 0 <= i < n && urls[i] == url && IsPayload(responses[i]) && Unexpired(url, expired, i + 1, n)
  }

  /**
   * `value` is what the cache can hold for `url` after the first `n` fetches:
   * its entry at the start, or the payload of one of those fetches of `url`.
   */
  predicate ComesFrom(cache: map<string, seq<int>>, urls: seq<string>, responses: seq<Response>,
                      n: nat, url: string, value: seq<int>)
    requires |responses| == |urls| && n <= |urls|
  {
    || (url in cache && value == cache[url])
    || exists i :: 0 <= i < n && urls[i] == url && IsPayload(responses[i]) && value == Contribution(responses[i])
  }

  lemma CachedAfterStep(cache: map<string, seq<int>>, urls: seq<string>, responses: seq<Response>,
                        expired: seq<set<string>>, m: nat, url: string)
    requires |responses| == |urls| == |expired| && m < |urls|
    ensures CachedAfter(cache, urls, responses, expired, m + 1, url) <==>
      || (CachedAfter(cache, urls, responses, expired, m, url) && url !in expired[m])
      || (url == urls[m] && IsPayload(responses[m]))
  {
    var n := m + 1;
    if CachedAfter(cache, urls, responses, expired, n, url) && !(url == urls[m] && IsPayload(responses[m])) {
      assert url !in expired[m];
      if !(url in cache && Unexpired(url, expired, 0, n)) {
        var i :| 0 <= i < n && urls[i] == url && IsPayload(responses[i]) && Unexpired(url, expired, i + 1, n);
        assert i < m;
      }
    }
    if CachedAfter(cache, urls, responses, expired, m, url) && url !in expired[m] {
      if !(url in cache && Unexpired(url, expired, 0, m)) {
        var i :| 0 <= i < m && urls[i] == url && IsPayload(responses[i]) && Unexpired(url, expired, i + 1, m);
        assert Unexpired(url, expired, i + 1, n);
      }
    }
    if url == urls[m] && IsPayload(responses[m]) {
      assert Unexpired(url, expired, n, n);
    }
  }

  /** What one fetch does to a single cache key, and what it returns. */
  lemma FetchStepAt(before: map<string, seq<int>>, fetched: string, response: Response, url: string)
    ensures var step := FetchStep(before, fetched, response);
      && (url in step.cache <==> url in before || (url == fetched && IsPayload(response)))
      && (url in step.cache ==> step.cache[url] == if url in before then before[url] else Contribution(response))
      && step.numbers == if fetched in before then before[fetched] else Contribution(response)
  {
  }

  lemma ComesFromGrow(cache: map<string, seq<int>>, urls: seq<string>, responses: seq<Response>,
                      m: nat, n: nat, url: string, value: seq<int>)
    requires |responses| == |urls| && m <= n <= |urls|
    requires ComesFrom(cache, urls, responses, m, url, value)
    ensures ComesFrom(cache, urls, responses, n, url, value)
  {
    if !(url in cache && value == cache[url]) {
      var i :| 0 <= i < m && urls[i] == url && IsPayload(responses[i]) && value == Contribution(responses[i]);
      assert i < n;
    }
  }

  /**
   * What a run of fetches leaves in the cache: exactly the URLs that were
   * cached and never expired, or were answered with a 200 object and did not
   * expire afterwards; each holds its value from the start or the payload of
   * one of the run's fetches of it.
   */
  lemma {:induction false} FetchAllCacheContents(cache: map<string, seq<int>>, urls: seq<string>, responses: seq<Response>,
                                                 expired: seq<set<string>>, n: nat)
    requires |responses| == |urls| == |expired| && n <= |urls|
    ensures var run := FetchAll(cache, urls, responses, expired, n);
      forall url :: url in run.cache <==> CachedAfter(cache, urls, responses, expired, n, url)
    ensures var run := FetchAll(cache, urls, responses, expired, n);
      forall url :: url in run.cache ==> ComesFrom(cache, urls, responses, n, url, run.cache[url])
  {
    if n > 0 {
      var m := n - 1;
      FetchAllCacheContents(cache, urls, responses, expired, m);
      assert var r := FetchAll(cache, urls, responses, expired, m);
        forall url :: url in r.cache ==> ComesFrom(cache, urls, responses, m, url, r.cache[url]);
      var prior := FetchAll(cache, urls, responses, expired, m);
      var before := prior.cache - expired[m];
      var after := FetchStep(before, urls[m], responses[m]).cache;
      assert FetchAll(cache, urls, responses, expired, n).cache == after;
      forall url ensures url in after <==> CachedAfter(cache, urls, responses, expired, n, url) {
        assert url in prior.cache <==> CachedAfter(cache, urls, responses, expired, m, url);
        FetchStepAt(before, urls[m], responses[m], url);
        CachedAfterStep(cache, urls, responses, expired, m, url);
      }
      forall url | url in after ensures ComesFrom(cache, urls, responses, n, url, after[url]) {
        FetchStepAt(before, urls[m], responses[m], url);
        if url in before {
          assert ComesFrom(cache, urls, responses, m, url, prior.cache[url]);
          ComesFromGrow(cache, urls, responses, m, n, url, after[url]);
        } else {
          assert urls[m] == url && IsPayload(responses[m]) && after[url] == Contribution(responses[m]);
        }
      }
    }
  }

  /** An entry that does not expire during the run is never changed or dropped. */
  lemma {:induction false} FetchAllKeepsCache(cache: map<string, seq<int>>, urls: seq<string>, responses: seq<Response>,
                                              expired: seq<set<string>>, n: nat)
    requires |responses| == |urls| == |expired| && n <= |urls|
    ensures var run := FetchAll(cache, urls, responses, expired, n);
      forall url :: url in cache && Unexpired(url, expired, 0, n) ==> url in run.cache && run.cache[url] == cache[url]
  {
    if n > 0 {
      var m := n - 1;
      FetchAllKeepsCache(cache, urls, responses, expired, m);
      var prior := FetchAll(cache, urls, responses, expired, m);
      var before := prior.cache - expired[m];
      var after := FetchStep(before, urls[m], responses[m]).cache;
      assert FetchAll(cache, urls, responses, expired, n).cache == after;
      forall url | url in cache && Unexpired(url, expired, 0, n) ensures url in after && after[url] == cache[url] {
        assert Unexpired(url, expired, 0, m) && url !in expired[m];
        FetchStepAt(before, urls[m], responses[m], url);
      }
    }
  }

  /** A URL cached at the start and not expired by the time of its fetch is answered from the cache. */
  lemma {:induction false} FetchAllHits(cache: map<string, seq<int>>, urls: seq<string>, responses: seq<Response>,
                                        expired: seq<set<string>>, n: nat)
    requires |responses| == |urls| == |expired| && n <= |urls|
    ensures var run := FetchAll(cache, urls, responses, expired, n);
      forall i :: 0 <= i < n && urls[i] in cache && Unexpired(urls[i], expired, 0, i + 1) ==>
        run.results[i] == cache[urls[i]]
  {
    if n > 0 {
      var m := n - 1;
      FetchAllHits(cache, urls, responses, expired, m);
      FetchAllKeepsCache(cache, urls, responses, expired, m);
      var prior := FetchAll(cache, urls, responses, expired, m);
      var before := prior.cache - expired[m];
      var run := FetchAll(cache, urls, responses, expired, n);
      assert run.results == prior.results + [FetchStep(before, urls[m], responses[m]).numbers];
      forall i | 0 <= i < n && urls[i] in cache && Unexpired(urls[i], expired, 0, i + 1)
        ensures run.results[i] == cache[urls[i]]
      {
        if i < m {
          assert run.results[i] == prior.results[i];
        } else {
          assert Unexpired(urls[m], expired, 0, m) && urls[m] !in expired[m];
          FetchStepAt(before, urls[m], responses[m], urls[m]);
        }
      }
    }
  }

  /**
   * When every URL is cached and not expired by the time of its fetch, the
   * run makes no request and adds or changes no entry.
   */
  lemma {:induction false} FetchAllCachedNoRequests(cache: map<string, seq<int>>, urls: seq<string>, responses: seq<Response>,
                                                    expired: seq<set<string>>, n: nat)
    requires |responses| == |urls| == |expired| && n <= |urls|
    requires forall i :: 0 <= i < n ==> urls[i] in cache && Unexpired(urls[i], expired, 0, i + 1)
    ensures FetchAll(cache, urls, responses, expired, n).requests == 0
    ensures var run := FetchAll(cache, urls, responses, expired, n);
      forall url :: url in run.cache ==> url in cache && run.cache[url] == cache[url]
  {
    if n > 0 {
      var m := n - 1;
      FetchAllCachedNoRequests(cache, urls, responses, expired, m);
      FetchAllKeepsCache(cache, urls, responses, expired, m);
      var prior := FetchAll(cache, urls, responses, expired, m);
      var before := prior.cache - expired[m];
      assert Unexpired(urls[m], expired, 0, m) && urls[m] !in expired[m];
      assert urls[m] in before;
      assert FetchStep(before, urls[m], responses[m]) == Step(before[urls[m]], before, false);
    }
  }

  /** A fetch of a URL that was not cached at the start and not fetched before in the run is a miss. */
  lemma FetchAllFreshMiss(cache: map<string, seq<int>>, urls: seq<string>, responses: seq<Response>,
                          expired: seq<set<string>>, m: nat)
    requires |responses| == |urls| == |expired| && m < |urls|
    requires !(urls[m] in cache && Unexpired(urls[m], expired, 0, m + 1))
    requires forall k :: 0 <= k < m ==> urls[k] != urls[m]
    ensures FetchAll(cache, urls, responses, expired, m + 1).results[m] == Contribution(responses[m])
  {
    FetchAllCacheContents(cache, urls, responses, expired, m);
    var prior := FetchAll(cache, urls, responses, expired, m);
    var url := urls[m];
    assert url in prior.cache ==> CachedAfter(cache, urls, responses, expired, m, url);
    assert CachedAfter(cache, urls, responses, expired, m, url) ==> url in cache && Unexpired(url, expired, 0, m);
    assert Unexpired(url, expired, 0, m) && url !in expired[m] ==> Unexpired(url, expired, 0, m + 1);
    assert url !in prior.cache - expired[m];
    FetchStepAt(prior.cache - expired[m], urls[m], responses[m], urls[m]);
  }

  /**
   * The first occurrence of a URL that is not cached when it is fetched (never
   * cached, or expired before that fetch) gets what its response contributes:
   * the payload of a 200 object body, [] for any other status, a timeout or
   * any other error.
   */
  lemma {:induction false} FetchAllFirstMiss(cache: map<string, seq<int>>, urls: seq<string>, responses: seq<Response>,
                                             expired: seq<set<string>>, n: nat)
    requires |responses| == |urls| == |expired| && n <= |urls|
    ensures var run := FetchAll(cache, urls, responses, expired, n);
      forall i :: 0 <= i < n && !(urls[i] in cache && Unexpired(urls[i], expired, 0, i + 1)) && urls[i] !in urls[..i] ==>
        run.results[i] == Contribution(responses[i])
  {
    if n > 0 {
      var m := n - 1;
      FetchAllFirstMiss(cache, urls, responses, expired, m);
      var prior := FetchAll(cache, urls, responses, expired, m);
      var run := FetchAll(cache, urls, responses, expired, n);
      assert run.results[..m] == prior.results;
      forall i | 0 <= i < n && !(urls[i] in cache && Unexpired(urls[i], expired, 0, i + 1)) && urls[i] !in urls[..i]
        ensures run.results[i] == Contribution(responses[i])
      {
        if i < m {
          assert run.results[i] == prior.results[i];
        } else {
          forall k | 0 <= k < m ensures urls[k] != urls[m] {
            assert urls[..m][k] == urls[k];
          }
          FetchAllFreshMiss(cache, urls, responses, expired, m);
        }
      }
    }
  }

  lemma ResultExplainedAt(cache: map<string, seq<int>>, urls: seq<string>, responses: seq<Response>,
                          expired: seq<set<string>>, m: nat)
    requires |responses| == |urls| == |expired| && m < |urls|
    ensures var result := FetchAll(cache, urls, responses, expired, m + 1).results[m];
      result == Contribution(responses[m]) || ComesFrom(cache, urls, responses, m, urls[m], result)
  {
    FetchAllCacheContents(cache, urls, responses, expired, m);
    var prior := FetchAll(cache, urls, responses, expired, m);
    var before := prior.cache - expired[m];
    FetchStepAt(before, urls[m], responses[m], urls[m]);
    assert FetchAll(cache, urls, responses, expired, m + 1).results[m] == FetchStep(before, urls[m], responses[m]).numbers;
    if urls[m] in before {
      assert var r := FetchAll(cache, urls, responses, expired, m);
        urls[m] in r.cache ==> ComesFrom(cache, urls, responses, m, urls[m], r.cache[urls[m]]);
    }
  }

  /**
   * Every result is accounted for: it is what its own response contributes,
   * or the URL's entry at the start, or the payload of an earlier fetch of
   * the same URL in this run.
   */
  lemma {:induction false} FetchAllResultsExplained(cache: map<string, seq<int>>, urls: seq<string>, responses: seq<Response>,
                                                    expired: seq<set<string>>, n: nat)
    requires |responses| == |urls| == |expired| && n <= |urls|
    ensures var run := FetchAll(cache, urls, responses, expired, n);
      forall i :: 0 <= i < n ==>
        run.results[i] == Contribution(responses[i]) || ComesFrom(cache, urls, responses, i, urls[i], run.results[i])
  {
    if n > 0 {
      var m := n - 1;
      FetchAllResultsExplained(cache, urls, responses, expired, m);
      ResultExplainedAt(cache, urls, responses, expired, m);
      var prior := FetchAll(cache, urls, responses, expired, m);
      var run := FetchAll(cache, urls, responses, expired, n);
      assert run.results[..m] == prior.results;
      forall i | 0 <= i < m
        ensures run.results[i] == Contribution(responses[i]) || ComesFrom(cache, urls, responses, i, urls[i], run.results[i])
      {
        assert run.results[i] == prior.results[i];
      }
    }
  }

  /** Taking the results in completion order keeps the same results. */
  lemma ArrivalKeepsMembers(results: seq<seq<int>>, completion: seq<nat>, arrived: seq<seq<int>>)
    requires |completion| == |results| == |arrived|
    requires forall i :: 0 <= i < |results| ==> i in completion
    requires forall k :: 0 <= k < |completion| ==> completion[k] < |results| && arrived[k] == results[completion[k]]
    ensures forall s :: s in arrived <==> s in results
  {
    forall s | s in results ensures s in arrived {
      var i :| 0 <= i < |results| && results[i] == s;
      assert i in completion;
      var k :| 0 <= k < |completion| && completion[k] == i;
      assert arrived[k] == s;
    }
  }

  /** The process-wide state of the service: the URL-keyed cache. */
  class NumbersService {
    var cache: map<string, seq<int>>

    /** The cache starts empty. */
    constructor ()
      ensures cache == map[]
    {
      cache := map[];
    }

    /** `get_numbers_from_url(url)`, where `response` is what `GET url` would produce. */
    method GetNumbersFromUrl(url: string, response: Response) returns (numbers: seq<int>, requested: bool)
      modifies this
      ensures Step(numbers, cache, requested) == FetchStep(old(cache), url, response)
    {
      if url in cache {
        return cache[url], false;
      }
      requested := true;
      match Classify(response)
      case Payload(found) =>
        numbers := found;
        cache := cache[url := numbers];
      case BadStatus(_) =>
        numbers := [];
      case TimedOut =>
        numbers := [];
      case Failed(_) =>
        numbers := [];
    }

    /**
     * Entries leaving the cache between calls (time-to-live expiry or size
     * eviction); which ones is up to the caller. The others keep their values.
     */
    method Evict(expired: set<string>)
      modifies this
      ensures cache.Keys == old(cache).Keys - expired
      ensures forall url :: url in cache ==> cache[url] == old(cache)[url]
    {
      cache := cache - expired;
    }

    /**
     * `get_numbers(urls)`: fetch every URL occurrence, one after the other
     * (`responses[i]` is what `GET urls[i]` would produce, and the keys
     * `expired[i]` leave the cache just before that fetch), take the results in
     * the order `completion` in which they complete, and merge them;
     * `requests` counts the fetches that went to the network.
     */
    method GetNumbers(urls: seq<string>, responses: seq<Response>, expired: seq<set<string>>, completion: seq<nat>)
      returns (numbers: seq<int>, requests: nat)
      requires |responses| == |urls| && |expired| == |urls| && |completion| == |urls|
      requires forall k :: 0 <= k < |completion| ==> completion[k] < |urls|
      requires forall i :: 0 <= i < |urls| ==> i in completion
      modifies this
      ensures cache == FetchAll(old(cache), urls, responses, expired, |urls|).cache
      ensures requests == FetchAll(old(cache), urls, responses, expired, |urls|).requests
      ensures StrictlyIncreasing(numbers)
      ensures Elements(numbers) == UnionOf(FetchAll(old(cache), urls, responses, expired, |urls|).results)
      ensures urls == [] ==> numbers == [] && cache == old(cache) && requests == 0
    {
      var results: seq<seq<int>> := [];
      requests := 0;
      for i := 0 to |urls|
        invariant FetchAll(old(cache), urls, responses, expired, i).results == results
        invariant FetchAll(old(cache), urls, responses, expired, i).cache == cache
        invariant FetchAll(old(cache), urls, responses, expired, i).requests == requests
      {
        Evict(expired[i]);
        var found, requested := GetNumbersFromUrl(urls[i], responses[i]);
        results := results + [found];
        if requested {
          requests := requests + 1;
        }
      }

      var arrived := seq(|urls|, k requires 0 <= k < |urls| => results[completion[k]]);
      numbers := MergeResults(arrived);

      ArrivalKeepsMembers(results, completion, arrived);
      UnionOfSameMembers(arrived, results);
    }
  }
}
