# numbers: verified model of the `/numbers` aggregation endpoint

The service in `numbers/app.py` answers `GET /numbers?urls=…`. For each URL it
asks a shared cache (a `TTLCache` with `maxsize=100`, `ttl=500`) and, on a miss,
makes one HTTP GET with a 0.5-second timeout. A 200 response with a JSON object
body yields its `numbers` field, or `[]` when the field is absent, and that value
is cached. Any other status, a timeout or any other error yields `[]` and is not
cached. The per-URL results are appended in completion order, deduplicated through
a set, sorted ascending, and returned as `{"numbers": [...]}`.

This Dafny project models that core:

- `wrappers.dfy`, module `Wrappers`: `Option`, with `GetOr` playing the part of `dict.get(key, default)`.
- `aggregate.dfy`, module `Aggregate`: the merge in `get_numbers`. It has the
  `extend` loop (`MergeResults`), `list(set(...))` (`Dedup`, which picks the set's
  elements in an unspecified order) and `list.sort()` (`SortInPlace`, an in-place
  sort of an array). It also holds the lemmas that the output is strictly
  ascending, is exactly the union of the inputs, and does not depend on the order
  in which results arrive.
- `numbers.dfy`, module `Numbers`: the network outcome as an input datatype
  (`Response`, `Body`), the classification of outcomes into a payload or a failure
  kind (`Classify`), and the pure specification of one fetch (`FetchStep`) and of a
  run of fetches (`FetchAll`). It also holds the class `NumbersService`, whose field
  `cache` is the URL-keyed cache. Its methods are `GetNumbersFromUrl`,
  `get_numbers_from_url` proved equal to `FetchStep`, then `Evict` and
  `GetNumbers`.

Only a JSON object body is cached (`IsPayload`), and it is cached as `[]` when it
has no `numbers` field. A 200 body that is not JSON, or is JSON but not an
object, makes `response.json()` or `.get` raise. The `except Exception` at
numbers/app.py:30-32 then returns `[]` without writing the cache.

## Model

| member | source | states |
|---|---|---|
| `Numbers.FetchStep` | numbers/app.py:12-32 | A cache hit returns the stored list, even an empty one, with no request and no cache change. A miss makes exactly one request. It returns the `numbers` field of a 200 JSON-object body (`[]` if absent) and caches exactly that under the URL only. For any other status, timeout, error, non-JSON or non-object body it returns `[]` and leaves the cache unchanged |
| `Numbers.NumbersService.GetNumbersFromUrl` | numbers/app.py:12-32 | The returned list, the new cache and whether a request was made are exactly those of `FetchStep` on the old cache. The body checks the cache, then takes the path `Classify` gives the response: only a payload is written to the cache |
| `Numbers.FetchAgainHits` | numbers/app.py:13-15 | After a fetch, the URL is cached exactly when it was already cached or the response was a 200 object. In that case a second fetch makes no request and returns the same list, whatever the source now answers |
| `Numbers.Classify` | numbers/app.py:17-32 | A miss ends in exactly one of four paths, each an if-and-only-if. A payload comes from status 200 with an object body, and its numbers are that body's `numbers` or `[]` (:19-23). A non-200 status takes the path at :25-26, which logs nothing, and keeps its code. A timeout takes the path at :27-28, which logs. Any other exception takes the path at :30-32, which logs; the kind says which: a transport error, a 200 body that is not JSON, or a 200 body that is not an object |
| `Numbers.FetchAll` | numbers/app.py:39-42 | Fetching each URL occurrence once, with the cache free to drop entries before each fetch, gives one result per occurrence and at most one request per occurrence |
| `Numbers.FetchAllCacheContents` | numbers/app.py:13-32 | After a run, a URL is cached exactly when it was cached at the start and never expired, or some fetch of it got a 200 object and it did not expire afterwards. Its value is its starting entry or the payload of one of the run's fetches of it |
| `Numbers.FetchAllKeepsCache` | numbers/app.py:13-22 | An entry that does not expire during the run keeps its value |
| `Numbers.FetchAllHits` | numbers/app.py:13-15 | An occurrence of a URL that was cached at the start and had not expired by the time of its fetch is answered with the cached value |
| `Numbers.FetchAllCachedNoRequests` | numbers/app.py:13-15 | When every URL is cached and none expires before its fetch, the run makes no network request and adds or changes no entry |
| `Numbers.FetchAllFirstMiss` | numbers/app.py:17-32 | The first occurrence of a URL that is not cached when it is fetched (never cached, or expired before that fetch) gets the 200 object payload (`[]` when `numbers` is absent). Any other status, a timeout or any other error gives `[]` |
| `Numbers.FetchAllResultsExplained` | numbers/app.py:13-32 | Every result is one of three things: what its own response contributes; the URL's entry at the start; or the payload of an earlier fetch of the same URL in the run |
| `Numbers.NumbersService.constructor` | numbers/app.py:10 | The cache starts empty |
| `Numbers.NumbersService.Evict` | numbers/app.py:10 | Expiry or eviction removes exactly the given keys. The other entries keep their values |
| `Numbers.NumbersService.GetNumbers` | numbers/app.py:36-46 | The given keys expire before each fetch. Then, for any completion order of the fetched results, the new cache is that of the run of fetches. The number of network requests is that of the run. The answer is strictly ascending and holds exactly the union of the per-URL results. An empty URL list gives `[]`, makes no request and leaves the cache unchanged |
| `Aggregate.MergeResults` | numbers/app.py:36-46 | The merged list is strictly ascending and has exactly the union of the per-URL results as its values. It is empty exactly when every result is empty |
| `Aggregate.FlattenElements` | numbers/app.py:36-43 | Extending `all_numbers` with each result in turn loses no value and adds none: its values are the union of the results |
| `Aggregate.Dedup` | numbers/app.py:45 | `list(set(all_numbers))` has the same values as `all_numbers`, each exactly once |
| `Aggregate.SortInPlace` | numbers/app.py:46 | After the sort the list is ascending and is a permutation of the list before it |
| `Aggregate.SortedNoRepeatsIsStrict` | numbers/app.py:45-46 | A sorted list without repeated values is strictly ascending |
| `Aggregate.UnionIgnoresOrder` | numbers/app.py:40-43 | Results that arrive in a different order (a permutation) have the same union |
| `Aggregate.StrictlyIncreasingUnique` | numbers/app.py:45-46 | Two strictly ascending lists with the same values are equal |
| `Aggregate.MergeOrderIndependent` | numbers/app.py:38-46 | Two merged answers for any two arrival orders of the same results are equal |
| `Aggregate.MergeExample` | numbers/app.py:36-46 | Sources answering `[1, 2]` and `[2, 3]` merge into exactly `[1, 2, 3]` |

## Left out

- The HTTP call `requests.get` and JSON decoding (numbers/app.py:18, 20) are outside the model. They are replaced by a `Response` value passed in for each fetch.
- A `numbers` field that is not a list of integers is not modelled; the model assumes `seq<int>`. In Python such a value is cached and returned. A cached `null` reads back as `None` and is a miss at numbers/app.py:14. For `null` or a number, `all_numbers.extend(...)` at numbers/app.py:43 raises `TypeError` outside any `try`, so the whole request fails.
- The TTL expiry and the `maxsize` eviction of `TTLCache` (numbers/app.py:10) are not modelled as such. Their policy lives in a library and depends on a clock. Instead, any set of entries may leave the cache: between calls through `Evict`, and within one `GetNumbers` run before each fetch (`expired`). No eviction order is assumed, and the bound of 100 entries is not enforced.
- Numbers.NumbersService.GetNumbers: does not model the thread pool (numbers/app.py:38-42). Fetches run one after the other in URL order, which is one schedule the pool allows. Schedules in which two occurrences of the same URL both miss the cache, and concurrent cache access, are not covered. The order in which results complete is an input (`completion`).
- The logging `print` calls on the error paths (numbers/app.py:28, 31) are I/O with no effect on results.
- FastAPI routing, `Query` parsing and response serialisation (numbers/app.py:1, 8, 34-35, 48-49) are framework plumbing.
- Aggregate.SortInPlace: `list.sort()` is a library routine whose algorithm does not appear in the source. The model sorts by insertion and states only what the source relies on: sorted order and a permutation.
