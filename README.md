# Web page cache and access tracker, in Dafny

This project models the caching-and-counting policy of the web page tracker
in `0x02-redis_basic/web.py`. `get_page(url)` is wrapped by two decorators.
The outer one, `count_url_access`, increments the counter stored under
`count:<url>` and then calls the inner one. The inner one, `cache_result`,
reads `cached:<url>`. A truthy value there is returned, decoded, and the
page is not fetched. Otherwise it fetches the page, stores the text, gives
the key a 10-second expiry and returns the text.

The model has five modules:

- `Keys` (keys.dfy): the two key derivations, `count:` + url and
  `cached:` + url. It proves that each is injective and that the two
  namespaces never meet.
- `KeyValueStore` (store.dfy): the part of the store the tracker uses, as
  pure functions on maps. INCR works on a counter map and fails beyond the
  signed 64-bit maximum. GET, SET and EXPIRE work on a map of text entries,
  each with an optional expiry time. An entry reads as absent once the
  clock reaches its expiry time.
- `Web` (web.dfy): a `State` snapshot holding the counters, the page
  entries, the clock and the log of URLs handed to the network. It defines
  three step functions. `FetchStep` is the undecorated `get_page`,
  `CacheStep` is `cache_result` around it, and `ServeStep` is
  `count_url_access` around that. `Inv` is the invariant every call keeps.
  Each map holds only keys of its own namespace, every counter is in
  1..2^63-1, and no URL is fetched more often than it is accessed.
- `WebProperties` (properties.dfy): lemmas about one call and about
  sequences of calls.
- `Cache` (cache.dfy): class `WebCache`. Its fields are the counter map, the
  page map, the clock, the network log and the network itself (`origin`).
  Its methods `Incr`, `Get`, `Set` and `Expire` are the store operations.
  `Fetch`, `CacheResult`, `CountAccess` and `GetPage` run the same sequence
  of store operations as the Python wrappers. Each is proved equal to its
  step function (`FetchStep`, `CacheStep`, and `ServeStep` for both
  `CountAccess` and `GetPage`), and the store methods to the store functions. `GetPage` also states the properties outright.

The network is a parameter. `origin: (nat, string) -> Response` gives the
answer to the n-th request made so far, for any URL, given the URL asked
for: a page text, or a failure. Because the
answer depends on n, the page can change between fetches. The log
`fetched` records every request, so "a hit does not fetch" can be stated as
"the log is unchanged".

The empty cached value is kept as the source has it. An entry that exists
but holds `""` is falsy at `web.py:28`, so the call fetches again
(`EmptyCachedValueIsMiss`).

## Model

| member | source | states |
|---|---|---|
| `Keys.CountKey` | 0x02-redis_basic/web.py:16 | the counter key lies in the `count:` namespace and not in `cached:`, and the URL can be read back from it |
| `Keys.CachedKey` | 0x02-redis_basic/web.py:26 | the cached-page key lies in the `cached:` namespace and not in `count:`, and the URL can be read back from it |
| `Keys.CountKeyInjective` | 0x02-redis_basic/web.py:16 | two URLs share a counter key exactly when they are equal |
| `Keys.CachedKeyInjective` | 0x02-redis_basic/web.py:26 | two URLs share a cached-page key exactly when they are equal |
| `Keys.NamespacesDisjoint` | 0x02-redis_basic/web.py:16-26 | no counter key equals any cached-page key, for any two URLs |
| `Web.ServePreservesInv` | 0x02-redis_basic/web.py:15-34 | one call, whatever the network answers, keeps the invariant: namespaces kept apart, counters in 1..2^63-1, fetches of a URL never more than its accesses |
| `Web.AdvancePreservesInv` | 0x02-redis_basic/web.py:33 | the clock moving forward keeps the invariant |
| `WebProperties.ServeCounts` | 0x02-redis_basic/web.py:16-18 | every call raises the URL's counter by exactly one, hit or miss, and a first access creates it at 1; only a counter at the 64-bit maximum fails the call, leaving the state untouched |
| `WebProperties.ServeHit` | 0x02-redis_basic/web.py:27-29 | on a hit the call returns the stored text; cache, clock and network log are unchanged and only the counter moves |
| `WebProperties.ServeMiss` | 0x02-redis_basic/web.py:31-34 | on a miss the network is asked exactly once, for the same URL; a page is stored under `cached:<url>` with expiry now+10 and returned unchanged; a failed fetch leaves the cache as it was but keeps the counter increment |
| `WebProperties.EmptyCachedValueIsMiss` | 0x02-redis_basic/web.py:28 | a present but empty cached value sends the call to the network |
| `WebProperties.ServeLeavesOtherUrls` | 0x02-redis_basic/web.py:16-33 | a call for one URL leaves every other URL's counter, cache entry and fetch count as they were |
| `WebProperties.SecondCallWithinTtlHits` | 0x02-redis_basic/web.py:27-34 | after a miss that fetched a non-empty page, a second call less than 10 seconds later returns the same text with no new request, and the counter has gone up by two |
| `WebProperties.ExpiryForcesRefetch` | 0x02-redis_basic/web.py:31-33 | 10 or more seconds after a miss stored a page, the entry reads as absent, the counter has not expired, and the next call fetches again |
| `WebProperties.RunCountsEveryCall` | 0x02-redis_basic/web.py:38-39 | after any sequence of calls, each preceded by its own delay, each URL's counter has grown by the number of calls for that URL: counters never expire |
| `WebProperties.RunPreservesInv` | 0x02-redis_basic/web.py:38-43 | any sequence of calls, with the clock moving forward between them and entries expiring, keeps the invariant, so no URL is ever fetched more often than it was accessed |
| `WebProperties.TwoCallsScenario` | 0x02-redis_basic/web.py:38-43 | on an empty store, "http://a.test" answering "hello": the first call caches "hello" for 10 seconds with counter 1; the second returns "hello" with counter 2 and no second request |
| `WebProperties.FailedFetchScenario` | 0x02-redis_basic/web.py:17-33 | on an empty store, a failing fetch leaves the counter at 1 and no cache entry |
| `Cache.WebCache.constructor` | 0x02-redis_basic/web.py:9 | a fresh store with no keys and no requests satisfies the invariant |
| `Cache.WebCache.Tick` | 0x02-redis_basic/web.py:33 | time passes and nothing else changes; the invariant holds |
| `Cache.WebCache.Incr` | 0x02-redis_basic/web.py:17 | INCR returns the counter's new value (a missing counter counts as 0); at the 64-bit maximum it fails and leaves the counter alone |
| `Cache.WebCache.Get` | 0x02-redis_basic/web.py:27 | GET returns a value exactly when the key is present and not expired, and then it is the stored text |
| `Cache.WebCache.Set` | 0x02-redis_basic/web.py:32 | SET stores the text under the key with no expiry; other keys are unchanged |
| `Cache.WebCache.Expire` | 0x02-redis_basic/web.py:33 | EXPIRE gives a live key the expiry now + seconds and reports it found; a missing or expired key is left alone |
| `Cache.WebCache.Fetch` | 0x02-redis_basic/web.py:40-43 | exactly one request, for this URL, is logged, and the network's answer is returned |
| `Cache.WebCache.CacheResult` | 0x02-redis_basic/web.py:22-35 | GET first, so a live non-empty value comes back with no request and no write; otherwise exactly one request, and only a successful one is SET under `cached:<url>` and given expiry now+10; the counters and the clock are untouched (as `Web.CacheStep`) |
| `Cache.WebCache.CountAccess` | 0x02-redis_basic/web.py:12-19 | INCR of `count:<url>` comes first; if it fails the call fails with nothing changed, otherwise the caching wrapper runs on the bumped store (as `Web.ServeStep`); the invariant is kept |
| `Cache.WebCache.GetPage` | 0x02-redis_basic/web.py:38-43 | counter always +1 (or overflow error with nothing changed); a hit returns the stored text with cache and log unchanged; a miss makes one request for this URL and caches a page for 10 seconds; other URLs are untouched; the clock does not move |

## Left out

- The HTTP request `requests.get(url).text` (`web.py:42-43`) is not modelled. The network is the parameter `origin`, which may fail. Redirects, status codes and the response encoding are not modelled.
- The Redis client and the module-level `store = redis.Redis()` (`web.py:9`) are replaced by the fields of `WebCache`. The store never fails in the model: there are no connection errors, so the paths where GET, SET or EXPIRE raise are not modelled.
- The store keeps counters and page entries in two maps. In Redis they share one key space. The invariant keeps each map inside its own namespace, and `Keys.NamespacesDisjoint` shows the two key sets can never overlap. INCR on a key holding text (a Redis error) therefore cannot come up and is not modelled.
- Redis evicts expired keys by itself, on its own clock. Here the clock is the field `now`, moved by `Tick`. An expired entry stays in the map but reads as absent.
- The clock counts whole seconds, and an entry reads as absent from the moment its expiry time is reached (at now+10 exactly). Redis counts milliseconds and keeps a key until its expiry time has passed. Both agree that an entry is gone once 10 seconds or more have elapsed, which is what the lemmas use.
- `Cache.WebCache.Expire`: Redis deletes a key at once when EXPIRE gets a non-positive time. That case is not modelled, because the source only passes 10.
- The UTF-8 `.decode("utf-8")` of the stored bytes (`web.py:29`) is the identity here: stored values are strings.
- Concurrency is not modelled, including two simultaneous misses that both fetch and both write. Calls run one after another.
- `functools.wraps` (`web.py:14, 24`) only copies metadata and has no behaviour.
- The decorators accept any function. They are modelled at their one use: `CountAccess` wraps `CacheResult`, which wraps `Fetch`.
- `cache_result` catches nothing (`web.py:32-33`), so a SET or EXPIRE that raised after a successful fetch would lose the page. The modelled store never fails, so this path does not come up.
