/** The caching-and-counting policy of the web page tracker, as functions on
    a snapshot of the store, the clock and the network log. `FetchStep` is
    the undecorated page fetch, `CacheStep` the caching wrapper around it and
    `ServeStep` the counting wrapper around that: the decorated `get_page`. */
module Web {
  import opened Keys
  import opened KeyValueStore

  /** Seconds a cached page stays visible after it is written. */
  const Ttl: int := 10

  /** What the network answers to one request: the page text, or a
      transport failure. */
  datatype Response = Body(text: string) | Unreachable

  /** The network: its answer to the n-th request ever made, for a URL.
      Indexing by the request number lets a page change between fetches. */
  type Origin = (nat, string) -> Response

  datatype Error =
    | CounterOverflow  // INCR refused: the counter is at the 64-bit maximum
    | FetchFailed      // the network request failed

  /** The outcome of one call: page text or the error that aborted it. */
  datatype Result = Ok(text: string) | Err(error: Error)

  /** The store's two key spaces, the clock, and every URL handed to the
      network so far, in order. */
  datatype State = State(
    counts: map<string, int>,
    pages: map<string, Entry>,
    now: int,
    fetched: seq<string>)

  datatype Step = Step(state: State, result: Result)

  /** The access counter of a URL (0 before its first access). */
  function Accesses(s: State, url: string): int {
    CountOf(s.counts, CountKey(url))
  }

  /** What a GET of the URL's cached-page key returns now. */
  function Cached(s: State, url: string): Option<string> {
    Lookup(s.pages, s.now, CachedKey(url))
  }

  /** The cache counts as a hit only for a value that is present and
      non-empty: an empty value is falsy and sends the call to the network. */
  predicate IsHit(s: State, url: string) {
    Cached(s, url).Some? && Cached(s, url).value != ""
  }

  /** How many times the network was asked for the URL. */
  function Fetches(s: State, url: string): nat {
    multiset(s.fetched)[url]
  }

  /** What the store and the log always satisfy: each map holds only keys of
      its own namespace, every counter lies in 1..MaxCount, and no URL was
      fetched more often than it was accessed. */
  ghost predicate Inv(s: State) {
    && (forall k | k in s.counts :: IsCountKey(k) && 1 <= s.counts[k] <= MaxCount)
    && (forall k | k in s.pages :: IsCachedKey(k))
    && (forall u :: Fetches(s, u) <= Accesses(s, u))
  }

  /** The network's answer to the n-th request as a call result. */
  function Answer(origin: Origin, n: nat, url: string): Result {
    match origin(n, url)
    case Body(text) => Ok(text)
    case Unreachable => Err(FetchFailed)
  }

  /** The undecorated page fetch: one request, logged. */
  function FetchStep(s: State, origin: Origin, url: string): Step {
    Step(s.(fetched := s.fetched + [url]), Answer(origin, |s.fetched|, url))
  }

  /** The caching wrapper: a non-empty cached value is returned as it is;
      otherwise the page is fetched and, if the fetch succeeded, stored under
      the cached-page key (SET) and given the expiry now + Ttl (EXPIRE). */
  function CacheStep(s: State, origin: Origin, url: string): Step {
    var key := CachedKey(url);
    var cached := Lookup(s.pages, s.now, key);
    if cached.Some? && cached.value != "" then Step(s, Ok(cached.value))
    else
      var f := FetchStep(s, origin, url);
      if f.result.Err? then f
      else
        var written := SetText(f.state.pages, key, f.result.text);
        Step(f.state.(pages := Expire(written, f.state.now, key, Ttl)), f.result)
  }

  /** The counting wrapper around the caching wrapper: INCR the URL's counter
      first; if INCR fails the call fails there and nothing else happens. */
  function ServeStep(s: State, origin: Origin, url: string): Step {
    match Incr(s.counts, CountKey(url))
    case None => Step(s, Err(CounterOverflow))
    case Some(counts) => CacheStep(s.(counts := counts), origin, url)
  }

  /** The clock moves forward by dt seconds. */
  function Advance(s: State, dt: nat): State {
    s.(now := s.now + dt)
  }

  /** Every call keeps the invariant, whatever the network answers. */
  lemma ServePreservesInv(s: State, origin: Origin, url: string)
    requires Inv(s)
    ensures Inv(ServeStep(s, origin, url).state)
  {
    var t := ServeStep(s, origin, url).state;
    if Incr(s.counts, CountKey(url)).Some? {
      assert t.counts == s.counts[CountKey(url) := Accesses(s, url) + 1];
      assert t.fetched == s.fetched || t.fetched == s.fetched + [url];
      forall u
        ensures Fetches(t, u) <= Accesses(t, u)
      {
        CountKeyInjective(u, url);
        assert Fetches(s, u) <= Accesses(s, u);
      }
    }
  }

  /** The passage of time keeps the invariant. */
  lemma AdvancePreservesInv(s: State, dt: nat)
    requires Inv(s)
    ensures Inv(Advance(s, dt))
  {
    var t := Advance(s, dt);
    forall u
      ensures Fetches(t, u) <= Accesses(t, u)
    {
      assert Fetches(s, u) <= Accesses(s, u);
    }
  }
}
