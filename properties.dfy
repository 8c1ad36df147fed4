/** What one call of the decorated page fetch does to the counter, the cache
    and the network log, and what sequences of calls add up to. */
module WebProperties {
  import opened Keys
  import opened KeyValueStore
  import opened Web

  /** Every call bumps the URL's counter by exactly one, hit or miss; a first
      access creates it at 1. Only a counter already at the 64-bit maximum
      stops the call, and then before anything else happens. */
  lemma ServeCounts(s: State, origin: Origin, url: string)
    ensures var t := ServeStep(s, origin, url);
      if Accesses(s, url) < MaxCount then
        && t.state.counts == s.counts[CountKey(url) := Accesses(s, url) + 1]
        && Accesses(t.state, url) == Accesses(s, url) + 1
        && (CountKey(url) !in s.counts ==> t.state.counts[CountKey(url)] == 1)
      else
        t == Step(s, Err(CounterOverflow))
  {
  }

  /** A hit returns the stored text and does not go to the network: the
      cache, the clock and the log are left as they were, and only the
      counter moves. */
  lemma ServeHit(s: State, origin: Origin, url: string)
    requires Accesses(s, url) < MaxCount
    requires IsHit(s, url)
    ensures var t := ServeStep(s, origin, url);
      && t.result == Ok(Cached(s, url).value)
      && t.state == s.(counts := s.counts[CountKey(url) := Accesses(s, url) + 1])
  {
  }

  /** A miss asks the network exactly once, for the same URL. A page it
      returns is stored under the cached-page key with expiry now + Ttl and
      returned unchanged; a failed request writes nothing to the cache, while
      the counter keeps its increment. */
  lemma ServeMiss(s: State, origin: Origin, url: string)
    requires Accesses(s, url) < MaxCount
    requires !IsHit(s, url)
    ensures var t := ServeStep(s, origin, url);
      && t.state.fetched == s.fetched + [url]
      && t.state.counts == s.counts[CountKey(url) := Accesses(s, url) + 1]
      && t.state.now == s.now
      && match origin(|s.fetched|, url)
         case Body(text) =>
           t.result == Ok(text) && t.state.pages == s.pages[CachedKey(url) := Entry(text, Some(s.now + Ttl))]
         case Unreachable =>
           t.result == Err(FetchFailed) && t.state.pages == s.pages
  {
    NamespacesDisjoint(url, url);
  }

  /** A cached value that is present but empty is treated as a miss. */
  lemma EmptyCachedValueIsMiss(s: State, origin: Origin, url: string)
    requires Accesses(s, url) < MaxCount
    requires Cached(s, url) == Some("")
    ensures ServeStep(s, origin, url).state.fetched == s.fetched + [url]
  {
    ServeMiss(s, origin, url);
  }

  /** A call for one URL leaves every other URL's counter and cache entry
      as they were. */
  lemma ServeLeavesOtherUrls(s: State, origin: Origin, url: string, u: string)
    requires u != url
    ensures var t := ServeStep(s, origin, url).state;
      && Accesses(t, u) == Accesses(s, u)
      && (CachedKey(u) in t.pages <==> CachedKey(u) in s.pages)
      && (CachedKey(u) in s.pages ==> t.pages[CachedKey(u)] == s.pages[CachedKey(u)])
      && Cached(t, u) == Cached(s, u)
      && Fetches(t, u) == Fetches(s, u)
  {
    CountKeyInjective(u, url);
    CachedKeyInjective(u, url);
  }

  /** A second call less than Ttl seconds after a miss that fetched a
      non-empty page makes no new request and returns the same text: two
      calls, one fetch, and the counter up by two. */
  lemma SecondCallWithinTtlHits(s: State, origin: Origin, url: string, text: string, dt: nat)
    requires Accesses(s, url) + 2 <= MaxCount
    requires !IsHit(s, url)
    requires origin(|s.fetched|, url) == Body(text) && text != ""
    requires dt < Ttl
    ensures var first := ServeStep(s, origin, url);
      var second := ServeStep(Advance(first.state, dt), origin, url);
      && first.result == Ok(text)
      && second.result == Ok(text)
      && second.state.fetched == s.fetched + [url]
      && Accesses(second.state, url) == Accesses(s, url) + 2
  {
    var first := ServeStep(s, origin, url);
    ServeMiss(s, origin, url);
    var later := Advance(first.state, dt);
    assert Cached(later, url) == Some(text);
    ServeHit(later, origin, url);
  }

  /** Once Ttl seconds have passed since a miss stored a page, the entry
      reads as absent, the counter has not expired, and the next call asks
      the network again. */
  lemma ExpiryForcesRefetch(s: State, origin: Origin, url: string, dt: nat)
    requires Accesses(s, url) + 2 <= MaxCount
    requires !IsHit(s, url)
    requires origin(|s.fetched|, url).Body?
    requires dt >= Ttl
    ensures var first := ServeStep(s, origin, url);
      var later := Advance(first.state, dt);
      && Cached(later, url) == None
      && Accesses(later, url) == Accesses(s, url) + 1
      && ServeStep(later, origin, url).state.fetched == s.fetched + [url, url]
  {
    var first := ServeStep(s, origin, url);
    ServeMiss(s, origin, url);
    var later := Advance(first.state, dt);
    assert Cached(later, url) == None;
    ServeMiss(later, origin, url);
  }

  /** One call in a sequence: how many seconds pass before it, and its URL. */
  datatype Call = Call(delay: nat, url: string)

  /** The store after a sequence of calls, the clock moving forward by each
      call's delay just before it is made. */
  function Run(s: State, origin: Origin, calls: seq<Call>): State
    decreases |calls|
  {
    if calls == [] then s
    else Run(ServeStep(Advance(s, calls[0].delay), origin, calls[0].url).state, origin, calls[1..])
  }

  /** How many of the calls are for the URL. */
  function CallsFor(calls: seq<Call>, u: string): nat
    decreases |calls|
  {
    if calls == [] then 0 else (if calls[0].url == u then 1 else 0) + CallsFor(calls[1..], u)
  }

  /** After any sequence of calls, however far apart in time, each URL's
      counter has grown by the number of calls made for it, as long as it
      stays within the 64-bit range: counters never expire. */
  lemma {:induction false} RunCountsEveryCall(s: State, origin: Origin, calls: seq<Call>, u: string)
    requires Accesses(s, u) + CallsFor(calls, u) <= MaxCount
    ensures Accesses(Run(s, origin, calls), u) == Accesses(s, u) + CallsFor(calls, u)
    decreases |calls|
  {
    if calls != [] {
      var later := Advance(s, calls[0].delay);
      var t := ServeStep(later, origin, calls[0].url).state;
      ServeCounts(later, origin, calls[0].url);
      if calls[0].url != u {
        ServeLeavesOtherUrls(later, origin, calls[0].url, u);
      }
      RunCountsEveryCall(t, origin, calls[1..], u);
    }
  }

  /** Any sequence of calls, with time passing between them, keeps the
      invariant, so in particular no URL is ever fetched more often than it
      was accessed. */
  lemma {:induction false} RunPreservesInv(s: State, origin: Origin, calls: seq<Call>)
    requires Inv(s)
    ensures Inv(Run(s, origin, calls))
    decreases |calls|
  {
    if calls != [] {
      var later := Advance(s, calls[0].delay);
      AdvancePreservesInv(s, calls[0].delay);
      ServePreservesInv(later, origin, calls[0].url);
      RunPreservesInv(ServeStep(later, origin, calls[0].url).state, origin, calls[1..]);
    }
  }

  /** Two calls for "http://a.test" on an empty store, the network answering
      "hello" at once: the first stores the page with a 10-second expiry and
      sets the counter to 1; the second, straight after, returns "hello"
      without a request and sets the counter to 2. */
  lemma TwoCallsScenario(origin: Origin, now: int)
    requires origin(0, "http://a.test") == Body("hello")
    ensures var s := State(map[], map[], now, []);
      var first := ServeStep(s, origin, "http://a.test");
      var second := ServeStep(first.state, origin, "http://a.test");
      && first.result == Ok("hello")
      && first.state.pages == map[CachedKey("http://a.test") := Entry("hello", Some(now + 10))]
      && first.state.counts == map[CountKey("http://a.test") := 1]
      && second.result == Ok("hello")
      && second.state.counts == map[CountKey("http://a.test") := 2]
      && second.state.fetched == ["http://a.test"]
  {
    var s := State(map[], map[], now, []);
    SecondCallWithinTtlHits(s, origin, "http://a.test", "hello", 0);
  }

  /** A first call whose request fails still leaves the counter at 1, and
      stores nothing under the cached-page key. */
  lemma FailedFetchScenario(origin: Origin, now: int)
    requires origin(0, "http://a.test") == Unreachable
    ensures var t := ServeStep(State(map[], map[], now, []), origin, "http://a.test");
      && t.result == Err(FetchFailed)
      && t.state.counts == map[CountKey("http://a.test") := 1]
      && t.state.pages == map[]
  {
    ServeMiss(State(map[], map[], now, []), origin, "http://a.test");
  }
}
