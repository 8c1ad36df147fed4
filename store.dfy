/** The key-value store the web cache talks to, as values: a map of counters
    (keys that INCR creates; none of them is ever given an expiry) and a map
    of text entries (keys that SET creates, each with an optional expiry
    time). The clock is passed in; an entry whose expiry time has been
    reached reads as absent. */
module KeyValueStore {

  datatype Option<T> = None | Some(value: T)

  /** INCR works on signed 64-bit integers and refuses to go past the largest. */
  const MaxCount: int := 0x7FFF_FFFF_FFFF_FFFF

  /** A text value and the time at which it expires, if any. */
  datatype Entry = Entry(text: string, expiresAt: Option<int>)

  /** An entry is visible until its expiry time is reached. */
  predicate Live(e: Entry, now: int) {
    e.expiresAt.None? || now < e.expiresAt.value
  }

  /** The value of a counter, 0 where the key does not exist yet. */
  function CountOf(counts: map<string, int>, key: string): int {
    if key in counts then counts[key] else 0
  }

  /** INCR: the counter map with `key` one higher (created at 0 first), or
      None when the increment would overflow. */
  function Incr(counts: map<string, int>, key: string): Option<map<string, int>> {
    var n := CountOf(counts, key);
    if n < MaxCount then Some(counts[key := n + 1]) else None
  }

  /** GET: the text under `key`, None when it is missing or expired. */
  function Lookup(pages: map<string, Entry>, now: int, key: string): Option<string> {
    if key in pages && Live(pages[key], now) then Some(pages[key].text) else None
  }

  /** SET: store `text` under `key`, dropping any expiry the key had. */
  function SetText(pages: map<string, Entry>, key: string, text: string): map<string, Entry> {
    pages[key := Entry(text, None)]
  }

  /** EXPIRE: give a live key the expiry time now + seconds; a missing or
      expired key is left alone. */
  function Expire(pages: map<string, Entry>, now: int, key: string, seconds: int): map<string, Entry> {
    if key in pages && Live(pages[key], now)
    then pages[key := pages[key].(expiresAt := Some(now + seconds))]
    else pages
  }

  /** Whether EXPIRE finds the key (its return value). */
  predicate Expires(pages: map<string, Entry>, now: int, key: string) {
    key in pages && Live(pages[key], now)
  }
}
