/** Key derivation for the two namespaces the web cache keeps in the store:
    `count:<url>` holds the access counter of a URL and `cached:<url>` its
    cached page. Both are the literal prefix followed by the raw URL. */
module Keys {

  const CountPrefix: string := "count:"
  const CachedPrefix: string := "cached:"

  /** A key of the counter namespace. */
  predicate IsCountKey(k: string) {
    |CountPrefix| <= |k| && k[..|CountPrefix|] == CountPrefix
  }

  /** A key of the cached-page namespace. */
  predicate IsCachedKey(k: string) {
    |CachedPrefix| <= |k| && k[..|CachedPrefix|] == CachedPrefix
  }

  /** The URL a counter key was derived from. */
  function UrlOfCountKey(k: string): string
    requires IsCountKey(k)
  {
    k[|CountPrefix|..]
  }

  /** The URL a cached-page key was derived from. */
  function UrlOfCachedKey(k: string): string
    requires IsCachedKey(k)
  {
    k[|CachedPrefix|..]
  }

  /** The counter key of a URL: it lies in the counter namespace only, and
      the URL can be read back from it. */
  function CountKey(url: string): (k: string)
    ensures IsCountKey(k) && !IsCachedKey(k)
    ensures UrlOfCountKey(k) == url
  {
    var k := CountPrefix + url;
    assert k[..|CountPrefix|] == CountPrefix;
    assert |CachedPrefix| <= |k| ==> k[..|CachedPrefix|][1] == 'o';
    k
  }

  /** The cached-page key of a URL: it lies in the cached-page namespace
      only, and the URL can be read back from it. */
  function CachedKey(url: string): (k: string)
    ensures IsCachedKey(k) && !IsCountKey(k)
    ensures UrlOfCachedKey(k) == url
  {
    var k := CachedPrefix + url;
    assert k[..|CachedPrefix|] == CachedPrefix;
    assert k[..|CountPrefix|][1] == 'a';
    k
  }

  /** Different URLs never share a counter key. */
  lemma CountKeyInjective(u: string, v: string)
    ensures CountKey(u) == CountKey(v) <==> u == v
  {
    if CountKey(u) == CountKey(v) {
      assert u == UrlOfCountKey(CountKey(u));
    }
  }

  /** Different URLs never share a cached-page key. */
  lemma CachedKeyInjective(u: string, v: string)
    ensures CachedKey(u) == CachedKey(v) <==> u == v
  {
    if CachedKey(u) == CachedKey(v) {
      assert u == UrlOfCachedKey(CachedKey(u));
    }
  }

  /** No counter key is a cached-page key, whatever the two URLs. */
  lemma NamespacesDisjoint(u: string, v: string)
    ensures CountKey(u) != CachedKey(v)
  {
    assert IsCountKey(CountKey(u)) && !IsCountKey(CachedKey(v));
  }
}
