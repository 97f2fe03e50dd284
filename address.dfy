/**
 * The address-bar side of navigation. An address is taken as the plain text
 * of `window.location.href`; its fragment is whatever follows the first `#`,
 * the fragment delimiter of section 3.5 of RFC 3986.
 */
module Address {
  import opened Options

  /** JavaScript `s.indexOf(c)`: the first position of `c`, or -1 when there is none. */
  function IndexOf(s: string, c: char): (r: int)
    ensures -1 <= r < |s|
    ensures r == -1 <==> c !in s
    ensures 0 <= r ==> s[r] == c && c !in s[..r]
  {
    if s == [] then -1
    else if s[0] == c then 0
    else
      var k := IndexOf(s[1..], c);
      if k < 0 then -1
      else
        assert s[..k + 1] == [s[0]] + s[1..][..k];
        k + 1
  }

  /** The first `#` of `a + "#" + b` is the one placed after `a` when `a` has none. */
  lemma IndexOfFirstHash(a: string, b: string)
    requires '#' !in a
    ensures IndexOf(a + "#" + b, '#') == |a|
  {
    var s := a + "#" + b;
    var i := IndexOf(s, '#');
    assert s[|a|] == '#';
    assert forall j :: 0 <= j < |a| ==> s[j] == a[j];
    assert forall j :: 0 <= j < i ==> s[..i][j] == s[j];
  }

  /** The text before the first `#`: origin, path and query. */
  function Base(url: string): (r: string)
    ensures '#' !in r
    ensures r <= url
    ensures '#' !in url ==> r == url
  {
    var i := IndexOf(url, '#');
    if i < 0 then url else url[..i]
  }

  /** The text after the first `#`, or `None` when the address has no `#`. */
  function Fragment(url: string): (r: Option<string>)
    ensures r.None? <==> '#' !in url
    ensures r.Some? ==> url == Base(url) + "#" + r.value
  {
    var i := IndexOf(url, '#');
    if i < 0 then None
    else
      assert url == url[..i] + "#" + url[i + 1..];
      Some(url[i + 1..])
  }

  /**
   * The address pushed by a click on a section with key `key`: the address is
   * cut at its first `#` (kept whole when it has none) and `#key` appended.
   */
  function Publish(url: string, key: string): (r: string)
    ensures r == Base(url) + "#" + key
  {
    var hashIndex := IndexOf(url, '#');
    if hashIndex < 0 then url + "#" + key else url[..hashIndex] + "#" + key
  }

  /**
   * A published address keeps the old origin, path and query exactly, and its
   * fragment is the key and nothing else.
   */
  lemma PublishKeepsBase(url: string, key: string)
    ensures Base(Publish(url, key)) == Base(url)
    ensures Fragment(Publish(url, key)) == Some(key)
  {
    IndexOfFirstHash(Base(url), key);
  }

  /** Without an old fragment the key is appended to the whole address. */
  lemma PublishWithoutFragment(url: string, key: string)
    requires '#' !in url
    ensures Publish(url, key) == url + "#" + key
  {
  }

  /** An old fragment is replaced, never appended to: only the last click's key survives. */
  lemma PublishReplacesFragment(url: string, k1: string, k2: string)
    ensures Publish(Publish(url, k1), k2) == Publish(url, k2)
  {
    PublishKeepsBase(url, k1);
  }

  /** Publishing the fragment an address already carries leaves it as it is. */
  lemma PublishSameFragment(url: string)
    requires Fragment(url).Some?
    ensures Publish(url, Fragment(url).value) == url
  {
  }

  /**
   * `location.hash`: `#` and the fragment, or the empty string when the
   * address has no fragment or an empty one.
   */
  function LocationHash(url: string): (r: string)
    ensures r == "" <==> Fragment(url).None? || Fragment(url).value == ""
    ensures r != "" ==> r == "#" + Fragment(url).value
  {
    match Fragment(url)
    case None => ""
    case Some(f) => if f == "" then "" else "#" + f
  }

  /** JavaScript `s.substr(1)`: everything but the first character. */
  function Substr1(s: string): (r: string)
    ensures s != [] ==> [s[0]] + r == s
    ensures s == [] ==> r == []
  {
    if s == [] then [] else s[1..]
  }

  /**
   * Reading back a published address: its hash is non-empty exactly when the
   * key is, and stripping the hash's `#` gives the key back.
   */
  lemma HashRoundTrip(url: string, key: string)
    ensures LocationHash(Publish(url, key)) != "" <==> key != ""
    ensures Substr1(LocationHash(Publish(url, key))) == key
  {
    PublishKeepsBase(url, key);
  }

}
