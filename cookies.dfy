/** `get_auto_cookies` (server.py lines 107-169): the credential pair from the cookie cache
    file unless a refresh is forced, else from the browser's cookie jar, else nothing. The
    cache file and the jar are abstract values; an empty string stands for a missing or
    falsy value. */
module Cookies {
  import opened Wrappers

  /** The `__Secure-1PSID` / `__Secure-1PSIDTS` pair. */
  datatype Credentials = Credentials(psid: string, ts: string)

  /** Both halves present: the `if psid and ts` test. */
  predicate Complete(c: Credentials)
  {
    c.psid != "" && c.ts != ""
  }

  datatype Cookie = Cookie(name: string, value: string)

  const PsidCookie: string := "__Secure-1PSID"
  const TsCookie: string := "__Secure-1PSIDTS"

  /** cookie_cache.json: missing, unreadable (json.load raises), or holding the values of its
      "SECURE_1PSID" and "SECURE_1PSIDTS" keys. */
  datatype CacheFile = Missing | Unreadable | Stored(psid: string, ts: string)

  /** What the browser harvest gives: `browser_cookie3` not installed, `chrome()` raising,
      or the jar of cookies for `.google.com` in iteration order. */
  datatype Harvest = NoHarvester | HarvestRaised | Jar(cookies: seq<Cookie>)

  /** The value of the last cookie called `name`, or "" when there is none. */
  function LastValue(jar: seq<Cookie>, name: string): string
  {
    if jar == [] then ""
    else if jar[|jar| - 1].name == name then jar[|jar| - 1].value
    else LastValue(jar[..|jar| - 1], name)
  }

  /** The last cookie with the name decides: every earlier one is overwritten. */
  lemma {:induction false} LastValueIsLastMatch(jar: seq<Cookie>, name: string, i: nat)
    requires i < |jar| && jar[i].name == name
    requires forall j :: i < j < |jar| ==> jar[j].name != name
    ensures LastValue(jar, name) == jar[i].value
  {
    if i < |jar| - 1 {
      LastValueIsLastMatch(jar[..|jar| - 1], name, i);
    }
  }

  /** Without a cookie of that name the value stays missing. */
  lemma {:induction false} LastValueNoMatch(jar: seq<Cookie>, name: string)
    requires forall j :: 0 <= j < |jar| ==> jar[j].name != name
    ensures LastValue(jar, name) == ""
  {
    if jar != [] {
      LastValueNoMatch(jar[..|jar| - 1], name);
    }
  }

  /** The scan loop of lines 141-145. */
  method ScanJar(jar: seq<Cookie>) returns (psid: string, ts: string)
    ensures psid == LastValue(jar, PsidCookie)
    ensures ts == LastValue(jar, TsCookie)
  {
    psid, ts := "", "";
    var i := 0;
    while i < |jar|
      invariant 0 <= i <= |jar|
      invariant psid == LastValue(jar[..i], PsidCookie)
      invariant ts == LastValue(jar[..i], TsCookie)
    {
      assert jar[..i + 1][..i] == jar[..i];
      if jar[i].name == PsidCookie {
        psid := jar[i].value;
      }
      if jar[i].name == TsCookie {
        ts := jar[i].value;
      }
      i := i + 1;
    }
    assert jar[..i] == jar;
  }

  /** The pair a harvest yields, if both cookies were found with non-empty values. */
  function Harvested(h: Harvest): (r: Option<Credentials>)
    ensures r.Some? <==> h.Jar? && LastValue(h.cookies, PsidCookie) != "" && LastValue(h.cookies, TsCookie) != ""
    ensures r.Some? ==> Complete(r.value)
    ensures r.Some? ==> r.value == Credentials(LastValue(h.cookies, PsidCookie), LastValue(h.cookies, TsCookie))
  {
    match h
    case Jar(cookies) =>
      var c := Credentials(LastValue(cookies, PsidCookie), LastValue(cookies, TsCookie));
      if Complete(c) then Some(c) else None
    case _ => None
  }

  /** The pair the cache holds, if both values are present. */
  function Cached(f: CacheFile): Option<Credentials>
  {
    if f.Stored? && f.psid != "" && f.ts != "" then Some(Credentials(f.psid, f.ts)) else None
  }

  /** The result of `get_auto_cookies(force)` and the cache file afterwards. */
  function Obtain(cache: CacheFile, force: bool, h: Harvest): (r: (Option<Credentials>, CacheFile))
    ensures r.0.Some? ==> Complete(r.0.value)
    ensures !force && Cached(cache).Some? ==> r == (Cached(cache), cache)
    ensures force || Cached(cache).None? ==> r.0 == Harvested(h)
    ensures r.1 == cache || (r.0.Some? && r.0 == Harvested(h) && r.1 == Stored(r.0.value.psid, r.0.value.ts))
    ensures (force || Cached(cache).None?) && Harvested(h).Some? ==> r.1 == Stored(r.0.value.psid, r.0.value.ts)
  {
    if !force && Cached(cache).Some? then (Cached(cache), cache)
    else
      match Harvested(h)
      case Some(c) => (Some(c), Stored(c.psid, c.ts))
      case None => (None, cache)
  }

  /** A forced refresh never reads the cache: whatever the file holds, the result is the
      harvest's. */
  lemma ForceRefreshIgnoresCache(stale: CacheFile, other: CacheFile, h: Harvest)
    ensures Obtain(stale, true, h).0 == Obtain(other, true, h).0 == Harvested(h)
  {
  }

  /** The owner of cookie_cache.json. */
  class CookieSupplier {
    var cache: CacheFile

    constructor (initial: CacheFile)
      ensures cache == initial
    {
      cache := initial;
    }

    method GetAutoCookies(force: bool, h: Harvest) returns (r: Option<Credentials>)
      modifies this
      ensures (r, cache) == Obtain(old(cache), force, h)
    {
      if !force {
        match cache
        case Stored(p, t) =>
          if p != "" && t != "" {
            return Some(Credentials(p, t));
          }
        case _ =>
      }
      match h
      case NoHarvester =>
        r := None;
      case HarvestRaised =>
        r := None;
      case Jar(cookies) =>
        var psid, ts := ScanJar(cookies);
        if psid != "" && ts != "" {
          cache := Stored(psid, ts);
          r := Some(Credentials(psid, ts));
        } else {
          r := None;
        }
    }
  }
}
