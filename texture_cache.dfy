/** The memoised texture lookup the material managers share: a cache keyed by
    a string, and on a miss a list of candidate paths tried in order, the
    first successful load being cached and returned. The texture loader is an
    oracle from a path to the texture it yields, if any. */
module TextureCache {
  import opened Common
  import opened Scene

  /** Index of the first successful attempt, or -1. */
  function FirstSomeIndex(attempts: seq<Option<Texture>>): (k: int)
    ensures -1 <= k < |attempts|
    ensures k == -1 <==> forall i :: 0 <= i < |attempts| ==> attempts[i].None?
    ensures k >= 0 ==> attempts[k].Some? && forall i :: 0 <= i < k ==> attempts[i].None?
  {
    if attempts == [] then -1
    else if attempts[0].Some? then 0
    else
      var k := FirstSomeIndex(attempts[1..]);
      if k == -1 then -1 else k + 1
  }

  /** The first successful attempt, or `None` when every attempt failed. */
  function FirstSome(attempts: seq<Option<Texture>>): (r: Option<Texture>)
    ensures r.None? <==> forall i :: 0 <= i < |attempts| ==> attempts[i].None?
    ensures r.Some? ==> r in attempts
  {
    var k := FirstSomeIndex(attempts);
    if k == -1 then None else attempts[k]
  }

  /** When the first `i` attempts failed, the outcome is decided by the rest. */
  lemma FirstSomeAfterFailures(attempts: seq<Option<Texture>>, i: int)
    requires 0 <= i < |attempts| && attempts[i].Some?
    requires forall j :: 0 <= j < i ==> attempts[j].None?
    ensures FirstSome(attempts) == attempts[i]
  {
    var k := FirstSomeIndex(attempts);
  }

  /** The cache key `${basePath}_${mapType}`. */
  function CacheKey(basePath: string, mapType: string): string {
    basePath + "_" + mapType
  }

  /** Keys whose map-type names differ at the `k`-th character from the end
      never collide, whatever their base paths. */
  lemma CacheKeysDiffer(p: string, q: string, s: string, t: string, k: int)
    requires 1 <= k <= |s| && k <= |t| && s[|s| - k] != t[|t| - k]
    ensures CacheKey(p, s) != CacheKey(q, t)
  {
    var a := CacheKey(p, s);
    var b := CacheKey(q, t);
    assert a[|a| - k] == s[|s| - k];
    assert b[|b| - k] == t[|t| - k];
  }

  /** `${prefix}.${ext}` for each extension, in order. */
  function ExtensionPaths(prefix: string, extensions: seq<string>): (paths: seq<string>)
    ensures |paths| == |extensions|
    ensures forall i :: 0 <= i < |extensions| ==> paths[i] == prefix + "." + extensions[i]
  {
    seq(|extensions|, i requires 0 <= i < |extensions| => prefix + "." + extensions[i])
  }

  /** The outcome of loading each path, with `configure` applied to every
      texture that loads (the success callback). */
  function Attempts(paths: seq<string>, load: string -> Option<Texture>, configure: Texture -> Texture): (a: seq<Option<Texture>>)
    ensures |a| == |paths|
    ensures forall i :: 0 <= i < |paths| ==> a[i].Some? == load(paths[i]).Some?
    ensures forall i :: 0 <= i < |paths| && load(paths[i]).Some? ==> a[i] == Some(configure(load(paths[i]).value))
  {
    seq(|paths|, i requires 0 <= i < |paths| =>
      if load(paths[i]).Some? then Some(configure(load(paths[i]).value)) else None)
  }

  /** A lookup's result and the cache after it. */
  datatype Lookup = Lookup(texture: Option<Texture>, cache: map<string, Texture>)

  /** A memoised load: a hit returns the cached texture and changes nothing;
      a miss returns the first successful attempt and caches it under `key`;
      when every attempt fails, nothing is cached. */
  function CachedLoad(cache: map<string, Texture>, key: string, attempts: seq<Option<Texture>>): (r: Lookup)
    ensures key in cache ==> r == Lookup(Some(cache[key]), cache)
    ensures key !in cache ==> r.texture == FirstSome(attempts)
    ensures key !in cache && r.texture.Some? ==> r.cache == cache[key := r.texture.value]
    ensures r.texture.None? ==> r.cache == cache
    ensures r.texture.None? <==> key !in cache && forall i :: 0 <= i < |attempts| ==> attempts[i].None?
  {
    if key in cache then Lookup(Some(cache[key]), cache)
    else
      var t := FirstSome(attempts);
      if t.Some? then Lookup(t, cache[key := t.value]) else Lookup(None, cache)
  }

  /** A successful lookup is memoised: asking again for the same key, however
      the loader would now behave, returns the same texture and leaves the
      cache as it is. */
  lemma CachedLoadMemoised(cache: map<string, Texture>, key: string, first: seq<Option<Texture>>, later: seq<Option<Texture>>)
    requires CachedLoad(cache, key, first).texture.Some?
    ensures var r := CachedLoad(cache, key, first);
            CachedLoad(r.cache, key, later) == r
  {
  }

  /** A lookup only ever adds the one key, and never replaces an entry. */
  lemma CachedLoadGrows(cache: map<string, Texture>, key: string, attempts: seq<Option<Texture>>)
    ensures var r := CachedLoad(cache, key, attempts);
            (forall k :: k in cache ==> k in r.cache && r.cache[k] == cache[k]) &&
            (forall k :: k in r.cache && k !in cache ==> k == key)
  {
  }

  /** One lookup of a batch: the key and the attempts a miss would make. */
  datatype Request = Request(key: string, attempts: seq<Option<Texture>>)

  /** The results of a batch of lookups and the final cache. */
  datatype Batch = Batch(textures: seq<Option<Texture>>, cache: map<string, Texture>)

  /** Lookups performed one after another, each seeing the cache the previous
      ones left. */
  function LoadMany(cache: map<string, Texture>, requests: seq<Request>): (b: Batch)
    ensures |b.textures| == |requests|
  {
    if requests == [] then Batch([], cache)
    else
      var before := LoadMany(cache, requests[..|requests| - 1]);
      var last := requests[|requests| - 1];
      var l := CachedLoad(before.cache, last.key, last.attempts);
      Batch(before.textures + [l.texture], l.cache)
  }

  /** One more request of a batch. */
  lemma LoadManyStep(cache: map<string, Texture>, reqs: seq<Request>, i: int)
    requires 0 <= i < |reqs|
    ensures var before := LoadMany(cache, reqs[..i]);
            var l := CachedLoad(before.cache, reqs[i].key, reqs[i].attempts);
            LoadMany(cache, reqs[..i + 1]) == Batch(before.textures + [l.texture], l.cache)
  {
    assert reqs[..i + 1][..i] == reqs[..i];
  }

  predicate DistinctKeys(requests: seq<Request>) {
    forall i, j :: 0 <= i < j < |requests| ==> requests[i].key != requests[j].key
  }

  /** The keys a batch asks for. */
  function Keys(requests: seq<Request>): set<string> {
    set i | 0 <= i < |requests| :: requests[i].key
  }

  /** A batch never replaces an entry and only adds keys it asked for. */
  lemma {:induction false} LoadManyGrows(cache: map<string, Texture>, requests: seq<Request>)
    ensures var b := LoadMany(cache, requests);
            (forall k :: k in cache ==> k in b.cache && b.cache[k] == cache[k]) &&
            (forall k :: k in b.cache ==> k in cache || k in Keys(requests))
  {
    if requests != [] {
      var n := |requests| - 1;
      var front := requests[..n];
      LoadManyGrows(cache, front);
      var before := LoadMany(cache, front);
      CachedLoadGrows(before.cache, requests[n].key, requests[n].attempts);
      forall k | k in Keys(front) ensures k in Keys(requests) {
        var i :| 0 <= i < |front| && front[i].key == k;
        assert requests[i].key == k;
      }
      assert requests[n].key in Keys(requests);
    }
  }

  /** On a cache holding none of the keys, a batch of distinct keys misses
      every time: each texture is the first success of its own attempts. */
  lemma {:induction false} LoadManyFresh(cache: map<string, Texture>, requests: seq<Request>)
    requires DistinctKeys(requests)
    requires forall i :: 0 <= i < |requests| ==> requests[i].key !in cache
    ensures var b := LoadMany(cache, requests);
            forall i :: 0 <= i < |requests| ==> b.textures[i] == FirstSome(requests[i].attempts)
  {
    if requests != [] {
      var n := |requests| - 1;
      var front := requests[..n];
      assert DistinctKeys(front);
      LoadManyFresh(cache, front);
      LoadManyGrows(cache, front);
      var before := LoadMany(cache, front);
      var last := requests[n];
      assert last.key !in Keys(front);
      assert last.key !in before.cache;
    }
  }

  /** When every key is already cached, a batch loads nothing and returns
      the cached textures. */
  lemma {:induction false} LoadManyAllCached(cache: map<string, Texture>, requests: seq<Request>)
    requires forall i :: 0 <= i < |requests| ==> requests[i].key in cache
    ensures var b := LoadMany(cache, requests);
            b.cache == cache &&
            forall i :: 0 <= i < |requests| ==> b.textures[i] == Some(cache[requests[i].key])
  {
    if requests != [] {
      LoadManyAllCached(cache, requests[..|requests| - 1]);
    }
  }
}
