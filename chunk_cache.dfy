/** The module-level plane cache of src/infinite-canvas/utils.ts: a JavaScript
    `Map` from coordinate strings to generated placements, kept in
    least-recently-used order and bounded to 256 entries.

    A `Map` iterates in insertion order, so it is modelled by the list of its
    keys in that order (`order`, oldest first) and the key/value table
    (`entries`). `delete` removes a key from both; `set` of a new key appends
    it at the end. */
module ChunkCache {
  import opened Common
  import opened Types
  import opened ChunkGen

  /** `MAX_PLANE_CACHE`. */
  const MaxPlaneCache := 256

  /** The `cap` most recent keys of `s` (all of them when there are no more). */
  function Newest<T>(s: seq<T>, cap: nat): (r: seq<T>)
    ensures |r| == if |s| <= cap then |s| else cap
    ensures r == s[|s| - |r|..]
  {
    if |s| <= cap then s else s[|s| - cap..]
  }

  /** What `evictPlaneCache` does to the key order: drop the first key while
      more than `cap` remain, stopping early at a key that is falsy (""). */
  function DropOldest(s: seq<string>, cap: nat): (r: seq<string>)
    ensures |r| <= |s|
    decreases |s|
  {
    if |s| <= cap then s else if s[0] == "" then s else DropOldest(s[1..], cap)
  }

  /** Eviction only ever removes the oldest keys (the result is a suffix), and
      it ends within the bound unless it stopped at a "" key. */
  lemma {:induction false} DropOldestSuffix(s: seq<string>, cap: nat)
    ensures var r := DropOldest(s, cap);
      && r == s[|s| - |r|..]
      && (|r| <= cap || r[0] == "")
    decreases |s|
  {
    if |s| > cap && s[0] != "" {
      DropOldestSuffix(s[1..], cap);
      var r := DropOldest(s[1..], cap);
      assert s[1..][|s| - 1 - |r|..] == s[|s| - |r|..];
    }
  }

  /** Without a "" key the early stop never happens: eviction keeps exactly
      the `cap` newest keys. */
  lemma {:induction false} DropOldestNewest(s: seq<string>, cap: nat)
    requires "" !in s
    ensures DropOldest(s, cap) == Newest(s, cap)
    decreases |s|
  {
    if |s| > cap {
      assert s[0] in s;
      assert "" !in s[1..];
      DropOldestNewest(s[1..], cap);
      assert s[1..][|s| - 1 - cap..] == s[|s| - cap..];
    }
  }

  /** A hit (delete then re-insert) moves the key to the most recent position
      and keeps the same set of keys, hence the same size. */
  lemma PromoteFacts(s: seq<string>, key: string)
    requires Distinct(s) && key in s
    ensures var r := Remove(s, key) + [key];
      && |r| == |s|
      && Distinct(r)
      && r[|r| - 1] == key
      && forall y :: y in r <==> y in s
  {
    RemoveDistinct(s, key);
    var r := Remove(s, key) + [key];
    assert Distinct(r) by {
      forall i, j | 0 <= i < j < |r| ensures r[i] != r[j] {
        if j == |r| - 1 { assert r[i] in Remove(s, key); }
      }
    }
  }

  /** A miss on a cache within its bound: the new key is the most recent one,
      the result is within the bound, and what is dropped is a prefix of the
      old order of at most one key (the least recently used). */
  lemma MissFacts(s: seq<string>, key: string, cap: nat)
    requires Distinct(s) && key !in s && |s| <= cap && cap > 0
    ensures var r := Newest(s + [key], cap);
      && |r| <= cap
      && r[|r| - 1] == key
      && Distinct(r)
      && |r| >= |s|
      && s + [key] == s[..|s| + 1 - |r|] + r
  {
    var t := s + [key];
    var r := Newest(t, cap);
    assert Distinct(t) by {
      forall i, j | 0 <= i < j < |t| ensures t[i] != t[j] {
        if j == |s| { assert t[i] in s; }
      }
    }
    assert r == t[|t| - |r|..];
    assert t == t[..|t| - |r|] + r;
  }

  /** Each entry holds the placements of the chunk whose key it has. */
  ghost predicate Coherent(env: Env, entries: map<string, seq<PlaneData>>, coords: map<string, Coord>)
  {
    forall k :: k in entries ==>
      k in coords && k == CoordKey(coords[k]) && entries[k] == ChunkPlanes(env, coords[k])
  }

  /** The cache's invariant on its parts: the map's own invariants (keys
      listed once, in `order`), the size bound, and coherence. */
  ghost predicate CacheInv(env: Env, order: seq<string>, entries: map<string, seq<PlaneData>>,
                           coords: map<string, Coord>)
  {
    && Distinct(order)
    && KeysMatch(order, entries)
    && |order| <= MaxPlaneCache
    && Coherent(env, entries, coords)
  }

  /** Promoting a present key keeps the invariant. */
  lemma PromoteKeepsInv(env: Env, order: seq<string>, entries: map<string, seq<PlaneData>>,
                        coords: map<string, Coord>, key: string)
    requires CacheInv(env, order, entries, coords) && key in entries
    ensures (entries - {key})[key := entries[key]] == entries
    ensures CacheInv(env, Remove(order, key) + [key], (entries - {key})[key := entries[key]], coords)
  {
    PromoteFacts(order, key);
    ReinsertSame(entries, key);
  }

  lemma CoherentInsert(env: Env, entries: map<string, seq<PlaneData>>, coords: map<string, Coord>, c: Coord)
    requires Coherent(env, entries, coords)
    ensures Coherent(env, entries[CoordKey(c) := ChunkPlanes(env, c)], coords[CoordKey(c) := c])
  {
  }

  lemma CoherentRestrict(env: Env, entries: map<string, seq<PlaneData>>, coords: map<string, Coord>, s: seq<string>)
    requires Coherent(env, entries, coords)
    ensures Coherent(env, Restrict(entries, s), coords)
  {
  }

  lemma RestrictSuffix<V>(o: seq<string>, e: map<string, V>, n: nat)
    requires KeysMatch(o, e) && n <= |o|
    ensures KeysMatch(o[n..], Restrict(e, o[n..]))
  {
    forall k | k in o[n..] ensures k in o {
      var i :| 0 <= i < |o[n..]| && o[n..][i] == k;
      assert o[n + i] == k;
    }
  }

  /** A miss appends a key no entry has, which keeps the order duplicate-free
      and in step with the table. */
  lemma MissAppend(order: seq<string>, entries: map<string, seq<PlaneData>>, key: string, v: seq<PlaneData>)
    requires Distinct(order) && KeysMatch(order, entries) && key !in entries
    ensures Distinct(order + [key]) && KeysMatch(order + [key], entries[key := v])
  {
    assert Distinct(order + [key]) by {
      forall i, j | 0 <= i < j < |order + [key]| ensures (order + [key])[i] != (order + [key])[j] {
        if j == |order| { assert (order + [key])[i] in order; }
      }
    }
  }

  /** No key of a coherent cache, and no coordinate string, is "". */
  lemma NoEmptyKey(env: Env, order: seq<string>, entries: map<string, seq<PlaneData>>,
                   coords: map<string, Coord>, c: Coord)
    requires KeysMatch(order, entries) && Coherent(env, entries, coords)
    ensures "" !in order + [CoordKey(c)]
  {
    forall k | k in order + [CoordKey(c)] ensures k != "" {
      if k in order {
        assert k in entries;
        assert |CoordKey(coords[k])| >= 5;
      }
    }
  }

  /** The key order after a miss and its eviction, when no key is "": the
      256 newest keys, duplicate-free and in step with the restricted table. */
  lemma MissOrder<V>(order: seq<string>, entries: map<string, V>, key: string, v: V)
    requires Distinct(order) && KeysMatch(order, entries) && key !in entries
    requires |order| <= MaxPlaneCache && "" !in order + [key]
    ensures var r := DropOldest(order + [key], MaxPlaneCache);
      && r == Newest(order + [key], MaxPlaneCache)
      && Distinct(r) && |r| <= MaxPlaneCache
      && KeysMatch(r, Restrict(entries[key := v], r))
  {
    var o := order + [key];
    MissFacts(order, key, MaxPlaneCache);
    DropOldestNewest(o, MaxPlaneCache);
    var r := Newest(o, MaxPlaneCache);
    RestrictSuffix(o, entries[key := v], |o| - |r|);
  }

  /** After the miss and the eviction that follows it the invariant holds
      again: there is no "" key in the order, so eviction kept the 256 newest
      keys. */
  lemma MissKeepsInv(env: Env, order: seq<string>, entries: map<string, seq<PlaneData>>,
                     coords: map<string, Coord>, c: Coord,
                     order': seq<string>, entries': map<string, seq<PlaneData>>)
    requires CacheInv(env, order, entries, coords) && CoordKey(c) !in entries
    requires order' == DropOldest(order + [CoordKey(c)], MaxPlaneCache)
    requires entries' == Restrict(entries[CoordKey(c) := ChunkPlanes(env, c)], order')
    ensures order' == Newest(order + [CoordKey(c)], MaxPlaneCache)
    ensures CacheInv(env, order', entries', coords[CoordKey(c) := c])
  {
    NoEmptyKey(env, order, entries, coords, c);
    MissOrder(order, entries, CoordKey(c), ChunkPlanes(env, c));
    CoherentInsert(env, entries, coords, c);
    CoherentRestrict(env, entries[CoordKey(c) := ChunkPlanes(env, c)], coords[CoordKey(c) := c], order');
  }

  /** The cache. `coords` (ghost) records the chunk whose key each entry has. */
  class PlaneCache {
    const env: Env
    var order: seq<string>
    var entries: map<string, seq<PlaneData>>
    ghost var coords: map<string, Coord>

    ghost predicate Valid()
      reads this
    {
      CacheInv(env, order, entries, coords)
    }

    constructor (env: Env)
      ensures Valid() && this.env == env
      ensures order == [] && entries == map[]
    {
      this.env := env;
      order := [];
      entries := map[];
      coords := map[];
    }

    /** `touchPlaneCache`: a present key is deleted and set again with the same
        value, which moves it to the end of the order; an absent key is left. */
    method Touch(key: string)
      requires Valid()
      modifies this
      ensures Valid()
      ensures entries == old(entries) && coords == old(coords)
      ensures key in entries ==> order == Remove(old(order), key) + [key]
      ensures key !in entries ==> order == old(order)
    {
      if key !in entries {
        return;
      }
      PromoteKeepsInv(env, order, entries, coords, key);
      order, entries := Remove(order, key) + [key], (entries - {key})[key := entries[key]];
    }

    /** `evictPlaneCache`: while more than 256 entries remain, delete the first
        key, unless that key is falsy. */
    method Evict()
      requires Distinct(order) && KeysMatch(order, entries)
      modifies this
      ensures Distinct(order) && KeysMatch(order, entries)
      ensures order == DropOldest(old(order), MaxPlaneCache)
      ensures entries == Restrict(old(entries), order)
      ensures coords == old(coords)
    {
      var keys, table := order, entries;
      while |keys| > MaxPlaneCache
        invariant Distinct(keys) && KeysMatch(keys, table)
        invariant DropOldest(keys, MaxPlaneCache) == DropOldest(order, MaxPlaneCache)
        invariant table == Restrict(entries, keys)
        invariant unchanged(this)
        decreases |keys|
      {
        var first := keys[0];
        if first == "" {
          break;
        }
        RestrictTail(entries, keys);
        DistinctTail(keys);
        keys := keys[1..];
        table := table - {first};
      }
      order, entries := keys, table;
    }

    /** `generateChunkPlanesCached`. Whether it hits or misses, the result is
        what `generateChunkPlanes` computes for the coordinate. A hit promotes
        the key and changes no entry; a miss appends the new key and keeps the
        256 most recent ones. */
    method GetOrGenerate(cx: int, cy: int, cz: int) returns (planes: seq<PlaneData>)
      requires Valid()
      modifies this
      ensures Valid()
      ensures planes == ChunkPlanes(env, Coord(cx, cy, cz))
      ensures var key := CoordKey(Coord(cx, cy, cz));
        if key in old(entries) then
          order == Remove(old(order), key) + [key] && entries == old(entries)
        else
          order == Newest(old(order) + [key], MaxPlaneCache)
          && entries == Restrict(old(entries)[key := planes], order)
    {
      var c := Coord(cx, cy, cz);
      var key := CoordKey(c);
      if key in entries {
        var cached := entries[key];
        CoordKeyInjective(coords[key], c);
        Touch(key);
        return cached;
      }
      planes := GenerateChunkPlanes(env, cx, cy, cz);
      ghost var o0, e0, c0 := order, entries, coords;
      MissAppend(order, entries, key, planes);
      order, entries, coords := order + [key], entries[key := planes], coords[key := c];
      Evict();
      MissKeepsInv(env, o0, e0, c0, c, order, entries);
    }
  }
}
