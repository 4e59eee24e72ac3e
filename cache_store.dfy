/**
 * The client-side TTL cache (`useCacheStore`): a map from keys to timestamped
 * entries, with lazy eviction on read, bulk eviction of expired entries,
 * hit/miss counters and an order-independent key builder.
 *
 * The clock is a parameter (`now`), cached values are JSON values, and the
 * fetcher of `getOrSet` is represented by its outcome.
 */
module CacheStore {
  import opened Base
  import opened Query

  /** Default time to live: five minutes. */
  const DefaultTtl: int := 5 * 60 * 1000

  datatype Entry = Entry(data: Json, timestamp: int, ttl: int, key: string)

  /** An entry is still valid at `now` while its age is below its ttl. */
  predicate Valid(e: Entry, now: int)
  {
    now - e.timestamp < e.ttl
  }

  /** The entries of `m` still valid at `now`. */
  function Unexpired(m: map<string, Entry>, now: int): map<string, Entry>
  {
    map k | k in m && Valid(m[k], now) :: m[k]
  }

  /** The keys of `m` whose entries have expired at `now`. */
  function ExpiredKeys(m: map<string, Entry>, now: int): set<string>
  {
    set k | k in m && !Valid(m[k], now)
  }

  /** What `getCacheInfo` reports about one entry. */
  datatype CacheInfo = CacheInfo(key: string, age: int, ttl: int, isExpired: bool, timeToExpiry: int, dataSize: nat)

  class CacheStore {
    var entries: map<string, Entry>
    var hits: nat
    var misses: nat
    var size: nat

    /** `stats.size` is written after every change to the map, so it always equals the map size. */
    ghost predicate Inv()
      reads this
    {
      size == |entries|
    }

    constructor ()
      ensures Inv() && entries == map[] && hits == 0 && misses == 0
    {
      entries := map[];
      hits, misses, size := 0, 0, 0;
    }

    /**
     * `get(key)`: a hit returns the data and counts a hit; otherwise an expired
     * entry is deleted, a miss is counted and null is returned.
     */
    method Get(key: string, now: int) returns (r: Json)
      requires Inv()
      modifies this
      ensures Inv()
      ensures key in old(entries) && Valid(old(entries)[key], now) ==>
        r == old(entries)[key].data && hits == old(hits) + 1 && misses == old(misses) && entries == old(entries)
      ensures !(key in old(entries) && Valid(old(entries)[key], now)) ==>
        r == JNull && misses == old(misses) + 1 && hits == old(hits) && entries == old(entries) - {key}
    {
      if key in entries && now - entries[key].timestamp < entries[key].ttl {
        hits := hits + 1;
        return entries[key].data;
      }
      if key in entries {
        entries := entries - {key};
        size := |entries|;
      }
      misses := misses + 1;
      return JNull;
    }

    /** `set(key, data, ttl)`: stores a fresh entry stamped `now`, replacing any old one. */
    method Set(key: string, data: Json, ttl: int, now: int)
      requires Inv()
      modifies this
      ensures Inv()
      ensures entries == old(entries)[key := Entry(data, now, ttl, key)]
      ensures hits == old(hits) && misses == old(misses)
    {
      entries := entries[key := Entry(data, now, ttl, key)];
      size := |entries|;
    }

    /** `has(key)`: the validity test of `get`, without its side effects. */
    predicate Has(key: string, now: int)
      reads this
    {
      key in entries && Valid(entries[key], now)
    }

    /** `remove(key)`: deletes the key and reports whether it was there. */
    method Remove(key: string) returns (deleted: bool)
      requires Inv()
      modifies this
      ensures Inv()
      ensures deleted <==> key in old(entries)
      ensures entries == old(entries) - {key}
      ensures hits == old(hits) && misses == old(misses)
    {
      deleted := key in entries;
      if deleted {
        entries := entries - {key};
        size := |entries|;
      }
    }

    /** `clear()` */
    method Clear()
      requires Inv()
      modifies this
      ensures Inv() && entries == map[]
      ensures hits == old(hits) && misses == old(misses)
    {
      entries := map[];
      size := 0;
    }

    /**
     * `clearExpired()`: deletes exactly the entries that have expired at `now`
     * and returns how many were deleted.
     */
    method ClearExpired(now: int) returns (cleared: nat)
      requires Inv()
      modifies this
      ensures Inv()
      ensures entries == Unexpired(old(entries), now)
      ensures cleared == |ExpiredKeys(old(entries), now)|
      ensures hits == old(hits) && misses == old(misses)
    {
      ghost var start := entries;
      var pending := entries.Keys;
      cleared := 0;
      ghost var removed: set<string> := {};
      while pending != {}
        invariant pending <= start.Keys
        invariant removed == set k | k in start && k !in pending && !Valid(start[k], now)
        invariant forall k :: k in entries <==> k in start && (k in pending || Valid(start[k], now))
        invariant forall k :: k in entries ==> entries[k] == start[k]
        invariant cleared == |removed|
        invariant hits == old(hits) && misses == old(misses)
        decreases pending
      {
        var k :| k in pending;
        pending := pending - {k};
        if now - entries[k].timestamp >= entries[k].ttl {
          entries := entries - {k};
          removed := removed + {k};
          cleared := cleared + 1;
        }
      }
      assert removed == ExpiredKeys(start, now);
      assert entries == Unexpired(start, now);
      size := |entries|;
    }

    /** `getCacheInfo(key)`: age, expiry and size of one entry, or null when absent. */
    function CacheInfoOf(key: string, now: int): (r: Option<CacheInfo>)
      reads this
      ensures r.None? <==> key !in entries
      ensures r.Some? ==> r.value.isExpired <==> !Has(key, now)
      ensures r.Some? ==> r.value.timeToExpiry >= 0 && (r.value.timeToExpiry > 0 <==> Has(key, now))
    {
      if key !in entries then None
      else
        var e := entries[key];
        var age := now - e.timestamp;
        Some(CacheInfo(e.key, age, e.ttl, age >= e.ttl, Max(0, e.ttl - age), |Stringify(e.data)|))
    }

    /**
     * `getOrSet(key, fetcher, ttl)`: a cached non-null value is returned without
     * calling the fetcher; otherwise the fetcher runs once and a value it
     * returns is stored, stamped at the time it arrives (`later`).
     */
    method GetOrSet(key: string, fetched: Outcome<Json>, ttl: int, now: int, later: int)
      returns (r: Outcome<Json>, calledFetcher: bool)
      requires Inv()
      modifies this
      ensures Inv()
      ensures var hit := key in old(entries) && Valid(old(entries)[key], now) && old(entries)[key].data != JNull;
        var valid := key in old(entries) && Valid(old(entries)[key], now);
        (hit ==> !calledFetcher && r == Returned(old(entries)[key].data) && entries == old(entries)) &&
        (!hit ==> calledFetcher && r == fetched) &&
        (!hit && fetched.Returned? ==> entries == old(entries)[key := Entry(fetched.value, later, ttl, key)]) &&
        (!hit && fetched.Threw? ==> entries == if valid then old(entries) else old(entries) - {key}) &&
        (if valid then hits == old(hits) + 1 && misses == old(misses) else hits == old(hits) && misses == old(misses) + 1)
    {
      var cached := Get(key, now);
      if cached != JNull {
        return Returned(cached), false;
      }
      calledFetcher := true;
      r := fetched;
      if fetched.Returned? {
        Set(key, fetched.value, ttl, later);
      }
    }

    /** `resetStats()`: zeroes the counters and re-reads the size. */
    method ResetStats()
      requires Inv()
      modifies this
      ensures Inv() && hits == 0 && misses == 0 && entries == old(entries)
    {
      hits, misses := 0, 0;
      size := |entries|;
    }
  }

  // ---------------------------------------------------------------------------
  // Properties of the store across calls

  /** A value written at `t0` is read back at `t1` while `t1 - t0 < ttl`. */
  method SetThenGet(c: CacheStore, key: string, v: Json, ttl: int, t0: int, t1: int) returns (r: Json)
    requires c.Inv() && t1 - t0 < ttl
    modifies c
    ensures r == v
  {
    c.Set(key, v, ttl, t0);
    r := c.Get(key, t1);
  }

  /** After `clearExpired`, `has` holds for every key left in the cache. */
  method ClearExpiredLeavesValid(c: CacheStore, now: int)
    requires c.Inv()
    modifies c
    ensures forall k :: k in c.entries ==> c.Has(k, now)
  {
    var _ := c.ClearExpired(now);
  }

  // ---------------------------------------------------------------------------
  // Key generation

  /** `Array.prototype.sort()` on strings: ascending by `<`. */
  function Insert(x: string, s: seq<string>): (r: seq<string>)
    ensures multiset(r) == multiset(s) + multiset{x}
    ensures |r| == |s| + 1
  {
    if s == [] then [x]
    else if LexLess(s[0], x) then
      assert s == [s[0]] + s[1..];
      [s[0]] + Insert(x, s[1..])
    else [x] + s
  }

  function SortKeys(s: seq<string>): (r: seq<string>)
    ensures multiset(r) == multiset(s)
  {
    if s == [] then []
    else
      assert s == [s[0]] + s[1..];
      Insert(s[0], SortKeys(s[1..]))
  }

  predicate StrictlySorted(s: seq<string>)
  {
    forall i, j :: 0 <= i < j < |s| ==> LexLess(s[i], s[j])
  }

  lemma {:induction false} InsertSorted(x: string, s: seq<string>)
    requires StrictlySorted(s) && x !in s
    ensures StrictlySorted(Insert(x, s))
  {
    if s != [] {
      if LexLess(s[0], x) {
        InsertSorted(x, s[1..]);
        var r := Insert(x, s[1..]);
        forall j | 0 <= j < |r| ensures LexLess(s[0], r[j]) {
          assert r[j] in multiset(r);
          if r[j] != x {
            assert r[j] in s[1..];
          }
        }
      } else {
        LexLessTotal(s[0], x);
        forall j | 0 <= j < |s| ensures LexLess(x, s[j]) {
          if j > 0 { LexLessTransitive(x, s[0], s[j]); }
        }
      }
    }
  }

  lemma {:induction false} SortKeysSorted(s: seq<string>)
    requires forall i, j :: 0 <= i < j < |s| ==> s[i] != s[j]
    ensures StrictlySorted(SortKeys(s))
  {
    if s != [] {
      SortKeysSorted(s[1..]);
      assert s[0] !in multiset(s[1..]);
      InsertSorted(s[0], SortKeys(s[1..]));
    }
  }

  /** The head of a strictly sorted sequence is below every later element. */
  lemma SortedHeadNotInTail(a: seq<string>)
    requires StrictlySorted(a) && a != []
    ensures a[0] !in a[1..]
  {
    if a[0] in a[1..] {
      var i :| 0 <= i < |a[1..]| && a[1..][i] == a[0];
      assert LexLess(a[0], a[i + 1]);
      LexLessIrreflexive(a[0]);
    }
  }

  /** A strictly sorted sequence starts with its least element. */
  lemma SortedHeadLeast(a: seq<string>, x: string)
    requires StrictlySorted(a) && x in a && x != a[0]
    ensures LexLess(a[0], x)
  {
    var i :| 0 <= i < |a| && a[i] == x;
  }

  /** Two strictly sorted sequences with the same elements are the same sequence. */
  lemma {:induction false} SortedUnique(a: seq<string>, b: seq<string>)
    requires StrictlySorted(a) && StrictlySorted(b)
    requires forall x :: x in a <==> x in b
    ensures a == b
  {
    assert a != [] ==> a[0] in a && a[0] in b;
    assert b != [] ==> b[0] in b && b[0] in a;
    if a != [] && b != [] {
      if a[0] != b[0] {
        SortedHeadLeast(a, b[0]);
        SortedHeadLeast(b, a[0]);
        LexLessAsymmetric(a[0], b[0]);
      }
      SortedHeadNotInTail(a);
      SortedHeadNotInTail(b);
      forall x ensures x in a[1..] <==> x in b[1..] {
        assert x in a <==> x == a[0] || x in a[1..];
        assert x in b <==> x == b[0] || x in b[1..];
      }
      SortedUnique(a[1..], b[1..]);
    }
  }

  /** The keys of a parameter object, in its own order. */
  function Keys(params: seq<(string, string)>): (r: seq<string>)
    ensures |r| == |params|
    ensures forall i :: 0 <= i < |params| ==> r[i] == params[i].0
  {
    if params == [] then [] else [params[0].0] + Keys(params[1..])
  }

  /** The object's keys are distinct, as a JavaScript object's keys are. */
  predicate DistinctKeys(params: seq<(string, string)>)
  {
    forall i, j :: 0 <= i < j < |params| ==> params[i].0 != params[j].0
  }

  /** `params[key]`, already rendered as a string. */
  function Lookup(params: seq<(string, string)>, key: string): string
  {
    if params == [] then ""
    else if params[0].0 == key then params[0].1
    else Lookup(params[1..], key)
  }

  function KeyParts(params: seq<(string, string)>, sorted: seq<string>): (r: seq<string>)
    ensures |r| == |sorted|
  {
    if sorted == [] then []
    else [sorted[0] + ":" + Lookup(params, sorted[0])] + KeyParts(params, sorted[1..])
  }

  /** `generateKey(prefix, params)`: `prefix:k1:v1|k2:v2…` over the sorted keys. */
  function GenerateKey(prefix: string, params: seq<(string, string)>): string
  {
    prefix + ":" + Join(KeyParts(params, SortKeys(Keys(params))), "|")
  }

  lemma {:induction false} LookupFinds(params: seq<(string, string)>, i: nat)
    requires DistinctKeys(params) && i < |params|
    ensures Lookup(params, params[i].0) == params[i].1
  {
    if i > 0 {
      LookupFinds(params[1..], i - 1);
    }
  }

  lemma {:induction false} KeyPartsAgree(p: seq<(string, string)>, q: seq<(string, string)>, sorted: seq<string>)
    requires forall k :: k in sorted ==> Lookup(p, k) == Lookup(q, k)
    ensures KeyParts(p, sorted) == KeyParts(q, sorted)
  {
    if sorted != [] {
      assert sorted[0] in sorted;
      KeyPartsAgree(p, q, sorted[1..]);
    }
  }

  /** Objects with the same pairs have the same key set. */
  lemma SameKeys(p: seq<(string, string)>, q: seq<(string, string)>, x: string)
    requires forall e :: e in p <==> e in q
    ensures x in Keys(p) <==> x in Keys(q)
  {
    if x in Keys(p) {
      var i :| 0 <= i < |p| && p[i].0 == x;
      assert p[i] in p;
      var j :| 0 <= j < |q| && q[j] == p[i];
      assert Keys(q)[j] == x;
    }
    if x in Keys(q) {
      var i :| 0 <= i < |q| && q[i].0 == x;
      assert q[i] in q;
      var j :| 0 <= j < |p| && p[j] == q[i];
      assert Keys(p)[j] == x;
    }
  }

  /** Objects with the same pairs and distinct keys give every key the same value. */
  lemma SameLookup(p: seq<(string, string)>, q: seq<(string, string)>, k: string)
    requires DistinctKeys(p) && DistinctKeys(q)
    requires forall e :: e in p <==> e in q
    requires k in Keys(p)
    ensures Lookup(p, k) == Lookup(q, k)
  {
    var i :| 0 <= i < |p| && Keys(p)[i] == k;
    assert p[i] in p;
    var j :| 0 <= j < |q| && q[j] == p[i];
    LookupFinds(p, i);
    LookupFinds(q, j);
  }

  /**
   * The generated key depends only on the set of (key, value) pairs, not on the
   * order in which the object's properties were created.
   */
  lemma GenerateKeyOrderIndependent(prefix: string, p: seq<(string, string)>, q: seq<(string, string)>)
    requires DistinctKeys(p) && DistinctKeys(q)
    requires forall e :: e in p <==> e in q
    ensures GenerateKey(prefix, p) == GenerateKey(prefix, q)
  {
    var sp, sq := SortKeys(Keys(p)), SortKeys(Keys(q));
    SortKeysSorted(Keys(p));
    SortKeysSorted(Keys(q));
    forall x ensures x in sp <==> x in sq {
      assert x in sp <==> x in multiset(Keys(p));
      assert x in sq <==> x in multiset(Keys(q));
      SameKeys(p, q, x);
    }
    SortedUnique(sp, sq);
    forall k | k in sp ensures Lookup(p, k) == Lookup(q, k) {
      assert k in multiset(Keys(p));
      SameLookup(p, q, k);
    }
    KeyPartsAgree(p, q, sp);
  }
}
