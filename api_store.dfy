/**
 * The `api` store: a loading flag, a de-duplicating list of errors, a small
 * timestamped data cache and the number of requests in flight.
 *
 * `Date.now()` and `new Date().toISOString()` are the parameters `now`, `id` and
 * `timestamp`; the awaited function of `withRequestTracking` is its outcome.
 */
module ApiStore {
  import opened Base
  import opened Query

  /** An error as it is handed to `addError`. */
  datatype ApiError = ApiError(message: string, code: Option<Code>, name: Option<string>)

  /** The stored form: the error plus a generated id and timestamp. */
  datatype StoredError = StoredError(error: ApiError, id: string, timestamp: string)

  datatype CachedData = CachedData(data: Json, timestamp: int, ttl: int)

  const DefaultTtl: int := 5 * 60 * 1000

  /** The findIndex test of `addError`: same message and same code. */
  predicate SameKey(e: StoredError, a: ApiError)
  {
    e.error.message == a.message && e.error.code == a.code
  }

  predicate HasDuplicate(es: seq<StoredError>, a: ApiError)
  {
    exists i :: 0 <= i < |es| && SameKey(es[i], a)
  }

  /** No two stored errors share (message, code). */
  predicate NoDuplicates(es: seq<StoredError>)
  {
    forall i, j :: 0 <= i < j < |es| ==> !SameKey(es[i], es[j].error)
  }

  /** `errors.filter(e => e.id !== errorId)` */
  function WithoutId(es: seq<StoredError>, id: string): (r: seq<StoredError>)
    ensures |r| <= |es|
    ensures forall e :: e in r <==> e in es && e.id != id
  {
    if es == [] then []
    else if es[0].id != id then [es[0]] + WithoutId(es[1..], id)
    else WithoutId(es[1..], id)
  }

  /** Filtering keeps the relative order, so it never creates a duplicate. */
  lemma {:induction false} WithoutIdNoDuplicates(es: seq<StoredError>, id: string)
    requires NoDuplicates(es)
    ensures NoDuplicates(WithoutId(es, id))
  {
    if es != [] {
      TailNoDuplicates(es);
      WithoutIdNoDuplicates(es[1..], id);
      if es[0].id != id {
        var rest := WithoutId(es[1..], id);
        forall j | 0 <= j < |rest| ensures !SameKey(es[0], rest[j].error) {
          assert rest[j] in es[1..];
          var k :| 0 <= k < |es[1..]| && es[1..][k] == rest[j];
          assert es[k + 1] == rest[j];
        }
        ConsNoDuplicates(es[0], rest);
      }
    }
  }

  lemma TailNoDuplicates(es: seq<StoredError>)
    requires es != [] && NoDuplicates(es)
    ensures NoDuplicates(es[1..])
  {
    forall i, j | 0 <= i < j < |es[1..]| ensures !SameKey(es[1..][i], es[1..][j].error) {
      assert es[1..][i] == es[i + 1] && es[1..][j] == es[j + 1];
    }
  }

  lemma ConsNoDuplicates(e: StoredError, rest: seq<StoredError>)
    requires NoDuplicates(rest)
    requires forall j :: 0 <= j < |rest| ==> !SameKey(e, rest[j].error)
    ensures NoDuplicates([e] + rest)
  {
    var r := [e] + rest;
    forall i, j | 0 <= i < j < |r| ensures !SameKey(r[i], r[j].error) {
      assert r[j] == rest[j - 1];
      if i > 0 {
        assert r[i] == rest[i - 1];
      }
    }
  }

  /** Removing an id leaves no error with that id, and removing it again changes nothing. */
  lemma {:induction false} WithoutIdIdempotent(es: seq<StoredError>, id: string)
    ensures WithoutId(WithoutId(es, id), id) == WithoutId(es, id)
  {
    if es != [] {
      WithoutIdIdempotent(es[1..], id);
    }
  }

  /** An id that no error carries removes nothing. */
  lemma {:induction false} WithoutAbsentId(es: seq<StoredError>, id: string)
    requires forall i :: 0 <= i < |es| ==> es[i].id != id
    ensures WithoutId(es, id) == es
  {
    if es != [] {
      assert es == [es[0]] + es[1..];
      WithoutAbsentId(es[1..], id);
    }
  }

  /** One step of the request counter: `++` for a start, `Math.max(0, c - 1)` for a finish. */
  function Step(c: nat, start: bool): (r: nat)
  {
    if start then c + 1 else Max(0, c - 1)
  }

  /** The counter after a sequence of start (true) and finish (false) events. */
  function Run(c: nat, events: seq<bool>): nat
  {
    if events == [] then c else Step(Run(c, events[..|events| - 1]), events[|events| - 1])
  }

  function Starts(events: seq<bool>): nat
  {
    if events == [] then 0
    else Starts(events[..|events| - 1]) + (if events[|events| - 1] then 1 else 0)
  }

  function Finishes(events: seq<bool>): nat
  {
    if events == [] then 0
    else Finishes(events[..|events| - 1]) + (if events[|events| - 1] then 0 else 1)
  }

  /** Every finish is matched by an earlier start. */
  predicate Matched(events: seq<bool>)
  {
    forall k :: 0 <= k <= |events| ==> Finishes(events[..k]) <= Starts(events[..k])
  }

  /**
   * With matched starts and finishes, in any interleaving, the counter is exactly the
   * number of requests still in flight: the clamp at 0 never fires.
   */
  lemma {:induction false} RunMatched(c: nat, events: seq<bool>)
    requires Matched(events)
    ensures Run(c, events) == c + Starts(events) - Finishes(events)
  {
    if events != [] {
      var init := events[..|events| - 1];
      forall k | 0 <= k <= |init| ensures Finishes(init[..k]) <= Starts(init[..k]) {
        assert init[..k] == events[..k];
      }
      RunMatched(c, init);
      assert events[..|events|] == events;
    }
  }

  /**
   * A finish that arrives while the counter is 0 is absorbed by the clamp: whatever
   * follows runs exactly as if it had never happened.
   */
  lemma {:induction false} FinishAtZero(events: seq<bool>)
    ensures Run(0, [false] + events) == Run(0, events)
  {
    if events == [] {
      assert [false] + events == [false];
      assert [false][..0] == [];
    } else {
      var init := events[..|events| - 1];
      FinishAtZero(init);
      assert ([false] + events)[..|events|] == [false] + init;
      assert ([false] + events)[|events|] == events[|events| - 1];
    }
  }

  class ApiStore {
    var loading: bool
    var errors: seq<StoredError>
    var cache: map<string, CachedData>
    var requestCount: nat

    ghost predicate Inv()
      reads this
    {
      NoDuplicates(errors)
    }

    constructor()
      ensures Inv()
      ensures !loading && errors == [] && cache == map[] && requestCount == 0
    {
      loading := false;
      errors := [];
      cache := map[];
      requestCount := 0;
    }

    predicate HasErrors()
      reads this
    {
      |errors| > 0
    }

    predicate IsRequesting()
      reads this
    {
      requestCount > 0
    }

    method SetLoading(isLoading: bool)
      modifies this
      ensures loading == isLoading
      ensures errors == old(errors) && cache == old(cache) && requestCount == old(requestCount)
    {
      loading := isLoading;
    }

    /** Appends the error unless one with the same message and code is stored already. */
    method AddError(error: ApiError, id: string, timestamp: string)
      requires Inv()
      modifies this
      ensures Inv()
      ensures HasDuplicate(old(errors), error) ==> errors == old(errors)
      ensures !HasDuplicate(old(errors), error) ==> errors == old(errors) + [StoredError(error, id, timestamp)]
      ensures HasDuplicate(errors, error)
      ensures loading == old(loading) && cache == old(cache) && requestCount == old(requestCount)
    {
      var i := 0;
      while i < |errors| && !SameKey(errors[i], error)
        invariant 0 <= i <= |errors|
        invariant forall k :: 0 <= k < i ==> !SameKey(errors[k], error)
      {
        i := i + 1;
      }
      var found := i < |errors|;
      if !found {
        var e := StoredError(error, id, timestamp);
        errors := errors + [e];
        assert SameKey(errors[|errors| - 1], error);
      }
    }

    method ClearErrors()
      modifies this
      ensures Inv() && errors == [] && !HasErrors()
      ensures loading == old(loading) && cache == old(cache) && requestCount == old(requestCount)
    {
      errors := [];
    }

    method RemoveError(errorId: string)
      requires Inv()
      modifies this
      ensures Inv()
      ensures errors == WithoutId(old(errors), errorId)
      ensures forall i :: 0 <= i < |errors| ==> errors[i].id != errorId
      ensures loading == old(loading) && cache == old(cache) && requestCount == old(requestCount)
    {
      WithoutIdNoDuplicates(errors, errorId);
      errors := WithoutId(errors, errorId);
      assert forall i :: 0 <= i < |errors| ==> errors[i] in errors;
    }

    method ClearCache()
      modifies this
      ensures cache == map[]
      ensures loading == old(loading) && errors == old(errors) && requestCount == old(requestCount)
    {
      cache := map[];
    }

    /** The data of an entry still inside its ttl at `now`, else null; nothing is deleted. */
    function GetCachedData(key: string, now: int): (r: Json)
      reads this
      ensures key in cache && now - cache[key].timestamp < cache[key].ttl ==> r == cache[key].data
      ensures !(key in cache && now - cache[key].timestamp < cache[key].ttl) ==> r == JNull
    {
      if key in cache && now - cache[key].timestamp < cache[key].ttl then cache[key].data else JNull
    }

    method SetCachedData(key: string, data: Json, ttl: int, now: int)
      modifies this
      ensures cache == old(cache)[key := CachedData(data, now, ttl)]
      ensures loading == old(loading) && errors == old(errors) && requestCount == old(requestCount)
    {
      cache := cache[key := CachedData(data, now, ttl)];
    }

    method IncrementRequestCount()
      modifies this
      ensures requestCount == Step(old(requestCount), true) && IsRequesting()
      ensures loading == old(loading) && errors == old(errors) && cache == old(cache)
    {
      requestCount := requestCount + 1;
    }

    method DecrementRequestCount()
      modifies this
      ensures requestCount == Step(old(requestCount), false)
      ensures old(requestCount) <= 1 ==> !IsRequesting()
      ensures loading == old(loading) && errors == old(errors) && cache == old(cache)
    {
      requestCount := Max(0, requestCount - 1);
    }

    /**
     * `withRequestTracking(fn)`: the count is one higher while `fn` runs (`during`), and
     * back to its prior value afterwards whether `fn` returned or threw; the outcome of
     * `fn` is passed through.
     */
    method WithRequestTracking<T>(result: Outcome<T>) returns (r: Outcome<T>, during: nat)
      modifies this
      ensures during == old(requestCount) + 1 && during > 0
      ensures r == result
      ensures requestCount == old(requestCount)
      ensures loading == old(loading) && errors == old(errors) && cache == old(cache)
    {
      IncrementRequestCount();
      during := requestCount;
      r := result;
      DecrementRequestCount();
    }
  }

  /** `setCachedData` at `t0` then `getCachedData` at `t1` inside the ttl gives the data back. */
  method SetThenGetCached(s: ApiStore, key: string, data: Json, ttl: int, t0: int, t1: int) returns (r: Json)
    requires t1 - t0 < ttl
    modifies s
    ensures r == data
  {
    s.SetCachedData(key, data, ttl, t0);
    r := s.GetCachedData(key, t1);
  }

  /** `getCachedData` past the ttl gives null but keeps the entry. */
  method ExpiredStaysCached(s: ApiStore, key: string, data: Json, ttl: int, t0: int, t1: int) returns (r: Json)
    requires t1 - t0 >= ttl
    modifies s
    ensures r == JNull && key in s.cache
  {
    s.SetCachedData(key, data, ttl, t0);
    r := s.GetCachedData(key, t1);
  }
}
