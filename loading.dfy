/**
 * The loading registry of `useLoading`: an insertion-ordered map from loading ids to
 * their state, a global flag that says whether the map is non-empty, and the calls
 * into the `api` store's spinner flag and the `ui` store's overlay.
 *
 * The map is a sequence with distinct ids: `Map.set` on a present key keeps its
 * place, on a new key appends, and iteration follows that order. `Date.now()` and
 * generated ids are parameters; the timer a start arms is recorded and its firing is
 * the method `TimerFires`.
 */
module Loading {
  import opened Base
  import ApiStore
  import UiStore

  /** `LoadingState`; the progress is always present once stored, because `startLoading` defaults it to 0. */
  datatype LoadingState = LoadingState(id: string, message: Option<string>, progress: int, startTime: int, timeout: int)

  /** `LoadingOptions & { id?: string }` */
  datatype LoadingOptions = LoadingOptions(
    id: Option<string>,
    message: Option<string>,
    progress: Option<int>,
    timeout: Option<int>,
    showSpinner: Option<bool>,
    showOverlay: Option<bool>)

  const DefaultTimeout := 30000

  predicate Has(s: seq<LoadingState>, id: string)
  {
    exists i :: 0 <= i < |s| && s[i].id == id
  }

  predicate DistinctIds(s: seq<LoadingState>)
  {
    forall i, j :: 0 <= i < j < |s| ==> s[i].id != s[j].id
  }

  /** `Map.get(id)` */
  function Find(s: seq<LoadingState>, id: string): (r: Option<LoadingState>)
    ensures r.Some? ==> r.value in s && r.value.id == id
    ensures r.None? <==> !Has(s, id)
  {
    if s == [] then None
    else if s[0].id == id then Some(s[0])
    else
      var r := Find(s[1..], id);
      assert r.Some? ==> r.value in s;
      assert Has(s, id) && s[0].id != id ==> Has(s[1..], id) by {
        if Has(s, id) && s[0].id != id {
          var i :| 0 <= i < |s| && s[i].id == id;
          assert s[1..][i - 1].id == id;
        }
      }
      r
  }

  /** Every entry with the id of `st` replaced by `st`; nothing else moves. */
  function Replace(s: seq<LoadingState>, st: LoadingState): (r: seq<LoadingState>)
    ensures |r| == |s|
    ensures forall i :: 0 <= i < |s| ==> r[i] == (if s[i].id == st.id then st else s[i])
  {
    if s == [] then [] else [if s[0].id == st.id then st else s[0]] + Replace(s[1..], st)
  }

  /** `Map.set(st.id, st)`: replaced in place when present, appended otherwise. */
  function Put(s: seq<LoadingState>, st: LoadingState): (r: seq<LoadingState>)
    ensures Has(s, st.id) ==> |r| == |s|
    ensures !Has(s, st.id) ==> r == s + [st]
  {
    if Has(s, st.id) then Replace(s, st) else s + [st]
  }

  /** `Map.delete(id)` */
  function Remove(s: seq<LoadingState>, id: string): (r: seq<LoadingState>)
    ensures |r| <= |s|
    ensures forall x :: x in r <==> x in s && x.id != id
    ensures !Has(r, id)
  {
    if s == [] then []
    else if s[0].id == id then Remove(s[1..], id)
    else [s[0]] + Remove(s[1..], id)
  }

  /** After `set`, the id maps to the new state and every other id keeps its state. */
  lemma PutFind(s: seq<LoadingState>, st: LoadingState, k: string)
    requires DistinctIds(s)
    ensures DistinctIds(Put(s, st))
    ensures Find(Put(s, st), st.id) == Some(st)
    ensures k != st.id ==> Find(Put(s, st), k) == Find(s, k)
  {
    var r := Put(s, st);
    assert r[..|s|] == s || |r| == |s|;
    PutDistinct(s, st);
    FindDistinct(r, st);
    if k != st.id {
      FindPointwise(s, r, k, st.id);
    }
  }

  lemma PutDistinct(s: seq<LoadingState>, st: LoadingState)
    requires DistinctIds(s)
    ensures DistinctIds(Put(s, st))
  {
    var r := Put(s, st);
    if !Has(s, st.id) {
      assert forall i :: 0 <= i < |s| ==> s[i].id != st.id;
    }
  }

  /** In a sequence with distinct ids, an element's id finds that element. */
  lemma FindDistinct(s: seq<LoadingState>, st: LoadingState)
    requires DistinctIds(s) && st in s
    ensures Find(s, st.id) == Some(st)
  {
    if s[0] != st {
      assert s[0].id != st.id by {
        var j :| 0 <= j < |s| && s[j] == st;
      }
      assert st in s[1..];
      FindDistinct(s[1..], st);
    }
  }

  /** Two sequences that agree on every element whose id is not `other` agree on finding `k`. */
  lemma FindPointwise(s: seq<LoadingState>, r: seq<LoadingState>, k: string, other: string)
    requires k != other
    requires |s| <= |r|
    requires forall i :: 0 <= i < |s| ==> (s[i].id == other <==> r[i].id == other)
    requires forall i :: 0 <= i < |s| && s[i].id != other ==> r[i] == s[i]
    requires forall i :: |s| <= i < |r| ==> r[i].id == other
    ensures Find(r, k) == Find(s, k)
  {
    if s == [] {
      assert !Has(r, k);
    } else {
      FindPointwise(s[1..], r[1..], k, other);
    }
  }

  lemma RemoveDistinct(s: seq<LoadingState>, id: string)
    requires DistinctIds(s)
    ensures DistinctIds(Remove(s, id)) && !Has(Remove(s, id), id)
    ensures Has(s, id) ==> |Remove(s, id)| == |s| - 1
    ensures !Has(s, id) ==> Remove(s, id) == s
  {
    RemoveKeepsDistinct(s, id);
    RemoveCount(s, id);
  }

  lemma {:induction false} RemoveKeepsDistinct(s: seq<LoadingState>, id: string)
    requires DistinctIds(s)
    ensures DistinctIds(Remove(s, id))
  {
    if s != [] {
      RemoveKeepsDistinct(s[1..], id);
      if s[0].id != id {
        var t := Remove(s[1..], id);
        forall j | 0 <= j < |t| ensures t[j].id != s[0].id {
          assert t[j] in s[1..];
          var k :| 0 <= k < |s[1..]| && s[1..][k] == t[j];
          assert s[k + 1] == t[j];
        }
      }
    }
  }

  lemma {:induction false} RemoveCount(s: seq<LoadingState>, id: string)
    requires DistinctIds(s)
    ensures Has(s, id) ==> |Remove(s, id)| == |s| - 1
    ensures !Has(s, id) ==> Remove(s, id) == s
  {
    if s != [] {
      TailDistinct(s);
      RemoveCount(s[1..], id);
      HasSplit(s, id);
      if s[0].id == id {
        HeadNotInTail(s);
      } else {
        assert [s[0]] + s[1..] == s;
      }
    }
  }

  lemma TailDistinct(s: seq<LoadingState>)
    requires s != [] && DistinctIds(s)
    ensures DistinctIds(s[1..])
  {
    forall i, j | 0 <= i < j < |s[1..]| ensures s[1..][i].id != s[1..][j].id {
      assert s[1..][i] == s[i + 1] && s[1..][j] == s[j + 1];
    }
  }

  /** An id is present when it heads the sequence or is present in its tail. */
  lemma HasSplit(s: seq<LoadingState>, id: string)
    requires s != []
    ensures Has(s, id) <==> s[0].id == id || Has(s[1..], id)
  {
    if Has(s, id) && s[0].id != id {
      var i :| 0 <= i < |s| && s[i].id == id;
      assert s[1..][i - 1].id == id;
    }
    if Has(s[1..], id) {
      var i :| 0 <= i < |s[1..]| && s[1..][i].id == id;
      assert s[i + 1].id == id;
    }
  }

  lemma HeadNotInTail(s: seq<LoadingState>)
    requires s != [] && DistinctIds(s)
    ensures !Has(s[1..], s[0].id)
  {
    forall i | 0 <= i < |s[1..]| ensures s[1..][i].id != s[0].id {
      assert s[1..][i] == s[i + 1];
    }
  }

  /** Removing an id undoes storing under it: `set` then `delete` is `delete` alone. */
  lemma {:induction false} RemovePut(s: seq<LoadingState>, st: LoadingState)
    ensures Remove(Put(s, st), st.id) == Remove(s, st.id)
  {
    if Has(s, st.id) {
      RemoveReplace(s, st);
    } else {
      RemoveAppend(s, st);
    }
  }

  lemma {:induction false} RemoveReplace(s: seq<LoadingState>, st: LoadingState)
    ensures Remove(Replace(s, st), st.id) == Remove(s, st.id)
  {
    if s != [] {
      RemoveReplace(s[1..], st);
      assert Replace(s, st)[1..] == Replace(s[1..], st);
    }
  }

  lemma {:induction false} RemoveAppend(s: seq<LoadingState>, st: LoadingState)
    ensures Remove(s + [st], st.id) == Remove(s, st.id)
  {
    if s == [] {
      assert Remove([st], st.id) == Remove([st][1..], st.id);
    } else {
      RemoveAppend(s[1..], st);
      assert (s + [st])[1..] == s[1..] + [st];
    }
  }

  /** `Math.min(100, Math.max(0, p))` */
  function Clamp(p: int): (r: int)
    ensures 0 <= r <= 100
    ensures 0 <= p <= 100 ==> r == p
  {
    Min(100, Max(0, p))
  }

  function SumProgress(s: seq<LoadingState>): int
  {
    if s == [] then 0 else s[0].progress + SumProgress(s[1..])
  }

  /** `averageProgress`: 0 with no entries, else `Math.round` of the mean progress. */
  function MeanProgress(s: seq<LoadingState>): (r: int)
    ensures s == [] ==> r == 0
    ensures s != [] ==> 2 * |s| * r <= 2 * SumProgress(s) + |s| < 2 * |s| * (r + 1)
  {
    if s == [] then 0 else (2 * SumProgress(s) + |s|) / (2 * |s|)
  }

  predicate ProgressInRange(s: seq<LoadingState>)
  {
    forall i :: 0 <= i < |s| ==> 0 <= s[i].progress <= 100
  }

  lemma {:induction false} SumProgressBounds(s: seq<LoadingState>)
    requires ProgressInRange(s)
    ensures 0 <= SumProgress(s) <= 100 * |s|
  {
    if s != [] {
      assert ProgressInRange(s[1..]) by {
        forall i | 0 <= i < |s[1..]| ensures 0 <= s[1..][i].progress <= 100 { assert s[1..][i] == s[i + 1]; }
      }
      SumProgressBounds(s[1..]);
    }
  }

  /** When every stored progress is in [0, 100], so is the average. */
  lemma AverageProgressBounds(s: seq<LoadingState>)
    requires ProgressInRange(s)
    ensures 0 <= MeanProgress(s) <= 100
  {
    if s != [] {
      SumProgressBounds(s);
      var n := |s|;
      var r := MeanProgress(s);
      if r > 100 {
        assert 2 * n * r >= 2 * n * 101 by { MulMono(2 * n, 101, r); }
      }
    }
  }

  lemma MulMono(k: nat, a: int, b: int)
    requires a <= b
    ensures k * a <= k * b
  {
  }

  /** `getLoadingStatesWithMessage`: the states whose message is truthy, in order. */
  function WithMessage(s: seq<LoadingState>): (r: seq<LoadingState>)
    ensures forall x :: x in r <==> x in s && TruthyStr(x.message)
    ensures |r| <= |s|
  {
    if s == [] then []
    else (if TruthyStr(s[0].message) then [s[0]] else []) + WithMessage(s[1..])
  }

  /** The state `startLoading` stores. */
  function NewState(loadingId: string, options: LoadingOptions, now: int): LoadingState
  {
    LoadingState(loadingId, options.message, Pick(options.progress, 0), now, Pick(options.timeout, DefaultTimeout))
  }

  function Pick<T>(o: Option<T>, d: T): T
  {
    if o.Some? then o.value else d
  }

  class LoadingRegistry {
    var states: seq<LoadingState>
    var globalLoading: bool
    /** The `(id, delay)` of every timer armed by `startLoading`, in order. */
    var timers: seq<(string, int)>
    const api: ApiStore.ApiStore
    const ui: UiStore.UiStore

    /** `globalLoading` is true exactly when some state is stored; ids are distinct. */
    predicate Valid()
      reads this
    {
      DistinctIds(states) && globalLoading == (|states| > 0)
    }

    constructor(api: ApiStore.ApiStore, ui: UiStore.UiStore)
      ensures Valid() && states == [] && !globalLoading && timers == []
      ensures this.api == api && this.ui == ui
    {
      this.api := api;
      this.ui := ui;
      states := [];
      globalLoading := false;
      timers := [];
    }

    predicate IsLoading(id: string)
      reads this
    {
      Has(states, id)
    }

    function GetLoadingState(id: string): Option<LoadingState>
      reads this
    {
      Find(states, id)
    }

    function LoadingCount(): nat
      reads this
    {
      |states|
    }

    /** `hasActiveLoading` is `loadingCount > 0`, and with the invariant it is the global flag. */
    predicate HasActiveLoading()
      reads this
      ensures Valid() ==> (HasActiveLoading() <==> globalLoading)
    {
      |states| > 0
    }

    function AverageProgress(): (r: int)
      reads this
      ensures states == [] ==> r == 0
    {
      MeanProgress(states)
    }

    /** `getLoadingDuration(id)` at time `now`: 0 for an unknown id. */
    function GetLoadingDuration(id: string, now: int): (r: int)
      reads this
      ensures !IsLoading(id) ==> r == 0
      ensures Find(states, id).Some? ==> r == now - Find(states, id).value.startTime
    {
      var st := Find(states, id);
      if st.Some? then now - st.value.startTime else 0
    }

    /**
     * `startLoading(id, options)`: stores a fresh state under `id` (or the generated
     * id), raises the global flag, the `api` loading flag and the overlay, and arms a
     * timer when the timeout is positive.
     */
    method StartLoading(id: Option<string>, options: LoadingOptions, generatedId: string, now: int)
      returns (loadingId: string)
      requires Valid()
      modifies this, api, ui
      ensures Valid() && loadingId == OrElse(id, generatedId)
      ensures states == Put(old(states), NewState(loadingId, options, now))
      ensures GetLoadingState(loadingId) == Some(NewState(loadingId, options, now)) && globalLoading
      ensures forall k :: k != loadingId ==> Find(states, k) == Find(old(states), k)
      ensures timers == old(timers) + (if Pick(options.timeout, DefaultTimeout) > 0 then [(loadingId, Pick(options.timeout, DefaultTimeout))] else [])
      ensures api.loading && ui.loadingOverlay
      ensures api.errors == old(api.errors) && api.requestCount == old(api.requestCount) && api.cache == old(api.cache)
      ensures ui.notifications == old(ui.notifications) && ui.modals == old(ui.modals)
    {
      loadingId := OrElse(id, generatedId);
      var st := NewState(loadingId, options, now);
      forall k ensures k != loadingId ==> Find(Put(states, st), k) == Find(states, k) {
        PutFind(states, st, k);
      }
      PutFind(states, st, loadingId);
      states := Put(states, st);
      globalLoading := true;
      api.SetLoading(true);
      ui.SetLoadingOverlay(true);
      if st.timeout > 0 {
        timers := timers + [(loadingId, st.timeout)];
      }
    }

    /** `stopLoading(id)`: forgets `id`; the last one to go lowers all three flags. */
    method StopLoading(id: string)
      requires Valid()
      modifies this, api, ui
      ensures Valid() && states == Remove(old(states), id) && !IsLoading(id)
      ensures old(IsLoading(id)) ==> |states| == |old(states)| - 1
      ensures timers == old(timers)
      ensures states == [] ==> !globalLoading && !api.loading && !ui.loadingOverlay
      ensures states != [] ==> globalLoading == old(globalLoading)
      ensures states != [] ==> api.loading == old(api.loading) && ui.loadingOverlay == old(ui.loadingOverlay)
      ensures api.errors == old(api.errors) && api.requestCount == old(api.requestCount) && api.cache == old(api.cache)
      ensures ui.notifications == old(ui.notifications) && ui.modals == old(ui.modals)
      ensures ui.theme == old(ui.theme) && ui.sidebarOpen == old(ui.sidebarOpen) && ui.scheduled == old(ui.scheduled)
    {
      RemoveDistinct(states, id);
      states := Remove(states, id);
      if |states| == 0 {
        globalLoading := false;
        api.SetLoading(false);
        ui.SetLoadingOverlay(false);
      }
    }

    /** `updateProgress(id, p)`: the entry's progress becomes `p` clamped to [0, 100]; unknown ids are ignored. */
    method UpdateProgress(id: string, progress: int)
      requires Valid()
      modifies this
      ensures Valid() && globalLoading == old(globalLoading) && timers == old(timers)
      ensures !old(IsLoading(id)) ==> states == old(states)
      ensures old(IsLoading(id)) ==> states == Replace(old(states), old(Find(states, id)).value.(progress := Clamp(progress)))
      ensures old(IsLoading(id)) ==> Find(states, id).Some? && Find(states, id).value.progress == Clamp(progress)
      ensures forall k :: k != id ==> Find(states, k) == Find(old(states), k)
    {
      var cur := Find(states, id);
      if cur.Some? {
        var st := cur.value.(progress := Clamp(progress));
        forall k ensures Find(Put(states, st), k) == (if k == id then Some(st) else Find(states, k)) {
          PutFind(states, st, k);
        }
        states := Put(states, st);
      }
    }

    /** `updateMessage(id, m)`: only that entry's message changes; unknown ids are ignored. */
    method UpdateMessage(id: string, message: string)
      requires Valid()
      modifies this
      ensures Valid() && globalLoading == old(globalLoading) && timers == old(timers)
      ensures !old(IsLoading(id)) ==> states == old(states)
      ensures old(IsLoading(id)) ==> states == Replace(old(states), old(Find(states, id)).value.(message := Some(message)))
      ensures forall k :: k != id ==> Find(states, k) == Find(old(states), k)
    {
      var cur := Find(states, id);
      if cur.Some? {
        var st := cur.value.(message := Some(message));
        forall k ensures k != id ==> Find(Put(states, st), k) == Find(states, k) {
          PutFind(states, st, k);
        }
        states := Put(states, st);
      }
    }

    /** `stopAllLoading()`: nothing stored, every flag down. */
    method StopAllLoading()
      modifies this, api, ui
      ensures Valid() && states == [] && !globalLoading && !api.loading && !ui.loadingOverlay
      ensures timers == old(timers)
      ensures api.errors == old(api.errors) && api.requestCount == old(api.requestCount) && api.cache == old(api.cache)
      ensures ui.notifications == old(ui.notifications) && ui.modals == old(ui.modals)
    {
      states := [];
      globalLoading := false;
      api.SetLoading(false);
      ui.SetLoadingOverlay(false);
    }

    /** A timer armed for `id` fires: the entry is stopped if it is still there. */
    method TimerFires(id: string)
      requires Valid()
      modifies this, api, ui
      ensures Valid() && states == Remove(old(states), id) && timers == old(timers)
      ensures !old(IsLoading(id)) ==> states == old(states)
      ensures old(IsLoading(id)) && states == [] ==> !globalLoading && !api.loading && !ui.loadingOverlay
      ensures !(old(IsLoading(id)) && states == []) ==>
                globalLoading == old(globalLoading) && api.loading == old(api.loading)
                && ui.loadingOverlay == old(ui.loadingOverlay)
      ensures api.errors == old(api.errors) && api.requestCount == old(api.requestCount) && api.cache == old(api.cache)
      ensures ui.notifications == old(ui.notifications) && ui.modals == old(ui.modals)
      ensures ui.theme == old(ui.theme) && ui.sidebarOpen == old(ui.sidebarOpen) && ui.scheduled == old(ui.scheduled)
    {
      if IsLoading(id) {
        StopLoading(id);
      } else {
        RemoveDistinct(states, id);
      }
    }

    /**
     * `withLoading(operation, options)`, the operation ending with `result`: the entry
     * it started is gone afterwards whether the operation returned or threw, and the
     * outcome is passed through. A state stored earlier under the same id is gone too.
     */
    method WithLoading<T>(options: LoadingOptions, generatedId: string, now: int, result: Outcome<T>)
      returns (r: Outcome<T>)
      requires Valid()
      modifies this, api, ui
      ensures Valid() && r == result
      ensures states == Remove(old(states), OrElse(options.id, generatedId))
      ensures states == [] ==> !api.loading && !ui.loadingOverlay
      ensures states != [] ==> api.loading && ui.loadingOverlay
    {
      var loadingId := StartLoading(options.id, options, generatedId, now);
      r := result;
      RemovePut(old(states), NewState(loadingId, options, now));
      StopLoading(loadingId);
    }

    /**
     * `withProgress(operation, options)`: as `withLoading`, the operation reporting the
     * progress values `updates` in turn before it ends with `result`.
     */
    method WithProgress<T>(options: LoadingOptions, generatedId: string, now: int, updates: seq<int>, result: Outcome<T>)
      returns (r: Outcome<T>)
      requires Valid()
      modifies this, api, ui
      ensures Valid() && r == result
      ensures states == Remove(old(states), OrElse(options.id, generatedId))
    {
      var loadingId := StartLoading(options.id, options, generatedId, now);
      RemovePut(old(states), NewState(loadingId, options, now));
      var i := 0;
      while i < |updates|
        invariant 0 <= i <= |updates|
        invariant Valid() && IsLoading(loadingId)
        invariant Remove(states, loadingId) == Remove(old(states), loadingId)
      {
        ghost var before := states;
        UpdateProgress(loadingId, updates[i]);
        RemoveReplace(before, Find(before, loadingId).value.(progress := Clamp(updates[i])));
        i := i + 1;
      }
      r := result;
      StopLoading(loadingId);
    }
  }
}
