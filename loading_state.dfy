/**
 * The second loading registry (`useLoadingState`). It stores states exactly as
 * `useLoading` does, but raises the `api` spinner only when `showSpinner` (default
 * true) and the overlay only when `showOverlay` (default false), and it can run an
 * operation inside the `api` store's request tracking.
 *
 * `isAnyLoading` reads `isRequesting` as it was when the composable was set up: the
 * value is taken out of the store once, so later requests do not reach it.
 */
module LoadingStateRegistry {
  import opened Base
  import opened Loading
  import ApiStore
  import UiStore

  class LoadingStates {
    var states: seq<LoadingState>
    var globalLoading: bool
    var timers: seq<(string, int)>
    const api: ApiStore.ApiStore
    const ui: UiStore.UiStore
    /** `isRequesting` as read at setup. */
    const requestingAtSetup: bool

    predicate Valid()
      reads this
    {
      DistinctIds(states) && globalLoading == (|states| > 0)
    }

    constructor(api: ApiStore.ApiStore, ui: UiStore.UiStore)
      ensures Valid() && states == [] && !globalLoading && timers == []
      ensures this.api == api && this.ui == ui && requestingAtSetup == api.IsRequesting()
    {
      this.api := api;
      this.ui := ui;
      requestingAtSetup := api.IsRequesting();
      states := [];
      globalLoading := false;
      timers := [];
    }

    predicate IsLoading(id: string)
      reads this
    {
      Has(states, id)
    }

    function GetLoadingState(id: string): Option<LoadingState>
      reads this
    {
      Find(states, id)
    }

    /** `hasActiveLoading` and `activeLoadingCount` follow the number of stored states. */
    function ActiveLoadingCount(): (r: nat)
      reads this
      ensures Valid() ==> (r > 0 <==> globalLoading)
    {
      |states|
    }

    predicate HasActiveLoading()
      reads this
      ensures Valid() ==> (HasActiveLoading() <==> globalLoading)
    {
      |states| > 0
    }

    /** `isAnyLoading`: the global flag, or the request flag read at setup. */
    predicate IsAnyLoading()
      reads this
      ensures Valid() && |states| > 0 ==> IsAnyLoading()
    {
      globalLoading || requestingAtSetup
    }

    function GetLoadingDuration(id: string, now: int): (r: int)
      reads this
      ensures !IsLoading(id) ==> r == 0
      ensures Find(states, id).Some? ==> r == now - Find(states, id).value.startTime
    {
      var st := Find(states, id);
      if st.Some? then now - st.value.startTime else 0
    }

    /**
     * `startLoading(id, options)`: stores a fresh state and raises the global flag; the
     * overlay is raised only when `showOverlay` is true and the `api` spinner only
     * when `showSpinner` is not false.
     */
    method StartLoading(id: Option<string>, options: LoadingOptions, generatedId: string, now: int)
      returns (loadingId: string)
      requires Valid()
      modifies this, api, ui
      ensures Valid() && loadingId == OrElse(id, generatedId) && globalLoading
      ensures states == Put(old(states), NewState(loadingId, options, now))
      ensures GetLoadingState(loadingId) == Some(NewState(loadingId, options, now))
      ensures forall k :: k != loadingId ==> Find(states, k) == Find(old(states), k)
      ensures timers == old(timers) + (if Pick(options.timeout, DefaultTimeout) > 0 then [(loadingId, Pick(options.timeout, DefaultTimeout))] else [])
      ensures ui.loadingOverlay == (if Pick(options.showOverlay, false) then true else old(ui.loadingOverlay))
      ensures api.loading == (if Pick(options.showSpinner, true) then true else old(api.loading))
      ensures api.errors == old(api.errors) && api.requestCount == old(api.requestCount) && api.cache == old(api.cache)
      ensures ui.notifications == old(ui.notifications) && ui.modals == old(ui.modals)
    {
      loadingId := OrElse(id, generatedId);
      var st := NewState(loadingId, options, now);
      forall k ensures k != loadingId ==> Find(Put(states, st), k) == Find(states, k) {
        PutFind(states, st, k);
      }
      PutFind(states, st, loadingId);
      states := Put(states, st);
      globalLoading := true;
      if Pick(options.showOverlay, false) {
        ui.SetLoadingOverlay(true);
      }
      if Pick(options.showSpinner, true) {
        api.SetLoading(true);
      }
      if st.timeout > 0 {
        timers := timers + [(loadingId, st.timeout)];
      }
    }

    /** `stopLoading(id)`: forgets `id`; the last one to go lowers the spinner and the overlay. */
    method StopLoading(id: string)
      requires Valid()
      modifies this, api, ui
      ensures Valid() && states == Remove(old(states), id) && !IsLoading(id)
      ensures old(IsLoading(id)) ==> |states| == |old(states)| - 1
      ensures timers == old(timers)
      ensures states == [] ==> !globalLoading && !api.loading && !ui.loadingOverlay
      ensures states != [] ==> globalLoading == old(globalLoading)
      ensures states != [] ==> api.loading == old(api.loading) && ui.loadingOverlay == old(ui.loadingOverlay)
      ensures api.errors == old(api.errors) && api.requestCount == old(api.requestCount) && api.cache == old(api.cache)
      ensures ui.notifications == old(ui.notifications) && ui.modals == old(ui.modals)
      ensures ui.theme == old(ui.theme) && ui.sidebarOpen == old(ui.sidebarOpen) && ui.scheduled == old(ui.scheduled)
    {
      RemoveDistinct(states, id);
      states := Remove(states, id);
      if |states| == 0 {
        globalLoading := false;
        api.SetLoading(false);
        ui.SetLoadingOverlay(false);
      }
    }

    /** `updateProgress(id, p)`: clamped to [0, 100]; unknown ids are ignored. */
    method UpdateProgress(id: string, progress: int)
      requires Valid()
      modifies this
      ensures Valid() && globalLoading == old(globalLoading) && timers == old(timers)
      ensures !old(IsLoading(id)) ==> states == old(states)
      ensures old(IsLoading(id)) ==> states == Replace(old(states), old(Find(states, id)).value.(progress := Clamp(progress)))
      ensures old(IsLoading(id)) ==> Find(states, id).Some? && Find(states, id).value.progress == Clamp(progress)
      ensures forall k :: k != id ==> Find(states, k) == Find(old(states), k)
    {
      var cur := Find(states, id);
      if cur.Some? {
        var st := cur.value.(progress := Clamp(progress));
        forall k ensures Find(Put(states, st), k) == (if k == id then Some(st) else Find(states, k)) {
          PutFind(states, st, k);
        }
        states := Put(states, st);
      }
    }

    /** `updateMessage(id, m)`: only that entry's message changes; unknown ids are ignored. */
    method UpdateMessage(id: string, message: string)
      requires Valid()
      modifies this
      ensures Valid() && globalLoading == old(globalLoading) && timers == old(timers)
      ensures !old(IsLoading(id)) ==> states == old(states)
      ensures old(IsLoading(id)) ==> states == Replace(old(states), old(Find(states, id)).value.(message := Some(message)))
      ensures forall k :: k != id ==> Find(states, k) == Find(old(states), k)
    {
      var cur := Find(states, id);
      if cur.Some? {
        var st := cur.value.(message := Some(message));
        forall k ensures k != id ==> Find(Put(states, st), k) == Find(states, k) {
          PutFind(states, st, k);
        }
        states := Put(states, st);
      }
    }

    method StopAllLoading()
      modifies this, api, ui
      ensures Valid() && states == [] && !globalLoading && !api.loading && !ui.loadingOverlay
      ensures timers == old(timers)
      ensures api.errors == old(api.errors) && api.requestCount == old(api.requestCount) && api.cache == old(api.cache)
      ensures ui.notifications == old(ui.notifications) && ui.modals == old(ui.modals)
    {
      states := [];
      globalLoading := false;
      api.SetLoading(false);
      ui.SetLoadingOverlay(false);
    }

    /** A timer armed for `id` fires: the entry is stopped if it is still there. */
    method TimerFires(id: string)
      requires Valid()
      modifies this, api, ui
      ensures Valid() && states == Remove(old(states), id) && timers == old(timers)
      ensures !old(IsLoading(id)) ==> states == old(states)
      ensures old(IsLoading(id)) && states == [] ==> !globalLoading && !api.loading && !ui.loadingOverlay
      ensures !(old(IsLoading(id)) && states == []) ==>
                globalLoading == old(globalLoading) && api.loading == old(api.loading)
                && ui.loadingOverlay == old(ui.loadingOverlay)
      ensures api.errors == old(api.errors) && api.requestCount == old(api.requestCount) && api.cache == old(api.cache)
      ensures ui.notifications == old(ui.notifications) && ui.modals == old(ui.modals)
      ensures ui.theme == old(ui.theme) && ui.sidebarOpen == old(ui.sidebarOpen) && ui.scheduled == old(ui.scheduled)
    {
      if IsLoading(id) {
        StopLoading(id);
      } else {
        RemoveDistinct(states, id);
      }
    }

    /** `withLoading(operation, options)`: its own entry is gone afterwards, whatever `result` was. */
    method WithLoading<T>(options: LoadingOptions, generatedId: string, now: int, result: Outcome<T>)
      returns (r: Outcome<T>)
      requires Valid()
      modifies this, api, ui
      ensures Valid() && r == result
      ensures states == Remove(old(states), OrElse(options.id, generatedId))
      ensures states == [] ==> !api.loading && !ui.loadingOverlay
      ensures api.requestCount == old(api.requestCount) && api.errors == old(api.errors) && api.cache == old(api.cache)
    {
      var loadingId := StartLoading(options.id, options, generatedId, now);
      r := result;
      RemovePut(old(states), NewState(loadingId, options, now));
      StopLoading(loadingId);
    }

    /** `withProgress(operation, options)`, the operation reporting `updates` in turn. */
    method WithProgress<T>(options: LoadingOptions, generatedId: string, now: int, updates: seq<int>, result: Outcome<T>)
      returns (r: Outcome<T>)
      requires Valid()
      modifies this, api, ui
      ensures Valid() && r == result
      ensures states == Remove(old(states), OrElse(options.id, generatedId))
    {
      var loadingId := StartLoading(options.id, options, generatedId, now);
      RemovePut(old(states), NewState(loadingId, options, now));
      var i := 0;
      while i < |updates|
        invariant 0 <= i <= |updates|
        invariant Valid() && IsLoading(loadingId)
        invariant Remove(states, loadingId) == Remove(old(states), loadingId)
      {
        ghost var before := states;
        UpdateProgress(loadingId, updates[i]);
        RemoveReplace(before, Find(before, loadingId).value.(progress := Clamp(updates[i])));
        i := i + 1;
      }
      r := result;
      StopLoading(loadingId);
    }

    /**
     * `withApiLoading(operation, options)`: `withLoading` run inside the `api` store's
     * request tracking, so one more request is counted while it runs and the count is
     * back to its prior value afterwards.
     */
    method WithApiLoading<T>(options: LoadingOptions, generatedId: string, now: int, result: Outcome<T>)
      returns (r: Outcome<T>, during: nat)
      requires Valid()
      modifies this, api, ui
      ensures Valid() && r == result
      ensures states == Remove(old(states), OrElse(options.id, generatedId))
      ensures during == old(api.requestCount) + 1 && api.requestCount == old(api.requestCount)
    {
      var inner := WithLoading(options, generatedId, now, result);
      r, during := api.WithRequestTracking(inner);
    }
  }
}
