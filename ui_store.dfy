/**
 * The `ui` store: the notification queue, the modal stack, the theme and the
 * sidebar and overlay flags.
 *
 * `Date.now()`/`toISOString()` are the parameters `id` and `timestamp`. The
 * auto-dismiss timer is recorded, not run: `scheduled` lists every
 * `(id, delay)` handed to `setTimeout`, and `Expire(id)` is that timer firing.
 */
module UiStore {
  import opened Base

  datatype Kind = Success | Error | Warning | Info

  datatype Notification = Notification(
    id: string, kind: Kind, title: string, message: string, duration: Option<int>, timestamp: string)

  datatype Modal = Modal(id: string, isOpen: bool, title: Option<string>, content: Option<string>)

  datatype Theme = Light | Dark

  const DefaultDuration: int := 5000

  /** `notifications.filter(n => n.id !== id)` */
  function WithoutNotification(ns: seq<Notification>, id: string): (r: seq<Notification>)
    ensures |r| <= |ns|
    ensures forall n :: n in r <==> n in ns && n.id != id
  {
    if ns == [] then []
    else if ns[0].id != id then [ns[0]] + WithoutNotification(ns[1..], id)
    else WithoutNotification(ns[1..], id)
  }

  lemma {:induction false} WithoutNotificationIdempotent(ns: seq<Notification>, id: string)
    ensures WithoutNotification(WithoutNotification(ns, id), id) == WithoutNotification(ns, id)
  {
    if ns != [] {
      WithoutNotificationIdempotent(ns[1..], id);
    }
  }

  /** Removal keeps the other entries in their order: removing from `a + b` is removing from each. */
  lemma {:induction false} WithoutNotificationAppend(a: seq<Notification>, b: seq<Notification>, id: string)
    ensures WithoutNotification(a + b, id) == WithoutNotification(a, id) + WithoutNotification(b, id)
  {
    if a == [] {
      assert a + b == b;
    } else {
      assert (a + b)[0] == a[0] && (a + b)[1..] == a[1..] + b;
      WithoutNotificationAppend(a[1..], b, id);
    }
  }

  /** `modals.filter(m => m.isOpen)` */
  function OpenModals(ms: seq<Modal>): (r: seq<Modal>)
    ensures |r| <= |ms|
    ensures forall i :: 0 <= i < |r| ==> r[i].isOpen
    ensures forall m :: m in r <==> m in ms && m.isOpen
  {
    if ms == [] then []
    else if ms[0].isOpen then [ms[0]] + OpenModals(ms[1..])
    else OpenModals(ms[1..])
  }

  /** The position of the first modal with that id (`find`). */
  function FirstModal(ms: seq<Modal>, id: string): (r: Option<nat>)
    ensures r.Some? ==> r.value < |ms| && ms[r.value].id == id && forall k :: 0 <= k < r.value ==> ms[k].id != id
    ensures r.None? ==> forall k :: 0 <= k < |ms| ==> ms[k].id != id
  {
    if ms == [] then None
    else if ms[0].id == id then Some(0)
    else
      var r := FirstModal(ms[1..], id);
      if r.Some? then Some(r.value + 1) else None
  }

  /**
   * The timers after `addNotification(id, duration)`: a removal of `id` is scheduled
   * unless the duration is exactly 0, after the duration or 5000 ms when it is
   * missing (or another falsy value).
   */
  function ScheduleAfterAdd(scheduled: seq<(string, int)>, id: string, duration: Option<int>): (r: seq<(string, int)>)
    ensures duration == Some(0) ==> r == scheduled
    ensures duration != Some(0) ==> r == scheduled + [(id, if TruthyInt(duration) then duration.value else DefaultDuration)]
  {
    if duration == Some(0) then scheduled else scheduled + [(id, if TruthyInt(duration) then duration.value else DefaultDuration)]
  }

  class UiStore {
    var notifications: seq<Notification>
    var modals: seq<Modal>
    var theme: Theme
    var sidebarOpen: bool
    var loadingOverlay: bool
    var scheduled: seq<(string, int)>

    constructor()
      ensures notifications == [] && modals == [] && theme == Light && !sidebarOpen && !loadingOverlay && scheduled == []
    {
      notifications := [];
      modals := [];
      theme := Light;
      sidebarOpen := false;
      loadingOverlay := false;
      scheduled := [];
    }

    predicate HasNotifications() reads this { |notifications| > 0 }

    function CurrentModals(): seq<Modal> reads this { OpenModals(modals) }

    predicate HasOpenModals()
      reads this
    {
      exists i :: 0 <= i < |modals| && modals[i].isOpen
    }

    predicate IsDarkTheme() reads this { theme == Dark }

    /**
     * `addNotification`: one entry appended at the end; a removal is scheduled unless
     * the duration is exactly 0, after the duration or 5000 ms when it is missing (or 0-valued falsy).
     */
    method AddNotification(kind: Kind, title: string, message: string, duration: Option<int>, id: string, timestamp: string)
      modifies this
      ensures notifications == old(notifications) + [Notification(id, kind, title, message, duration, timestamp)]
      ensures duration == Some(0) ==> scheduled == old(scheduled)
      ensures duration != Some(0) ==>
                scheduled == old(scheduled) + [(id, if TruthyInt(duration) then duration.value else DefaultDuration)]
      ensures modals == old(modals) && theme == old(theme) && sidebarOpen == old(sidebarOpen)
      ensures loadingOverlay == old(loadingOverlay)
    {
      notifications := notifications + [Notification(id, kind, title, message, duration, timestamp)];
      if duration != Some(0) {
        scheduled := scheduled + [(id, if TruthyInt(duration) then duration.value else DefaultDuration)];
      }
    }

    method RemoveNotification(id: string)
      modifies this
      ensures notifications == WithoutNotification(old(notifications), id)
      ensures forall i :: 0 <= i < |notifications| ==> notifications[i].id != id
      ensures modals == old(modals) && theme == old(theme) && sidebarOpen == old(sidebarOpen)
      ensures loadingOverlay == old(loadingOverlay) && scheduled == old(scheduled)
    {
      notifications := WithoutNotification(notifications, id);
      assert forall i :: 0 <= i < |notifications| ==> notifications[i] in notifications;
    }

    /** The auto-dismiss timer of `id` firing. */
    method Expire(id: string)
      modifies this
      ensures notifications == WithoutNotification(old(notifications), id)
      ensures modals == old(modals) && theme == old(theme) && sidebarOpen == old(sidebarOpen)
      ensures loadingOverlay == old(loadingOverlay) && scheduled == old(scheduled)
    {
      RemoveNotification(id);
    }

    method ClearNotifications()
      modifies this
      ensures notifications == [] && !HasNotifications()
      ensures modals == old(modals) && theme == old(theme) && sidebarOpen == old(sidebarOpen)
      ensures loadingOverlay == old(loadingOverlay) && scheduled == old(scheduled)
    {
      notifications := [];
    }

    /** `showSuccess(title, message?, duration?)`: the message defaults to the title. */
    method ShowSuccess(title: string, message: Option<string>, duration: Option<int>, id: string, timestamp: string)
      modifies this
      ensures notifications == old(notifications) + [Notification(id, Success, title, OrElse(message, title), duration, timestamp)]
      ensures modals == old(modals) && theme == old(theme) && sidebarOpen == old(sidebarOpen)
      ensures scheduled == ScheduleAfterAdd(old(scheduled), id, duration)
      ensures loadingOverlay == old(loadingOverlay)
    {
      AddNotification(Success, title, OrElse(message, title), duration, id, timestamp);
    }

    method ShowError(title: string, message: Option<string>, duration: Option<int>, id: string, timestamp: string)
      modifies this
      ensures notifications == old(notifications) + [Notification(id, Error, title, OrElse(message, title), duration, timestamp)]
      ensures modals == old(modals) && theme == old(theme) && sidebarOpen == old(sidebarOpen)
      ensures scheduled == ScheduleAfterAdd(old(scheduled), id, duration)
      ensures loadingOverlay == old(loadingOverlay)
    {
      AddNotification(Error, title, OrElse(message, title), duration, id, timestamp);
    }

    method ShowWarning(title: string, message: Option<string>, duration: Option<int>, id: string, timestamp: string)
      modifies this
      ensures notifications == old(notifications) + [Notification(id, Warning, title, OrElse(message, title), duration, timestamp)]
      ensures modals == old(modals) && theme == old(theme) && sidebarOpen == old(sidebarOpen)
      ensures scheduled == ScheduleAfterAdd(old(scheduled), id, duration)
      ensures loadingOverlay == old(loadingOverlay)
    {
      AddNotification(Warning, title, OrElse(message, title), duration, id, timestamp);
    }

    method ShowInfo(title: string, message: Option<string>, duration: Option<int>, id: string, timestamp: string)
      modifies this
      ensures notifications == old(notifications) + [Notification(id, Info, title, OrElse(message, title), duration, timestamp)]
      ensures modals == old(modals) && theme == old(theme) && sidebarOpen == old(sidebarOpen)
      ensures scheduled == ScheduleAfterAdd(old(scheduled), id, duration)
      ensures loadingOverlay == old(loadingOverlay)
    {
      AddNotification(Info, title, OrElse(message, title), duration, id, timestamp);
    }

    /** `openModal(modal)`: pushed open, with a generated id. */
    method OpenModal(title: Option<string>, content: Option<string>, id: string)
      modifies this
      ensures modals == old(modals) + [Modal(id, true, title, content)]
      ensures HasOpenModals()
      ensures notifications == old(notifications) && theme == old(theme) && sidebarOpen == old(sidebarOpen)
      ensures loadingOverlay == old(loadingOverlay) && scheduled == old(scheduled)
    {
      modals := modals + [Modal(id, true, title, content)];
      assert modals[|modals| - 1].isOpen;
    }

    /** `closeModal(id)`: the first modal with that id is closed in place; none is removed. */
    method CloseModal(id: string)
      modifies this
      ensures |modals| == |old(modals)|
      ensures var k := FirstModal(old(modals), id);
        if k.Some? then modals == old(modals)[k.value := old(modals)[k.value].(isOpen := false)]
        else modals == old(modals)
      ensures notifications == old(notifications) && theme == old(theme) && sidebarOpen == old(sidebarOpen)
      ensures loadingOverlay == old(loadingOverlay) && scheduled == old(scheduled)
    {
      var i := 0;
      while i < |modals| && modals[i].id != id
        invariant 0 <= i <= |modals|
        invariant forall k :: 0 <= k < i ==> modals[k].id != id
      {
        i := i + 1;
      }
      if i < |modals| {
        modals := modals[i := modals[i].(isOpen := false)];
      }
    }

    /** `closeAllModals()`: every modal is kept and closed. */
    method CloseAllModals()
      modifies this
      ensures |modals| == |old(modals)|
      ensures forall k :: 0 <= k < |modals| ==> modals[k] == old(modals)[k].(isOpen := false)
      ensures !HasOpenModals() && CurrentModals() == []
      ensures notifications == old(notifications) && theme == old(theme) && sidebarOpen == old(sidebarOpen)
      ensures loadingOverlay == old(loadingOverlay) && scheduled == old(scheduled)
    {
      var i := 0;
      while i < |modals|
        invariant 0 <= i <= |modals| && |modals| == |old(modals)|
        invariant forall k :: 0 <= k < i ==> modals[k] == old(modals)[k].(isOpen := false)
        invariant forall k :: i <= k < |modals| ==> modals[k] == old(modals)[k]
        invariant notifications == old(notifications) && theme == old(theme) && sidebarOpen == old(sidebarOpen)
        invariant loadingOverlay == old(loadingOverlay) && scheduled == old(scheduled)
      {
        modals := modals[i := modals[i].(isOpen := false)];
        i := i + 1;
      }
      HasOpenModalsIff(modals);
    }

    method ToggleTheme()
      modifies this
      ensures theme == (if old(theme) == Light then Dark else Light)
      ensures notifications == old(notifications) && modals == old(modals) && sidebarOpen == old(sidebarOpen)
      ensures loadingOverlay == old(loadingOverlay) && scheduled == old(scheduled)
    {
      theme := if theme == Light then Dark else Light;
    }

    method SetTheme(newTheme: Theme)
      modifies this
      ensures theme == newTheme
      ensures notifications == old(notifications) && modals == old(modals) && sidebarOpen == old(sidebarOpen)
      ensures loadingOverlay == old(loadingOverlay) && scheduled == old(scheduled)
    {
      theme := newTheme;
    }

    method ToggleSidebar()
      modifies this
      ensures sidebarOpen == !old(sidebarOpen)
      ensures notifications == old(notifications) && modals == old(modals) && theme == old(theme)
      ensures loadingOverlay == old(loadingOverlay) && scheduled == old(scheduled)
    {
      sidebarOpen := !sidebarOpen;
    }

    method OpenSidebar()
      modifies this
      ensures sidebarOpen && theme == old(theme) && notifications == old(notifications) && modals == old(modals)
      ensures loadingOverlay == old(loadingOverlay) && scheduled == old(scheduled)
    {
      sidebarOpen := true;
    }

    method CloseSidebar()
      modifies this
      ensures !sidebarOpen && theme == old(theme) && notifications == old(notifications) && modals == old(modals)
      ensures loadingOverlay == old(loadingOverlay) && scheduled == old(scheduled)
    {
      sidebarOpen := false;
    }

    method SetLoadingOverlay(loading: bool)
      modifies this
      ensures loadingOverlay == loading
      ensures notifications == old(notifications) && modals == old(modals) && theme == old(theme)
      ensures sidebarOpen == old(sidebarOpen) && scheduled == old(scheduled)
    {
      loadingOverlay := loading;
    }
  }

  /** `hasOpenModals` holds exactly when `currentModals` is non-empty. */
  lemma HasOpenModalsIff(ms: seq<Modal>)
    ensures (exists i :: 0 <= i < |ms| && ms[i].isOpen) <==> OpenModals(ms) != []
  {
    if OpenModals(ms) != [] {
      assert OpenModals(ms)[0] in ms;
    }
    if exists i :: 0 <= i < |ms| && ms[i].isOpen {
      var i :| 0 <= i < |ms| && ms[i].isOpen;
      assert ms[i] in OpenModals(ms);
    }
  }

  /** Toggling the theme twice restores it; so does toggling the sidebar twice. */
  method ToggleTwice(s: UiStore)
    modifies s
    ensures s.theme == old(s.theme) && s.sidebarOpen == old(s.sidebarOpen)
    ensures s.notifications == old(s.notifications) && s.modals == old(s.modals)
  {
    s.ToggleTheme();
    s.ToggleTheme();
    s.ToggleSidebar();
    s.ToggleSidebar();
  }

  /** A notification whose duration is 0 never has a removal scheduled. */
  method PersistentNeverScheduled(s: UiStore, kind: Kind, title: string, message: string, id: string, timestamp: string)
    modifies s
    ensures s.scheduled == old(s.scheduled)
    ensures |s.notifications| == |old(s.notifications)| + 1
  {
    s.AddNotification(kind, title, message, Some(0), id, timestamp);
  }

  /** Removing a notification twice is the same as removing it once. */
  method RemoveTwice(s: UiStore, id: string)
    modifies s
    ensures s.notifications == WithoutNotification(old(s.notifications), id)
  {
    s.RemoveNotification(id);
    s.RemoveNotification(id);
    WithoutNotificationIdempotent(old(s.notifications), id);
  }
}
