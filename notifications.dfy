/**
 * The notifications composable (`useNotifications`): a typed front over the UI
 * store's notification list with a default display time per kind and a
 * persistent variant that is never dismissed by a timer.
 *
 * The store's id and timestamp and the composable's own generated id come from the
 * clock and a random source, so they are parameters.
 */
module Notifications {
  import opened Base
  import opened UiStore

  /** `defaultDurations`, in milliseconds. */
  function DefaultDurationFor(kind: Kind): (r: int)
    ensures r > 0
  {
    match kind
    case Success => 4000
    case Error => 6000
    case Warning => 5000
    case Info => 3000
  }

  /** The duration handed to the store: 0 when persistent, else the given one or the kind's default. */
  function StoreDuration(kind: Kind, duration: Option<int>, persistent: bool): int
  {
    if persistent then 0 else if duration.Some? then duration.value else DefaultDurationFor(kind)
  }

  /** How many notifications are of `kind` (`filter(n => n.type === kind).length`). */
  function CountKind(ns: seq<Notification>, kind: Kind): (r: nat)
    ensures r <= |ns|
  {
    if ns == [] then 0 else (if ns[0].kind == kind then 1 else 0) + CountKind(ns[1..], kind)
  }

  /** The four per-kind counts add up to the whole list. */
  lemma {:induction false} CountKindsTotal(ns: seq<Notification>)
    ensures CountKind(ns, Success) + CountKind(ns, Error) + CountKind(ns, Warning) + CountKind(ns, Info) == |ns|
  {
    if ns != [] {
      CountKindsTotal(ns[1..]);
    }
  }

  /** Appending one notification adds one to its own kind's count and nothing to the others. */
  lemma {:induction false} CountKindAppend(ns: seq<Notification>, n: Notification, kind: Kind)
    ensures CountKind(ns + [n], kind) == CountKind(ns, kind) + (if n.kind == kind then 1 else 0)
  {
    if ns == [] {
      assert ns + [n] == [n];
    } else {
      assert (ns + [n])[1..] == ns[1..] + [n];
      CountKindAppend(ns[1..], n, kind);
    }
  }

  /**
   * What the composable's `notifications` computed reads as `currentNotifications.value`.
   * Destructuring a setup store's getter out of `useUiStore()` yields its unwrapped
   * value, the array itself (`Unwrapped`), whose `value` property is `undefined`; a
   * ref obtained through `storeToRefs` (`Ref`) would hold the list.
   */
  datatype StoreGetter = Ref(items: seq<Notification>) | Unwrapped(items: seq<Notification>)

  /** What `useUiStore()` destructured into a plain constant gives for the store's list. */
  function Destructured(ns: seq<Notification>): StoreGetter { Unwrapped(ns) }

  const UndefinedRead: string := "TypeError: Cannot read properties of undefined"

  /** `notifications.value` followed by a property access: the list through a ref, a TypeError on `undefined`. */
  function ReadList(g: StoreGetter): (r: Outcome<seq<Notification>>)
    ensures r.Threw? <==> g.Unwrapped?
    ensures r.Returned? ==> r.value == g.items
  {
    match g
    case Ref(ns) => Returned(ns)
    case Unwrapped(_) => Threw(UndefinedRead)
  }

  /** The body of `getNotificationCount(type?)` over whatever the computed reads. */
  function CountThrough(g: StoreGetter, kind: Option<Kind>): (r: Outcome<nat>)
    ensures r.Threw? <==> g.Unwrapped?
    ensures r.Returned? && kind.None? ==> r.value == |g.items|
    ensures r.Returned? && kind.Some? ==> r.value == CountKind(g.items, kind.value)
  {
    match ReadList(g)
    case Threw(e) => Threw(e)
    case Returned(ns) => Returned(if kind.Some? then CountKind(ns, kind.value) else |ns|)
  }

  /** The body of the `hasNotifications` computed over whatever the computed reads. */
  function NonEmptyThrough(g: StoreGetter): (r: Outcome<bool>)
    ensures r.Threw? <==> g.Unwrapped?
    ensures r.Returned? ==> (r.value <==> |g.items| > 0)
  {
    match ReadList(g)
    case Threw(e) => Threw(e)
    case Returned(ns) => Returned(|ns| > 0)
  }

  class Notifications {
    const ui: UiStore

    constructor(ui: UiStore)
      ensures this.ui == ui
    {
      this.ui := ui;
    }

    /**
     * `addNotification(type, message, title?, options)`: one store entry with the
     * title or '' and the composable's duration; the generated id is returned.
     */
    method AddNotification(kind: Kind, message: string, title: Option<string>, duration: Option<int>,
                           persistent: bool, storeId: string, timestamp: string, generatedId: string)
      returns (id: string)
      modifies ui
      ensures id == generatedId
      ensures ui.notifications == old(ui.notifications) +
        [Notification(storeId, kind, OrElse(title, ""), message, Some(StoreDuration(kind, duration, persistent)), timestamp)]
      ensures persistent ==> ui.scheduled == old(ui.scheduled)
      ensures !persistent && duration.None? ==>
        ui.scheduled == old(ui.scheduled) + [(storeId, DefaultDurationFor(kind))]
      ensures ui.scheduled == ScheduleAfterAdd(old(ui.scheduled), storeId, Some(StoreDuration(kind, duration, persistent)))
      ensures ui.modals == old(ui.modals) && ui.theme == old(ui.theme) && ui.sidebarOpen == old(ui.sidebarOpen)
      ensures ui.loadingOverlay == old(ui.loadingOverlay)
    {
      ui.AddNotification(kind, OrElse(title, ""), message, Some(StoreDuration(kind, duration, persistent)), storeId, timestamp);
      id := generatedId;
    }

    /** `showSuccess` / `showError` / `showWarning` / `showInfo`: `addNotification` with that kind. */
    method Show(kind: Kind, message: string, title: Option<string>, duration: Option<int>, persistent: bool,
                storeId: string, timestamp: string, generatedId: string)
      returns (id: string)
      modifies ui
      ensures id == generatedId
      ensures ui.notifications == old(ui.notifications) +
        [Notification(storeId, kind, OrElse(title, ""), message, Some(StoreDuration(kind, duration, persistent)), timestamp)]
      ensures persistent ==> ui.scheduled == old(ui.scheduled)
      ensures ui.scheduled == ScheduleAfterAdd(old(ui.scheduled), storeId, Some(StoreDuration(kind, duration, persistent)))
      ensures ui.modals == old(ui.modals) && ui.theme == old(ui.theme) && ui.sidebarOpen == old(ui.sidebarOpen)
      ensures ui.loadingOverlay == old(ui.loadingOverlay)
    {
      id := AddNotification(kind, message, title, duration, persistent, storeId, timestamp, generatedId);
    }

    /** `showPersistent(type, message, title?)`: stored with duration 0, so no timer removes it. */
    method ShowPersistent(kind: Kind, message: string, title: Option<string>, storeId: string, timestamp: string,
                          generatedId: string)
      returns (id: string)
      modifies ui
      ensures id == generatedId
      ensures ui.notifications == old(ui.notifications) +
        [Notification(storeId, kind, OrElse(title, ""), message, Some(0), timestamp)]
      ensures ui.scheduled == old(ui.scheduled)
      ensures ui.modals == old(ui.modals) && ui.theme == old(ui.theme) && ui.sidebarOpen == old(ui.sidebarOpen)
      ensures ui.loadingOverlay == old(ui.loadingOverlay)
    {
      id := AddNotification(kind, message, title, None, true, storeId, timestamp, generatedId);
    }

    method RemoveNotification(id: string)
      modifies ui
      ensures ui.notifications == WithoutNotification(old(ui.notifications), id)
      ensures ui.modals == old(ui.modals) && ui.scheduled == old(ui.scheduled)
      ensures ui.theme == old(ui.theme) && ui.sidebarOpen == old(ui.sidebarOpen) && ui.loadingOverlay == old(ui.loadingOverlay)
    {
      ui.RemoveNotification(id);
    }

    method ClearAllNotifications()
      modifies ui
      ensures ui.notifications == [] && ui.modals == old(ui.modals) && ui.scheduled == old(ui.scheduled)
      ensures ui.theme == old(ui.theme) && ui.sidebarOpen == old(ui.sidebarOpen) && ui.loadingOverlay == old(ui.loadingOverlay)
    {
      ui.ClearNotifications();
    }

    /**
     * `clearNotificationsByType(type)`: the new list is computed from
     * `notifications.value.filter(...)`, which is `undefined.filter`, so the call
     * throws before anything is assigned.
     */
    method ClearNotificationsByType(kind: Kind) returns (r: Outcome<()>)
      ensures r == Threw(UndefinedRead)
    {
      var read := ReadList(Destructured(ui.notifications));
      assert read.Threw?;
      r := Threw(UndefinedRead);
    }

    /** `getNotificationCount(type?)` as written: it reads the undefined computed and throws. */
    function GetNotificationCount(kind: Option<Kind>): (r: Outcome<nat>)
      reads ui
      ensures r.Threw?
      ensures r == CountThrough(Destructured(ui.notifications), kind)
    {
      CountThrough(Destructured(ui.notifications), kind)
    }

    /** `hasNotifications` as written: reading the computed throws for the same reason. */
    function HasNotifications(): (r: Outcome<bool>)
      reads ui
      ensures r.Threw?
    {
      NonEmptyThrough(Destructured(ui.notifications))
    }

    /**
     * The count the composable evidently means: the store's own list read through a
     * ref (`storeToRefs`), one kind's count when a kind is given, else all of them.
     */
    function NotificationCount(kind: Option<Kind>): (r: nat)
      reads ui
      ensures kind.None? ==> r == |ui.notifications|
      ensures kind.Some? ==> r == CountKind(ui.notifications, kind.value) && r <= |ui.notifications|
      ensures CountThrough(Ref(ui.notifications), kind) == Returned(r)
    {
      if kind.Some? then CountKind(ui.notifications, kind.value) else |ui.notifications|
    }
  }

  /**
   * With a single error notification in the store, `getNotificationCount('error')`
   * throws as written, while the corrected count is 1.
   */
  lemma CountThrowsOnOneError(ui: UiStore, n: Notifications, e: Notification)
    requires n.ui == ui && ui.notifications == [e] && e.kind == Error
    ensures n.GetNotificationCount(Some(Error)) == Threw(UndefinedRead)
    ensures n.NotificationCount(Some(Error)) == 1
  {
    assert ui.notifications[1..] == [];
  }

  /** Showing an error raises the (corrected) error count by exactly one and leaves the other kinds' counts alone. */
  method ShowErrorCounts(n: Notifications, message: string, storeId: string, timestamp: string, generatedId: string)
    returns (before: nat, after: nat, othersBefore: nat, othersAfter: nat)
    modifies n.ui
    ensures after == before + 1 && othersAfter == othersBefore
  {
    before := n.NotificationCount(Some(Error));
    othersBefore := n.NotificationCount(Some(Warning));
    ghost var old0 := n.ui.notifications;
    var _ := n.Show(Error, message, None, None, false, storeId, timestamp, generatedId);
    CountKindAppend(old0, n.ui.notifications[|n.ui.notifications| - 1], Error);
    CountKindAppend(old0, n.ui.notifications[|n.ui.notifications| - 1], Warning);
    after := n.NotificationCount(Some(Error));
    othersAfter := n.NotificationCount(Some(Warning));
  }
}
