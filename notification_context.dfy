/** The state behind `NotificationProvider` (src/context/NotificationContext.tsx): the
    notification list, the notification settings and the last error. Every callback
    replaces a state field with a value computed from the current ones; React's
    asynchronous scheduling of those updates is not modelled, each callback takes
    effect at once. Storage is represented by what was last written to it and by
    parameters that say how a read or a write turned out. */
module NotificationContext {
  import opened Wrappers
  import opened Seqs
  import opened Json

  datatype NotificationType = NewReport | ReportUpdate | ReportVerified | ReportComment | SystemMessage

  datatype NotificationData = NotificationData(reportId: Option<string>, userId: Option<string>, commentId: Option<string>)

  /** A notification; `createdAt` is a time in milliseconds. */
  datatype Notification = Notification(
    id: string,
    kind: NotificationType,
    title: string,
    message: string,
    data: Option<NotificationData>,
    read: bool,
    createdAt: int,
    userId: string)

  /** The settings object; `JSON.parse` of the stored text may bring any properties. */
  type Settings = Object

  const SETTINGS_KEY: string := "@notification_settings"
  const LOAD_ERROR: string := "Error loading notification settings"
  const UPDATE_ERROR: string := "Error updating notification settings"

  /** `defaultSettings`. */
  function DefaultSettings(): (s: Settings)
    ensures s.Keys == {"enabled", "pushNotifications", "emailNotifications", "notifyNewReports",
                       "notifyReportUpdates", "notifyComments", "notifyVerifications",
                       "quietHoursEnabled", "quietHoursStart", "quietHoursEnd"}
    ensures Has(s, "enabled", Bool(true)) && Has(s, "quietHoursEnabled", Bool(false))
  {
    map["enabled" := Bool(true), "pushNotifications" := Bool(true),
        "emailNotifications" := Bool(true), "notifyNewReports" := Bool(true),
        "notifyReportUpdates" := Bool(true), "notifyComments" := Bool(true),
        "notifyVerifications" := Bool(true), "quietHoursEnabled" := Bool(false),
        "quietHoursStart" := Str("22:00"), "quietHoursEnd" := Str("07:00")]
  }

  // ---------------------------------------------------------------------------
  // The list operations

  /** `notifications.map(n => n.id === id ? { ...n, read: true } : n)`. */
  function MarkedAsRead(ns: seq<Notification>, id: string): (r: seq<Notification>)
    ensures |r| == |ns|
    ensures forall i :: 0 <= i < |ns| ==> r[i] == if ns[i].id == id then ns[i].(read := true) else ns[i]
  {
    seq(|ns|, i requires 0 <= i < |ns| => if ns[i].id == id then ns[i].(read := true) else ns[i])
  }

  /** `notifications.map(n => ({ ...n, read: true }))`. */
  function AllRead(ns: seq<Notification>): (r: seq<Notification>)
    ensures |r| == |ns|
    ensures forall i :: 0 <= i < |ns| ==> r[i] == ns[i].(read := true)
  {
    seq(|ns|, i requires 0 <= i < |ns| => ns[i].(read := true))
  }

  function IdIs(id: string): Notification -> bool {
    (n: Notification) => n.id == id
  }

  function IsUnread(): Notification -> bool {
    (n: Notification) => !n.read
  }

  /** `notifications.filter(n => n.id !== id)`. */
  function WithoutNotification(ns: seq<Notification>, id: string): (r: seq<Notification>)
    ensures |r| <= |ns|
    ensures forall n :: multiset(r)[n] == if n.id == id then 0 else multiset(ns)[n]
  {
    FilterMultiplicities(ns, Not(IdIs(id)));
    Filter(ns, Not(IdIs(id)))
  }

  /** `notifications.filter(n => !n.read).length`. */
  function UnreadCount(ns: seq<Notification>): (c: nat)
    ensures c <= |ns|
  {
    |Filter(ns, IsUnread())|
  }

  /** Marking as read twice is marking once. */
  lemma MarkAsReadIdempotent(ns: seq<Notification>, id: string)
    ensures MarkedAsRead(MarkedAsRead(ns, id), id) == MarkedAsRead(ns, id)
  {
  }

  /** Marking as read only touches `read`: every other field of every entry is kept. */
  lemma MarkAsReadKeepsContent(ns: seq<Notification>, id: string)
    ensures forall i :: 0 <= i < |ns| ==> MarkedAsRead(ns, id)[i].(read := ns[i].read) == ns[i]
    ensures forall i :: 0 <= i < |ns| ==> MarkedAsRead(ns, id)[i].read == (ns[i].read || ns[i].id == id)
  {
  }

  /** Marking one id as read lowers the unread count by the unread entries with that id. */
  lemma {:induction false} UnreadAfterMarkAsRead(ns: seq<Notification>, id: string)
    ensures UnreadCount(MarkedAsRead(ns, id)) + |Filter(ns, Both(IsUnread(), IdIs(id)))| == UnreadCount(ns)
  {
    if ns != [] {
      UnreadAfterMarkAsRead(ns[1..], id);
      assert MarkedAsRead(ns, id)[1..] == MarkedAsRead(ns[1..], id);
    }
  }

  /** After marking everything read nothing is unread. */
  lemma {:induction false} NoneUnreadAfterAllRead(ns: seq<Notification>)
    ensures UnreadCount(AllRead(ns)) == 0
  {
    FilterKeepsNone(AllRead(ns), IsUnread());
  }

  /** The unread and the read entries together are all entries. */
  lemma UnreadCountSplits(ns: seq<Notification>)
    ensures UnreadCount(ns) + |Filter(ns, Not(IsUnread()))| == |ns|
  {
    FilterComplement(ns, IsUnread());
  }

  /** Deleting keeps exactly the entries with another id and drops as
      many entries as have that id. */
  lemma DeleteKeepsTheRest(ns: seq<Notification>, id: string, n: Notification)
    ensures n in WithoutNotification(ns, id) <==> n in ns && n.id != id
    ensures |WithoutNotification(ns, id)| + |Filter(ns, IdIs(id))| == |ns|
  {
    FilterMembers(ns, Not(IdIs(id)), n);
    FilterComplement(ns, Not(IdIs(id)));
    FilterAgree(ns, Not(Not(IdIs(id))), IdIs(id));
  }

  /** Deleting keeps the survivors in their order: it maps the empty list to itself, keeps
      or drops a single entry by its id, and distributes over concatenation. */
  lemma DeleteKeepsOrder(a: seq<Notification>, b: seq<Notification>, n: Notification, id: string)
    ensures WithoutNotification([], id) == []
    ensures WithoutNotification([n], id) == if n.id == id then [] else [n]
    ensures WithoutNotification(a + b, id) == WithoutNotification(a, id) + WithoutNotification(b, id)
  {
    FilterSingleton(n, Not(IdIs(id)));
    FilterConcat(a, b, Not(IdIs(id)));
  }

  /** Deleting an id that no entry has changes nothing. */
  lemma DeleteAbsent(ns: seq<Notification>, id: string)
    requires forall i :: 0 <= i < |ns| ==> ns[i].id != id
    ensures WithoutNotification(ns, id) == ns
  {
    FilterKeepsAll(ns, Not(IdIs(id)));
  }

  /** Loaded settings: the defaults, overridden by every saved property. */
  function LoadedSettings(saved: Settings): (s: Settings)
    ensures s.Keys == DefaultSettings().Keys + saved.Keys
    ensures forall k :: k in saved ==> s[k] == saved[k]
    ensures forall k :: k in DefaultSettings() && k !in saved ==> s[k] == DefaultSettings()[k]
  {
    Spread(DefaultSettings(), saved)
  }

  // ---------------------------------------------------------------------------
  // The provider's state

  /** The state fields of the provider; `stored` is what storage holds under
      `@notification_settings`, as an object. */
  datatype State = State(
    notifications: seq<Notification>,
    settings: Settings,
    error: Option<string>,
    stored: Option<Settings>)

  class NotificationStore {
    var notifications: seq<Notification>
    var notificationSettings: Settings
    var error: Option<string>
    var stored: Option<Settings>

    function Snapshot(): State
      reads this
    {
      State(notifications, notificationSettings, error, stored)
    }

    /** The initial state: no notifications, the default settings, no error. */
    constructor(stored: Option<Settings>)
      ensures Snapshot() == State([], DefaultSettings(), None, stored)
    {
      notifications := [];
      notificationSettings := DefaultSettings();
      error := None;
      this.stored := stored;
    }

    /** `unreadCount`. */
    function Unread(): (c: nat)
      reads this
      ensures c <= |notifications|
      ensures c == |notifications| - |Filter(notifications, Not(IsUnread()))|
    {
      UnreadCountSplits(notifications);
      UnreadCount(notifications)
    }

    /** `loadNotificationSettings`: `savedText` is what storage returned (`None` for
        `null`), `parsed` what `JSON.parse` made of it (`None` when it throws), and
        `readOk` whether the read succeeded. An empty text is falsy and changes nothing. */
    method LoadNotificationSettings(savedText: Option<string>, parsed: Option<Settings>, readOk: bool)
      modifies this
      ensures !readOk ==> Snapshot() == old(Snapshot()).(error := Some(LOAD_ERROR))
      ensures readOk && (savedText.None? || savedText == Some("")) ==> Snapshot() == old(Snapshot())
      ensures readOk && savedText.Some? && savedText.value != "" && parsed.None? ==>
        Snapshot() == old(Snapshot()).(error := Some(LOAD_ERROR))
      ensures readOk && savedText.Some? && savedText.value != "" && parsed.Some? ==>
        Snapshot() == old(Snapshot()).(settings := LoadedSettings(parsed.value))
    {
      if !readOk {
        error := Some(LOAD_ERROR);
      } else if savedText.Some? && savedText.value != "" {
        if parsed.Some? {
          notificationSettings := LoadedSettings(parsed.value);
        } else {
          error := Some(LOAD_ERROR);
        }
      }
    }

    /** `updateNotificationSettings`: the merged settings become the state first and are
        then written; a failed write leaves them in place and records the error. */
    method UpdateNotificationSettings(patch: Settings, writeOk: bool)
      modifies this
      ensures notificationSettings == Spread(old(notificationSettings), patch)
      ensures writeOk ==> Snapshot() == old(Snapshot()).(settings := notificationSettings, stored := Some(notificationSettings))
      ensures !writeOk ==> Snapshot() == old(Snapshot()).(settings := notificationSettings, error := Some(UPDATE_ERROR))
    {
      var newSettings := Spread(notificationSettings, patch);
      notificationSettings := newSettings;
      if writeOk {
        stored := Some(newSettings);
      } else {
        error := Some(UPDATE_ERROR);
      }
    }

    /** `markAsRead`. */
    method MarkAsRead(notificationId: string)
      modifies this
      ensures Snapshot() == old(Snapshot()).(notifications := MarkedAsRead(old(notifications), notificationId))
    {
      notifications := MarkedAsRead(notifications, notificationId);
    }

    /** `markAllAsRead`. */
    method MarkAllAsRead()
      modifies this
      ensures Snapshot() == old(Snapshot()).(notifications := AllRead(old(notifications)))
    {
      notifications := AllRead(notifications);
    }

    /** `deleteNotification`. */
    method DeleteNotification(notificationId: string)
      modifies this
      ensures Snapshot() == old(Snapshot()).(notifications := WithoutNotification(old(notifications), notificationId))
    {
      notifications := WithoutNotification(notifications, notificationId);
    }

    /** `clearAllNotifications`. */
    method ClearAllNotifications()
      modifies this
      ensures Snapshot() == old(Snapshot()).(notifications := [])
    {
      notifications := [];
    }
  }
}
