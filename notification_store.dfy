/**
 * The notification store (lib/store/notificationStore.ts): an ordered collection of
 * notifications, a counter of unread entries and a connection flag. Each action replaces
 * the fields in one step; the new values are computed by the functions below.
 */
module NotificationStore {
  import opened NotificationModel
  import opened Sequences

  predicate IsUnread(n: Notification) {
    !n.isRead
  }

  /** The `isRead` flags of a collection, position by position. */
  function ReadFlags(ns: seq<Notification>): seq<bool> {
    seq(|ns|, i requires 0 <= i < |ns| => ns[i].isRead)
  }

  /** The number of entries with `isRead = false`: what `unreadCount` is meant to hold. */
  function UnreadTotal(ns: seq<Notification>): (r: nat)
    ensures r == 0 <==> forall i :: 0 <= i < |ns| ==> ns[i].isRead
  {
    var flags := ReadFlags(ns);
    assert forall i :: 0 <= i < |ns| ==> flags[i] == ns[i].isRead;
    multiset(flags)[false]
  }

  lemma UnreadTotalConcat(a: seq<Notification>, b: seq<Notification>)
    ensures UnreadTotal(a + b) == UnreadTotal(a) + UnreadTotal(b)
  {
    assert ReadFlags(a + b) == ReadFlags(a) + ReadFlags(b);
  }

  /** The store counts unread entries as `filter(n => !n.isRead).length`; that is the unread total. */
  lemma {:induction false} UnreadCounted(ns: seq<Notification>)
    ensures |Filter(ns, IsUnread)| == UnreadTotal(ns)
    decreases |ns|
  {
    if ns != [] {
      assert ns == [ns[0]] + ns[1..];
      assert ReadFlags([ns[0]]) == [ns[0].isRead];
      UnreadTotalConcat([ns[0]], ns[1..]);
      UnreadCounted(ns[1..]);
    }
  }

  /** The unread total never exceeds the length of the collection. */
  lemma UnreadTotalBound(ns: seq<Notification>)
    ensures UnreadTotal(ns) <= |ns|
  {
  }

  /** The entries carrying `id`. */
  function Matching(ns: seq<Notification>, id: string): seq<Notification> {
    Filter(ns, (n: Notification) => n.id == id)
  }

  /** `filter(n => n.id !== id)`: exactly the entries of `ns` with another id. */
  function WithoutId(ns: seq<Notification>, id: string): (r: seq<Notification>)
    ensures !HasId(r, id)
    ensures forall x :: x in r <==> x in ns && x.id != id
  {
    var r := Filter(ns, (n: Notification) => n.id != id);
    assert forall i :: 0 <= i < |r| ==> r[i] in r;
    r
  }

  /** Every entry either carries `id` or survives the deletion of `id`, and none does both. */
  lemma {:induction false} MatchingPartition(ns: seq<Notification>, id: string)
    ensures |Matching(ns, id)| + |WithoutId(ns, id)| == |ns|
    decreases |ns|
  {
    if ns != [] {
      MatchingPartition(ns[1..], id);
    }
  }

  // ---------------------------------------------------------------------------------------
  // addNotification

  /** The record `addNotification` builds: the given data with a fresh id and timestamp, unread. */
  function NewEntry(data: NotificationData, id: string, now: string): (r: Notification)
    ensures r.id == id && !r.isRead && r.createdAt == now
    ensures NotificationData(r.title, r.message, r.kind, r.actionUrl, r.priority) == data
  {
    Notification(id, data.title, data.message, data.kind, false, now, data.actionUrl, data.priority)
  }

  // ---------------------------------------------------------------------------------------
  // markAsRead and markAllAsRead

  /** The callback of `markAsRead`'s `map`. */
  function MarkOne(n: Notification, id: string): Notification {
    if n.id == id then n.(isRead := true) else n
  }

  /** `notifications.map(...)` in `markAsRead`: entries carrying `id` become read. */
  function MarkRead(ns: seq<Notification>, id: string): (r: seq<Notification>)
    ensures |r| == |ns|
    ensures forall i :: 0 <= i < |ns| ==> r[i].(isRead := ns[i].isRead) == ns[i]
    ensures forall i :: 0 <= i < |ns| ==> (r[i].isRead <==> ns[i].isRead || ns[i].id == id)
    decreases |ns|
  {
    if ns == [] then [] else [MarkOne(ns[0], id)] + MarkRead(ns[1..], id)
  }

  /** Follows from `MarkRead`'s contract: a second pass finds every matching entry already read. */
  lemma MarkReadIdempotent(ns: seq<Notification>, id: string)
    ensures MarkRead(MarkRead(ns, id), id) == MarkRead(ns, id)
  {
  }

  /** Marking `id` read lowers the unread total by the number of unread entries carrying `id`. */
  lemma {:induction false} MarkReadUnreadTotal(ns: seq<Notification>, id: string)
    ensures UnreadTotal(MarkRead(ns, id)) == UnreadTotal(ns) - UnreadTotal(Matching(ns, id))
    decreases |ns|
  {
    if ns != [] {
      var x, rest := ns[0], ns[1..];
      assert ns == [x] + rest;
      assert MarkRead(ns, id) == [MarkOne(x, id)] + MarkRead(rest, id);
      assert Matching(ns, id) == (if x.id == id then [x] else []) + Matching(rest, id);
      assert ReadFlags([x]) == [x.isRead];
      assert ReadFlags([MarkOne(x, id)]) == [MarkOne(x, id).isRead];
      assert ReadFlags([]) == [];
      UnreadTotalConcat([x], rest);
      UnreadTotalConcat([MarkOne(x, id)], MarkRead(rest, id));
      UnreadTotalConcat(if x.id == id then [x] else [], Matching(rest, id));
      MarkReadUnreadTotal(rest, id);
    }
  }

  /** With unique ids at most one entry carries a given id. */
  lemma {:induction false} AtMostOneMatching(ns: seq<Notification>, id: string)
    requires UniqueIds(ns)
    ensures |Matching(ns, id)| <= 1
    decreases |ns|
  {
    if ns != [] {
      var x, rest := ns[0], ns[1..];
      assert ns == [x] + rest;
      UniqueIdsCons(x, rest);
      AtMostOneMatching(rest, id);
      if x.id == id {
        FilterKeepsNone(rest, (n: Notification) => n.id == id);
      }
    }
  }

  /**
   * With unique ids one `markAsRead` lowers the counter by at most one; since it is idempotent,
   * so do two calls with the same id.
   */
  lemma MarkReadLowersByAtMostOne(ns: seq<Notification>, id: string)
    requires UniqueIds(ns)
    ensures UnreadTotal(ns) - 1 <= UnreadTotal(MarkRead(MarkRead(ns, id), id)) <= UnreadTotal(ns)
  {
    MarkReadIdempotent(ns, id);
    MarkReadUnreadTotal(ns, id);
    AtMostOneMatching(ns, id);
    UnreadTotalBound(Matching(ns, id));
  }

  /** `notifications.map(n => ({...n, isRead: true}))` in `markAllAsRead`. */
  function MarkAllRead(ns: seq<Notification>): (r: seq<Notification>)
    ensures |r| == |ns|
    ensures forall i :: 0 <= i < |ns| ==> r[i].isRead && r[i].(isRead := ns[i].isRead) == ns[i]
    decreases |ns|
  {
    if ns == [] then [] else [ns[0].(isRead := true)] + MarkAllRead(ns[1..])
  }

  lemma MarkAllReadLeavesNoneUnread(ns: seq<Notification>)
    ensures UnreadTotal(MarkAllRead(ns)) == 0
  {
  }

  lemma MarkAllReadIdempotent(ns: seq<Notification>)
    ensures MarkAllRead(MarkAllRead(ns)) == MarkAllRead(ns)
  {
  }

  // ---------------------------------------------------------------------------------------
  // deleteNotification

  /** `notifications.find(n => n.id === id)`: the first entry carrying `id`, if any. */
  function FindById(ns: seq<Notification>, id: string): (r: Option<Notification>)
    ensures r.None? <==> !HasId(ns, id)
    ensures r.Some? ==>
      r.value.id == id && exists i :: 0 <= i < |ns| && ns[i] == r.value && (forall j :: 0 <= j < i ==> ns[j].id != id)
    decreases |ns|
  {
    if ns == [] then None
    else if ns[0].id == id then Some(ns[0])
    else
      var r := FindById(ns[1..], id);
      assert r.None? ==> forall k :: 1 <= k < |ns| ==> ns[k].id == ns[1..][k - 1].id;
      r
  }

  /**
   * `deleteNotification`'s new counter: one less when the first entry carrying `id` is unread,
   * otherwise unchanged. Started from the true unread total it never goes negative.
   */
  function CountAfterDelete(ns: seq<Notification>, count: int, id: string): (r: int)
    ensures count == UnreadTotal(ns) ==> r >= 0
  {
    var found := FindById(ns, id);
    if found.Some? && !found.value.isRead then count - 1 else count
  }

  /** Deleting an id that no entry carries changes neither the collection nor the counter. */
  lemma DeleteAbsent(ns: seq<Notification>, count: int, id: string)
    requires !HasId(ns, id)
    ensures WithoutId(ns, id) == ns
    ensures CountAfterDelete(ns, count, id) == count
  {
    FilterKeepsAll(ns, (n: Notification) => n.id != id);
  }

  /** One leading entry adds its own unread flag to the total. */
  lemma UnreadTotalCons(x: Notification, rest: seq<Notification>)
    ensures UnreadTotal([x] + rest) == (if x.isRead then 0 else 1) + UnreadTotal(rest)
  {
    assert ReadFlags([x]) == [x.isRead];
    UnreadTotalConcat([x], rest);
  }

  /** Deleting the id of the head entry when no later entry carries it. */
  lemma DeleteHead(x: Notification, rest: seq<Notification>, id: string)
    requires x.id == id && !HasId(rest, id)
    ensures UnreadTotal(WithoutId([x] + rest, id)) == CountAfterDelete([x] + rest, UnreadTotal([x] + rest), id)
  {
    var ns := [x] + rest;
    assert ns[0] == x && ns[1..] == rest;
    DeleteAbsent(rest, 0, id);
    assert WithoutId(ns, id) == rest;
    assert FindById(ns, id) == Some(x);
    UnreadTotalCons(x, rest);
  }

  /** Deleting an id the head entry does not carry: the head stays and is counted as before. */
  lemma DeleteBehindHead(x: Notification, rest: seq<Notification>, id: string)
    requires x.id != id
    requires UnreadTotal(WithoutId(rest, id)) == CountAfterDelete(rest, UnreadTotal(rest), id)
    ensures UnreadTotal(WithoutId([x] + rest, id)) == CountAfterDelete([x] + rest, UnreadTotal([x] + rest), id)
  {
    var ns := [x] + rest;
    assert ns[0] == x && ns[1..] == rest;
    assert WithoutId(ns, id) == [x] + WithoutId(rest, id);
    assert FindById(ns, id) == FindById(rest, id);
    UnreadTotalCons(x, rest);
    UnreadTotalCons(x, WithoutId(rest, id));
  }

  /** With unique ids the incrementally adjusted counter is again the unread total. */
  lemma {:induction false} DeleteCountUnique(ns: seq<Notification>, id: string)
    requires UniqueIds(ns)
    ensures UnreadTotal(WithoutId(ns, id)) == CountAfterDelete(ns, UnreadTotal(ns), id)
    decreases |ns|
  {
    if ns != [] {
      var x, rest := ns[0], ns[1..];
      assert ns == [x] + rest;
      UniqueIdsCons(x, rest);
      if x.id == id {
        DeleteHead(x, rest, id);
      } else {
        DeleteCountUnique(rest, id);
        DeleteBehindHead(x, rest, id);
      }
    }
  }

  /** Two unread entries sharing an id: deleting it removes both but the counter drops by one. */
  lemma DeleteWithDuplicateIdsMiscounts(n: Notification)
    requires !n.isRead
    ensures var ns := [n, n];
      UnreadTotal(WithoutId(ns, n.id)) == 0 && CountAfterDelete(ns, UnreadTotal(ns), n.id) == 1
  {
    var ns := [n, n];
    assert ReadFlags(ns) == [false, false];
    assert ns[1..] == [n] && [n][1..] == [];
    assert WithoutId([n], n.id) == [];
    assert WithoutId(ns, n.id) == WithoutId([n], n.id);
  }

  /** Filtering keeps ids unique; it is how `deleteNotification` builds its new collection. */
  lemma {:induction false} FilterKeepsUniqueIds(ns: seq<Notification>, keep: Notification -> bool)
    requires UniqueIds(ns)
    ensures UniqueIds(Filter(ns, keep))
    decreases |ns|
  {
    if ns != [] {
      var x, rest := ns[0], ns[1..];
      assert ns == [x] + rest;
      UniqueIdsCons(x, rest);
      FilterKeepsUniqueIds(rest, keep);
      var tail := Filter(rest, keep);
      if keep(x) {
        assert Filter(ns, keep) == [x] + tail;
        forall k | 0 <= k < |tail| ensures tail[k].id != x.id {
          assert tail[k] in rest;
        }
        UniqueIdsCons(x, tail);
      }
    }
  }

  // ---------------------------------------------------------------------------------------
  // The initial state

  // The texts of the four sample notifications.
  const WelcomeTitle: string := "Welcome to NexusAuto!"
  const WelcomeMessage: string := "Your account has been successfully created. Start by exploring our services."
  const AppointmentTitle: string := "New Appointment Scheduled"
  const AppointmentMessage: string := "Your oil change service is scheduled for tomorrow at 10:00 AM"
  const CompletedTitle: string := "Vehicle Service Completed"
  const CompletedMessage: string := "Service for your Honda Civic (ABC-123) has been completed successfully"
  const ReminderTitle: string := "Service Reminder"
  const ReminderMessage: string := "Your Toyota Camry is due for routine maintenance next week"

  /** The four sample notifications the store starts with; ids and timestamps are generated. */
  function MockNotifications(ids: seq<string>, stamps: seq<string>): (r: seq<Notification>)
    requires |ids| == 4 && |stamps| == 4
    ensures |r| == 4
    ensures forall i :: 0 <= i < 4 ==> r[i].id == ids[i] && IsListedType(r[i].kind)
    ensures !r[0].isRead && !r[1].isRead && r[2].isRead && !r[3].isRead
  {
    [ Notification(ids[0], WelcomeTitle, WelcomeMessage, "success", false, stamps[0], Some("/services"), Medium),
      Notification(ids[1], AppointmentTitle, AppointmentMessage, "info", false, stamps[1], Some("/customer/appointments"), Medium),
      Notification(ids[2], CompletedTitle, CompletedMessage, "success", true, stamps[2], Some("/customer/vehicles"), Low),
      Notification(ids[3], ReminderTitle, ReminderMessage, "warning", false, stamps[3], Some("/customer/vehicles"), Medium) ]
  }

  /** Three of the four sample notifications are unread. */
  lemma MockUnreadTotal(ids: seq<string>, stamps: seq<string>)
    requires |ids| == 4 && |stamps| == 4
    ensures UnreadTotal(MockNotifications(ids, stamps)) == 3
  {
    var r := MockNotifications(ids, stamps);
    assert r == [r[0]] + ([r[1]] + ([r[2]] + ([r[3]] + [])));
    UnreadTotalCons(r[3], []);
    UnreadTotalCons(r[2], [r[3]] + []);
    UnreadTotalCons(r[1], [r[2]] + ([r[3]] + []));
    UnreadTotalCons(r[0], [r[1]] + ([r[2]] + ([r[3]] + [])));
  }

  // ---------------------------------------------------------------------------------------
  // The store

  class Store {
    var notifications: seq<Notification>
    var unreadCount: int
    var isConnected: bool

    /** The counter agrees with the collection. */
    ghost predicate Valid()
      reads this
    {
      unreadCount == UnreadTotal(notifications)
    }

    /** The initial state: the sample collection, its unread count, and connected. */
    constructor (ids: seq<string>, stamps: seq<string>)
      requires |ids| == 4 && |stamps| == 4
      ensures notifications == MockNotifications(ids, stamps)
      ensures unreadCount == 3 && isConnected
      ensures Valid()
      ensures (forall i, j :: 0 <= i < j < 4 ==> ids[i] != ids[j]) ==> UniqueIds(notifications)
    {
      var mock := MockNotifications(ids, stamps);
      UnreadCounted(mock);
      MockUnreadTotal(ids, stamps);
      notifications := mock;
      unreadCount := |Filter(mock, IsUnread)|;
      isConnected := true;
    }

    /** Prepends a new unread entry with a fresh id and bumps the counter by one. */
    method AddNotification(data: NotificationData, freshId: string, now: string)
      modifies this
      ensures notifications == [NewEntry(data, freshId, now)] + old(notifications)
      ensures notifications[0].id == freshId && !notifications[0].isRead
      ensures notifications[1..] == old(notifications)
      ensures unreadCount == old(unreadCount) + 1
      ensures isConnected == old(isConnected)
      ensures old(Valid()) ==> Valid()
      ensures old(UniqueIds(notifications)) && !HasId(old(notifications), freshId) ==> UniqueIds(notifications)
    {
      var entry := NewEntry(data, freshId, now);
      UnreadTotalConcat([entry], notifications);
      assert ReadFlags([entry]) == [false];
      UniqueIdsCons(entry, notifications);
      notifications := [entry] + notifications;
      unreadCount := unreadCount + 1;
    }

    /** Marks every entry carrying `id` read and recounts. */
    method MarkAsRead(id: string)
      modifies this
      ensures notifications == MarkRead(old(notifications), id)
      ensures Valid()
      ensures unreadCount == old(UnreadTotal(notifications)) - old(UnreadTotal(Matching(notifications, id)))
      ensures isConnected == old(isConnected)
      ensures old(UniqueIds(notifications)) ==> UniqueIds(notifications)
    {
      var updated := MarkRead(notifications, id);
      UnreadCounted(updated);
      MarkReadUnreadTotal(notifications, id);
      notifications := updated;
      unreadCount := |Filter(updated, IsUnread)|;
    }

    /** Marks every entry read and sets the counter to zero. */
    method MarkAllAsRead()
      modifies this
      ensures notifications == MarkAllRead(old(notifications))
      ensures unreadCount == 0 && Valid()
      ensures isConnected == old(isConnected)
      ensures old(UniqueIds(notifications)) ==> UniqueIds(notifications)
    {
      MarkAllReadLeavesNoneUnread(notifications);
      notifications := MarkAllRead(notifications);
      unreadCount := 0;
    }

    /**
     * Removes every entry carrying `id`; the counter drops by one when the first such entry
     * was unread. The counter stays exact only while ids are unique.
     */
    method DeleteNotification(id: string)
      modifies this
      ensures notifications == WithoutId(old(notifications), id)
      ensures forall n :: n in notifications <==> n in old(notifications) && n.id != id
      ensures unreadCount == CountAfterDelete(old(notifications), old(unreadCount), id)
      ensures !HasId(old(notifications), id) ==>
        notifications == old(notifications) && unreadCount == old(unreadCount)
      ensures old(Valid()) && old(UniqueIds(notifications)) ==> Valid() && UniqueIds(notifications)
      ensures isConnected == old(isConnected)
    {
      if !HasId(notifications, id) {
        DeleteAbsent(notifications, unreadCount, id);
      }
      if UniqueIds(notifications) {
        DeleteCountUnique(notifications, id);
        FilterKeepsUniqueIds(notifications, (n: Notification) => n.id != id);
      }
      var updated := WithoutId(notifications, id);
      unreadCount := CountAfterDelete(notifications, unreadCount, id);
      notifications := updated;
    }

    /** Empties the collection and zeroes the counter. */
    method ClearAll()
      modifies this
      ensures notifications == [] && unreadCount == 0 && Valid()
      ensures isConnected == old(isConnected)
    {
      notifications := [];
      unreadCount := 0;
    }

    /** Replaces the collection wholesale and recounts. */
    method SetNotifications(xs: seq<Notification>)
      modifies this
      ensures notifications == xs && unreadCount == UnreadTotal(xs) && Valid()
      ensures isConnected == old(isConnected)
    {
      UnreadCounted(xs);
      notifications := xs;
      unreadCount := |Filter(xs, IsUnread)|;
    }

    /** Sets the connection flag and nothing else. */
    method SetConnectionStatus(status: bool)
      modifies this
      ensures isConnected == status
      ensures notifications == old(notifications) && unreadCount == old(unreadCount)
    {
      isConnected := status;
    }

    /** The unread entries, in collection order. */
    function GetUnreadNotifications(): (r: seq<Notification>)
      reads this
      ensures forall n :: n in r <==> n in notifications && !n.isRead
      ensures |r| == UnreadTotal(notifications)
    {
      UnreadCounted(notifications);
      Filter(notifications, IsUnread)
    }

    /** The entries of type `t`, in collection order. */
    function GetNotificationsByType(t: string): (r: seq<Notification>)
      reads this
      ensures forall n :: n in r <==> n in notifications && n.kind == t
      ensures |r| <= |notifications|
    {
      Filter(notifications, (n: Notification) => n.kind == t)
    }
  }
}
