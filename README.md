# Notification store and push-channel client, modelled in Dafny

This project models the notification core of the NexusAuto client. That core has two parts.

- **The notification store** (`lib/store/notificationStore.ts`) holds three things: an ordered
  collection of notification records, an `unreadCount` counter and an `isConnected` flag.
  Every action replaces them in one step. Some actions recompute the counter from the
  collection (`markAsRead`, `setNotifications`). Others adjust it by a fixed amount
  (`addNotification`, `deleteNotification`) or set it outright (`markAllAsRead`, `clearAll`).
- **The push-channel client** (`lib/service/socketService.ts`) holds a current socket and a
  connected flag. It guards `connect` on the authentication state and registers the user when
  the socket connects. It sends `markAsRead` and `deleteNotification` commands only while
  connected. It turns each pushed backend record into a store entry.

Files:

- `notification.dfy` (module `NotificationModel`): the record of `types/index.ts`. The record's
  `type` field is called `kind`, because `type` is a reserved word in Dafny. It is a string: the
  push path stores any non-empty type the backend sends, and `IsListedType` names the four
  declared values. The file also defines the id predicates `HasId` and `UniqueIds`.
- `sequences.dfy` (module `Sequences`): `Filter`, the model of JavaScript's `Array.filter`.
  Its lemmas cover membership, order (`FilterConcat`), and the keep-all and keep-none cases.
- `notification_store.dfy` (module `NotificationStore`) has two layers:
  - pure functions for the values each action computes: `MarkRead`, `MarkAllRead`, `FindById`,
    `WithoutId`, `CountAfterDelete`, `NewEntry` and the sample collection;
  - the class `Store`, whose fields are the store's state and whose methods are its actions.

  The intended invariant is `Store.Valid()`: `unreadCount == UnreadTotal(notifications)`.
  `UnreadTotal` is the number of `false` read flags, counted as a multiset. The store itself
  counts with `filter(...).length`, and the lemma `UnreadCounted` proves the two agree.
- `socket_service.dfy` (module `SocketService`) models the push-channel client.
  - The backend record is a datatype: a missing field is `None`, and JavaScript truthiness is
    written out as `Truthy`.
  - Normalisation is a set of functions.
  - The class `Service` holds the client's state.
  - The transport is abstracted:
    - every socket that `connect` creates is numbered by its position in `sockets`, and each
      entry records the user and recipient type that its handlers captured;
    - transport events arrive through `OnConnect(k)`, `OnDisconnect(k)` and
      `OnNotification(k, …)`, where `k` is the socket the event came from;
    - every emitted message is appended to `outbox`, tagged with the socket it went out on.

Behaviour of the code that the model keeps:

- **Initial state.** The store starts with four sample notifications, three of them unread, and
  with `isConnected = true`. It does not start empty and disconnected.
- **`markAsRead`.** It recounts from the collection. It does not decrement by one.
- **`deleteNotification`.** It removes *every* entry with the id. It still decrements the
  counter by at most one, and only when the first matching entry is unread. The counter stays
  exact only while ids are unique; `DeleteWithDuplicateIdsMiscounts` shows the failure.
- **Pushed records.** An inbound push does not keep the record's read flag. `addNotification`
  overwrites `id`, `createdAt` and `isRead`, so a pushed entry is always unread and has a
  fresh id.
- **`connect` is not idempotent.** Each call creates a new socket and never closes the previous
  one. After two calls and a `disconnect`, the first socket can still connect and set the flag
  again, with no current socket to register on (`ConnectTwiceThenDisconnect`). So
  `getConnectionStatus()` is false after `disconnect` only when a socket was present.
- **The two connection flags are independent.** The client's flag and the store's
  `isConnected` are separate: nothing in the client calls `setConnectionStatus`.
- **Missing store actions.** The notifications page calls `syncMarkAllAsRead`, `syncClearAll`,
  `syncMarkAsRead`, `syncDeleteNotification` and `loadNotificationsFromBackend`. The store does
  not define any of them, and the model does not invent them.

## Model

| member | source | states |
|---|---|---|
| `Sequences.Filter` | lib/store/notificationStore.ts:138-140 | an element is in the result exactly when it is in the input and is kept; the result is no longer than the input |
| `Sequences.FilterConcat` | lib/store/notificationStore.ts:142-144 | filtering distributes over concatenation, so kept entries stay in collection order |
| `NotificationStore.UnreadTotal` | lib/store/notificationStore.ts:66 | the number of unread entries is zero exactly when every entry is read |
| `NotificationStore.UnreadTotalConcat` | lib/store/notificationStore.ts:77-80 | the unread total of a concatenation is the sum of the parts, so prepending one unread entry adds exactly one |
| `NotificationStore.UnreadCounted` | lib/store/notificationStore.ts:66 | `filter(n => !n.isRead).length` equals the number of entries with `isRead = false` |
| `NotificationStore.MockNotifications` | lib/store/notificationStore.ts:21-62 | the sample collection has four entries, and only the third is read; each carries its generated id and one of the four declared types |
| `NotificationStore.MockUnreadTotal` | lib/store/notificationStore.ts:66 | the initial counter, the unread total of the sample collection, is 3 |
| `NotificationStore.Store.constructor` | lib/store/notificationStore.ts:64-67 | the initial state is the sample collection with `unreadCount` = 3 = its unread total; `isConnected` is true; ids are unique when the four generated ids are distinct |
| `NotificationStore.Store.AddNotification` | lib/store/notificationStore.ts:69-81 | the new entry is at index 0, unread, with the fresh id; the old entries follow in order; the counter rises by exactly 1; the flag is unchanged; the invariant is preserved, and so is id uniqueness when the id is fresh |
| `NotificationStore.NewEntry` | lib/store/notificationStore.ts:70-75 | the built entry is unread with the fresh id and timestamp, and its remaining fields give back exactly the data passed in |
| `NotificationStore.MarkRead` | lib/store/notificationStore.ts:85-87 | the length is unchanged; only `isRead` may change; an entry is read afterwards exactly when it was read before or carries the id |
| `NotificationStore.MarkReadIdempotent` | lib/store/notificationStore.ts:83-94 | marking the same id read twice gives the same collection as marking it once |
| `NotificationStore.MarkReadUnreadTotal` | lib/store/notificationStore.ts:83-94 | marking an id read lowers the unread total by exactly the number of unread entries carrying it |
| `NotificationStore.AtMostOneMatching` | lib/store/notificationStore.ts:83-94 | with unique ids at most one entry carries a given id |
| `NotificationStore.MarkReadLowersByAtMostOne` | lib/store/notificationStore.ts:83-94 | with unique ids, marking the same id read twice lowers the counter by at most one in total |
| `NotificationStore.Store.MarkAsRead` | lib/store/notificationStore.ts:83-94 | the collection becomes `MarkRead` of the old one; the counter is recomputed, so the invariant holds afterwards from any state; the flag is unchanged; ids stay unique |
| `NotificationStore.MarkAllRead` | lib/store/notificationStore.ts:98-101 | the length is unchanged; every entry is read; every other field is unchanged |
| `NotificationStore.MarkAllReadLeavesNoneUnread` | lib/store/notificationStore.ts:102 | after mark-all-read no entry is unread, so setting the counter to 0 is exact |
| `NotificationStore.MarkAllReadIdempotent` | lib/store/notificationStore.ts:96-104 | mark-all-read twice gives the same collection as once |
| `NotificationStore.Store.MarkAllAsRead` | lib/store/notificationStore.ts:96-104 | the collection becomes `MarkAllRead` of the old one; the counter is 0 and the invariant holds; the flag is unchanged |
| `NotificationStore.FindById` | lib/store/notificationStore.ts:108 | there is no result exactly when no entry carries the id; otherwise the result is the first entry carrying it |
| `NotificationStore.CountAfterDelete` | lib/store/notificationStore.ts:111-115 | started from the true unread total, the adjusted counter is never negative, even with duplicate ids |
| `NotificationStore.WithoutId` | lib/store/notificationStore.ts:109 | an entry is kept exactly when it is in the collection and carries another id; no kept entry carries the id |
| `NotificationStore.MatchingPartition` | lib/store/notificationStore.ts:109 | the entries carrying the id and the entries kept by the deletion together account for the whole collection |
| `NotificationStore.DeleteAbsent` | lib/store/notificationStore.ts:106-118 | deleting an id no entry carries leaves both the collection and the counter unchanged |
| `NotificationStore.DeleteCountUnique` | lib/store/notificationStore.ts:106-118 | with unique ids, the counter after deletion equals the unread total of the remaining entries |
| `NotificationStore.DeleteWithDuplicateIdsMiscounts` | lib/store/notificationStore.ts:108-115 | with two unread entries sharing an id, deletion removes both yet leaves the counter at 1 |
| `NotificationStore.FilterKeepsUniqueIds` | lib/store/notificationStore.ts:109 | filtering a collection with unique ids yields one with unique ids |
| `NotificationStore.Store.DeleteNotification` | lib/store/notificationStore.ts:106-118 | the collection keeps exactly the entries with another id, in order; the counter drops by one only when the first match was unread; for an absent id nothing changes; the invariant and id uniqueness are preserved when the ids were unique; the flag is unchanged |
| `NotificationStore.Store.ClearAll` | lib/store/notificationStore.ts:120-125 | the collection is empty, the counter is 0 and the invariant holds; the flag is unchanged |
| `NotificationStore.Store.SetNotifications` | lib/store/notificationStore.ts:127-132 | the collection is exactly the argument and the counter is its unread total; the flag is unchanged |
| `NotificationStore.Store.SetConnectionStatus` | lib/store/notificationStore.ts:134-136 | only `isConnected` changes |
| `NotificationStore.Store.GetUnreadNotifications` | lib/store/notificationStore.ts:138-140 | the result holds exactly the unread entries, and its length is the unread total; being a function, it cannot change the state |
| `NotificationStore.Store.GetNotificationsByType` | lib/store/notificationStore.ts:142-144 | the result holds exactly the entries of the given type, and it cannot change the state |
| `SocketService.IdString` | lib/service/socketService.ts:31 | the rendering is non-empty, starts with a minus sign exactly when the id is negative, and is otherwise decimal digits; `IdStringRoundTrip` is its inverse |
| `SocketService.NatString` | lib/service/socketService.ts:31 | the decimal rendering is a non-empty digit string with no leading zero |
| `SocketService.NatStringRoundTrip` | lib/service/socketService.ts:31 | reading the decimal digits back gives the number |
| `SocketService.IdStringRoundTrip` | lib/service/socketService.ts:31 | the id string sent in `register` parses back to the user id, so distinct users register distinct ids |
| `SocketService.RecipientType` | lib/service/socketService.ts:18 | the result is `"user"` exactly when the role is `"ROLE_CUSTOMER"`, and `"employee"` otherwise |
| `SocketService.MapNotificationType` | lib/service/socketService.ts:69-75 | the record's type is used when truthy; the result is never empty; when falsy the result is `"info"`; it is a declared type exactly when the record's type is declared or falsy |
| `SocketService.GetActionUrl` | lib/service/socketService.ts:77-81 | the result is always `"/notifications"` |
| `SocketService.Normalise` | lib/service/socketService.ts:53-62 | the id is `_id` when truthy, else `id`; `isRead` holds exactly when `read` is true; `createdAt` is the record's when truthy, else now; the priority is medium; the action URL is the notifications list; title and message are copied |
| `SocketService.PushedEntry` | lib/service/socketService.ts:64-66 | the stored entry is unread and has the fresh id and the store's timestamp; its title, message, type, priority and action URL come from the normalised record |
| `SocketService.PushIgnoresIdReadAndTimestamp` | lib/service/socketService.ts:53-66 | two records that agree on title, message and type are stored identically, whatever their `_id`, `id`, `read` and `createdAt` |
| `SocketService.PushedReadFlagIsDropped` | lib/service/socketService.ts:58 | a record pushed with `read` true is normalised as read but stored as unread |
| `SocketService.UnlistedTypeIsStored` | lib/service/socketService.ts:71-72 | a record whose type is truthy but not one of the four declared values is stored with exactly that type, which is then undeclared |
| `SocketService.Service.constructor` | lib/service/socketService.ts:6-7 | the client starts with no socket and not connected |
| `SocketService.Service.Connect` | lib/service/socketService.ts:9-23 | without an authenticated user nothing changes; otherwise a new socket is created and becomes current, carrying the user and the recipient type; the flag is unchanged and nothing is emitted |
| `SocketService.Service.OnConnect` | lib/service/socketService.ts:25-34 | the flag becomes true; when a socket is current, `register` is emitted on it with the user id as a string and the recipient type |
| `SocketService.Service.OnDisconnect` | lib/service/socketService.ts:41-44 | the flag becomes false, and the invariant is kept |
| `SocketService.Service.OnNotification` | lib/service/socketService.ts:36-39 | the store gains the pushed entry at its head, and its counter rises by one; the store's invariant is preserved |
| `SocketService.Service.MarkAsRead` | lib/service/socketService.ts:83-87 | `markAsRead` is emitted on the current socket exactly when a socket is present and connected; otherwise the outbox is unchanged |
| `SocketService.Service.DeleteNotification` | lib/service/socketService.ts:89-93 | `deleteNotification` is emitted exactly when a socket is present and connected; otherwise the outbox is unchanged |
| `SocketService.Service.Disconnect` | lib/service/socketService.ts:95-101 | with a socket, it closes it, leaves no socket, and `GetConnectionStatus()` is false afterwards; without a socket, nothing changes |
| `SocketService.Service.GetConnectionStatus` | lib/service/socketService.ts:103-105 | it reports the client's flag, which under the invariant can be true only once `connect` has created a socket |
| `SocketService.ConnectTwiceThenDisconnect` | lib/service/socketService.ts:20 | two connects leave two sockets; disconnect closes only the second; a later connect event from the first socket sets the flag again, with nothing registered |

## Left out

- `lib/service/notificationService.ts`, the HTTP gateway, is not modelled.
  - Each of its functions sends one request to a backend the model cannot see.
  - Each throws on a non-success status.
  - None of them holds state.
- The backend-synchronised actions and `loadNotificationsFromBackend` are not modelled. The
  notifications page calls them, but the store does not define them.
- `generateId` (time plus random) and the `new Date().toISOString()` timestamps are parameters.
  - Fresh ids and timestamps are arguments of the methods that need them.
  - Timestamps are opaque strings.
  - The freshness of a generated id is a hypothesis where uniqueness matters: in
    `AddNotification`'s ensures, and in the constructor's distinct sample ids.
- The socket.io transport itself is abstracted as described above.
  - Out of scope: connection establishment, `socket.disconnect()` on the wire, the
    `connect_error` handler (it only logs) and console logging.
  - Events may arrive in any order. The only restriction is that a socket closed by
    `disconnect` delivers no further `connect` or `notification` events.
- The authentication store is represented only by the user and the flag that `connect` reads.
  It is passed to `Connect` as a value.
- Backend record fields are modelled only as strings or booleans, either present or absent.
  - A field of another JavaScript type is not modelled, and neither is truthiness beyond
    "present and non-empty" or "true".
  - A missing `title` or `message` is not modelled either.
- `SocketService.IdString`: the user id is modelled as an integer in plain decimal. JavaScript's
  exponent notation for integers of 10^21 and above is not modelled.
- The React and Next.js presentation is not modelled. This covers the pages, navigation, the
  notification item, list and bell components, and the test panel. The test panel
  (`app/notifications/NotificationTest.tsx:19`) repeats the recipient-type rule of
  `RecipientType`.
- Zustand's subscription and re-rendering machinery is not modelled. Each store action is one
  atomic update of the class's fields.
- Concurrency and the interleaving of asynchronous callbacks are not modelled. Execution is
  single-threaded.
