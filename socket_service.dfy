/**
 * The push-channel client (lib/service/socketService.ts): its connection state, the guard on
 * `connect`, the commands it sends only while connected, and the mapping of a pushed backend
 * record onto the store. The transport is abstracted: every socket `connect` creates is a number
 * (its position in `sockets`), transport events arrive through the `On...` methods, and what
 * the client emits is appended to `outbox`.
 */
module SocketService {
  import opened NotificationModel
  import NotificationStore

  // ---------------------------------------------------------------------------------------
  // `user.id.toString()` for integer ids, and its inverse

  function DigitChar(d: nat): (c: char)
    requires d < 10
    ensures '0' <= c <= '9'
  {
    ('0' as int + d) as char
  }

  predicate IsDigits(s: string) {
    |s| > 0 && forall i :: 0 <= i < |s| ==> '0' <= s[i] <= '9'
  }

  /** Decimal digits of `n`, most significant first, without leading zeros. */
  function NatString(n: nat): (s: string)
    ensures IsDigits(s)
    ensures s[0] == '0' ==> n == 0
    decreases n
  {
    if n < 10 then [DigitChar(n)] else NatString(n / 10) + [DigitChar(n % 10)]
  }

  /** The value of a string of decimal digits. */
  function DigitsValue(s: string): nat
    requires IsDigits(s)
    decreases |s|
  {
    var last := (s[|s| - 1] as int - '0' as int) as nat;
    if |s| == 1 then last else DigitsValue(s[..|s| - 1]) * 10 + last
  }

  /** How `Number.prototype.toString` writes an integer: a minus sign for negatives, then digits. */
  function IdString(n: int): (r: string)
    ensures |r| > 0 && (r[0] == '-' <==> n < 0)
    ensures n < 0 ==> IsDigits(r[1..])
    ensures n >= 0 ==> IsDigits(r)
  {
    if n < 0 then "-" + NatString(-n) else NatString(n)
  }

  /** Reads back an integer written by `IdString`: an optional minus sign and decimal digits. */
  function ParseId(s: string): Option<int> {
    if |s| > 1 && s[0] == '-' && IsDigits(s[1..]) then Some(-(DigitsValue(s[1..]) as int))
    else if IsDigits(s) then Some(DigitsValue(s))
    else None
  }

  lemma {:induction false} NatStringRoundTrip(n: nat)
    ensures DigitsValue(NatString(n)) == n
    decreases n
  {
    if n >= 10 {
      var prefix := NatString(n / 10);
      var s := prefix + [DigitChar(n % 10)];
      assert s[..|s| - 1] == prefix;
      NatStringRoundTrip(n / 10);
    }
  }

  /** The id sent in `register` determines the user id: distinct users register distinct ids. */
  lemma IdStringRoundTrip(n: int)
    ensures ParseId(IdString(n)) == Some(n)
  {
    var s := IdString(n);
    if n < 0 {
      var digits := NatString(-n);
      assert s == "-" + digits;
      assert s[0] == '-' && s[1..] == digits;
      NatStringRoundTrip(-n);
    } else {
      assert s == NatString(n);
      assert s[0] != '-';
      NatStringRoundTrip(n);
    }
  }

  // ---------------------------------------------------------------------------------------
  // The recipient type announced at registration

  /** `user.role === 'ROLE_CUSTOMER' ? 'user' : 'employee'` */
  function RecipientType(role: string): (r: string)
    ensures r == "user" || r == "employee"
    ensures r == "user" <==> role == "ROLE_CUSTOMER"
  {
    if role == "ROLE_CUSTOMER" then "user" else "employee"
  }

  // ---------------------------------------------------------------------------------------
  // Normalising a pushed backend record

  /**
   * A pushed backend record, as far as the client reads it. `mongoId` is the record's `_id`,
   * `kind` its `type`; an absent field is `None`.
   */
  datatype BackendRecord = BackendRecord(
    mongoId: Option<string>,
    id: Option<string>,
    title: string,
    message: string,
    read: Option<bool>,
    kind: Option<string>,
    createdAt: Option<string>)

  /** JavaScript truthiness of an optional string: present and not empty. */
  predicate Truthy(v: Option<string>) {
    v.Some? && v.value != ""
  }

  /** The record `handleNewNotification` builds before handing it to the store. */
  datatype PushedNotification = PushedNotification(
    id: Option<string>,
    title: string,
    message: string,
    kind: string,
    isRead: bool,
    createdAt: string,
    priority: Priority,
    actionUrl: Option<string>)

  /**
   * The record's own type when it is truthy, otherwise "info". Nothing checks the value against
   * the four declared types: the result is a listed type exactly when the record's type is
   * listed or missing.
   */
  function MapNotificationType(rec: BackendRecord): (r: string)
    ensures r != ""
    ensures Truthy(rec.kind) ==> r == rec.kind.value
    ensures !Truthy(rec.kind) ==> r == "info"
    ensures IsListedType(r) <==> (Truthy(rec.kind) ==> IsListedType(rec.kind.value))
  {
    if Truthy(rec.kind) then rec.kind.value else "info"
  }

  /** Always the notifications list, whatever the record. */
  function GetActionUrl(rec: BackendRecord): (r: Option<string>)
    ensures r.Some? && r.value == "/notifications"
  {
    Some("/notifications")
  }

  /** `handleNewNotification`'s conversion; `now` stands for `new Date().toISOString()`. */
  function Normalise(rec: BackendRecord, now: string): (r: PushedNotification)
    ensures r.id == if Truthy(rec.mongoId) then rec.mongoId else rec.id
    ensures r.isRead <==> rec.read == Some(true)
    ensures r.createdAt == if Truthy(rec.createdAt) then rec.createdAt.value else now
    ensures r.title == rec.title && r.message == rec.message
    ensures r.kind == MapNotificationType(rec)
    ensures r.priority == Medium && r.actionUrl == Some("/notifications")
  {
    PushedNotification(
      if Truthy(rec.mongoId) then rec.mongoId else rec.id,
      rec.title,
      rec.message,
      MapNotificationType(rec),
      rec.read == Some(true),
      if Truthy(rec.createdAt) then rec.createdAt.value else now,
      Medium,
      GetActionUrl(rec))
  }

  /**
   * What `addNotification` keeps of the pushed record: the spread copies every field, then the
   * store overwrites `id`, `createdAt` and `isRead`.
   */
  function ToData(p: PushedNotification): NotificationData {
    NotificationData(p.title, p.message, p.kind, p.actionUrl, p.priority)
  }

  /**
   * The entry an inbound push puts at the head of the store. It is unread and carries the fresh
   * id and the store's timestamp, whatever `_id`, `id`, `read` and `createdAt` the record had;
   * its other fields come from the record.
   */
  function PushedEntry(rec: BackendRecord, mappedAt: string, freshId: string, addedAt: string): (e: Notification)
    ensures e.id == freshId && !e.isRead && e.createdAt == addedAt
    ensures e.title == rec.title && e.message == rec.message && e.kind == MapNotificationType(rec)
    ensures e.priority == Medium && e.actionUrl == Some("/notifications")
  {
    NotificationStore.NewEntry(ToData(Normalise(rec, mappedAt)), freshId, addedAt)
  }

  /** Two records that differ only in `_id`, `id`, `read` and `createdAt` are stored alike. */
  lemma PushIgnoresIdReadAndTimestamp(a: BackendRecord, b: BackendRecord, mappedA: string, mappedB: string,
                                      freshId: string, addedAt: string)
    requires a.title == b.title && a.message == b.message && a.kind == b.kind
    ensures PushedEntry(a, mappedA, freshId, addedAt) == PushedEntry(b, mappedB, freshId, addedAt)
  {
  }

  /** A record pushed as already read is normalised as read and still stored as unread. */
  lemma PushedReadFlagIsDropped(rec: BackendRecord, mappedAt: string, freshId: string, addedAt: string)
    requires rec.read == Some(true)
    ensures Normalise(rec, mappedAt).isRead && !PushedEntry(rec, mappedAt, freshId, addedAt).isRead
  {
  }

  /** A record with an undeclared type is stored with that type: nothing maps it onto the four. */
  lemma UnlistedTypeIsStored(rec: BackendRecord, mappedAt: string, freshId: string, addedAt: string)
    requires Truthy(rec.kind) && !IsListedType(rec.kind.value)
    ensures PushedEntry(rec, mappedAt, freshId, addedAt).kind == rec.kind.value
    ensures !IsListedType(PushedEntry(rec, mappedAt, freshId, addedAt).kind)
  {
  }

  // ---------------------------------------------------------------------------------------
  // The client

  datatype User = User(id: int, role: string)

  /** The authentication store's state as `connect` reads it. */
  datatype AuthState = AuthState(user: Option<User>, isAuthenticated: bool)

  /** What the handlers one `connect` call registered on its socket captured. */
  datatype Channel = Channel(user: User, recipientType: string)

  datatype Command =
    | Register(id: string, recipientType: string)
    | MarkAsReadCommand(notificationId: string)
    | DeleteCommand(notificationId: string)

  /** A command emitted on socket number `socket`. */
  datatype Emission = Emission(socket: nat, command: Command)

  class Service {
    /** The current socket (a position in `sockets`), or none. */
    var socket: Option<nat>
    var isConnected: bool
    /** Every socket `connect` has created, in creation order. */
    var sockets: seq<Channel>
    /** The sockets `disconnect` has closed. */
    var closed: set<nat>
    /** Everything emitted, in order. */
    var outbox: seq<Emission>

    ghost predicate Valid()
      reads this
    {
      && (socket.Some? ==> socket.value < |sockets| && socket.value !in closed)
      && (forall k :: k in closed ==> k < |sockets|)
      && (forall i :: 0 <= i < |outbox| ==> outbox[i].socket < |sockets|)
      && (isConnected ==> sockets != [])
    }

    constructor ()
      ensures Valid()
      ensures socket == None && !isConnected && sockets == [] && closed == {} && outbox == []
    {
      socket := None;
      isConnected := false;
      sockets := [];
      closed := {};
      outbox := [];
    }

    /**
     * Without an authenticated user nothing happens. Otherwise a new socket is created and
     * becomes the current one; a socket that was current before is neither closed nor reused.
     */
    method Connect(auth: AuthState)
      requires Valid()
      modifies this
      ensures Valid()
      ensures !auth.isAuthenticated || auth.user.None? ==>
        socket == old(socket) && isConnected == old(isConnected) && sockets == old(sockets)
        && closed == old(closed) && outbox == old(outbox)
      ensures auth.isAuthenticated && auth.user.Some? ==>
        && sockets == old(sockets) + [Channel(auth.user.value, RecipientType(auth.user.value.role))]
        && socket == Some(|old(sockets)|)
        && isConnected == old(isConnected) && closed == old(closed) && outbox == old(outbox)
    {
      if !auth.isAuthenticated || auth.user.None? {
        return;
      }
      var user := auth.user.value;
      var recipientType := RecipientType(user.role);
      socket := Some(|sockets|);
      sockets := sockets + [Channel(user, recipientType)];
    }

    /**
     * Socket `k` connected: the flag is set and, when there is a current socket, `register` is
     * emitted on it with the user and recipient type that socket `k`'s `connect` captured.
     */
    method OnConnect(k: nat)
      requires Valid() && k < |sockets| && k !in closed
      modifies this`isConnected, this`outbox
      ensures Valid()
      ensures isConnected
      ensures outbox == old(outbox) +
        if socket.Some?
        then [Emission(socket.value, Register(IdString(sockets[k].user.id), sockets[k].recipientType))]
        else []
    {
      isConnected := true;
      if socket.Some? {
        var channel := sockets[k];
        outbox := outbox + [Emission(socket.value, Register(IdString(channel.user.id), channel.recipientType))];
      }
    }

    /** Socket `k` lost its connection. */
    method OnDisconnect(k: nat)
      requires k < |sockets|
      modifies this`isConnected
      ensures old(Valid()) ==> Valid()
      ensures !isConnected
    {
      isConnected := false;
    }

    /** Socket `k` delivered a record: it is normalised and added to the store. */
    method OnNotification(k: nat, rec: BackendRecord, store: NotificationStore.Store,
                          mappedAt: string, freshId: string, addedAt: string)
      requires k < |sockets| && k !in closed
      modifies store
      ensures store.notifications == [PushedEntry(rec, mappedAt, freshId, addedAt)] + old(store.notifications)
      ensures store.unreadCount == old(store.unreadCount) + 1
      ensures store.isConnected == old(store.isConnected)
      ensures old(store.Valid()) ==> store.Valid()
    {
      var pushed := Normalise(rec, mappedAt);
      store.AddNotification(ToData(pushed), freshId, addedAt);
    }

    /** Emits `markAsRead` when there is a socket and it is connected; otherwise does nothing. */
    method MarkAsRead(notificationId: string)
      requires Valid()
      modifies this`outbox
      ensures Valid()
      ensures outbox == if socket.Some? && isConnected
        then old(outbox) + [Emission(socket.value, MarkAsReadCommand(notificationId))]
        else old(outbox)
    {
      if socket.Some? && isConnected {
        outbox := outbox + [Emission(socket.value, MarkAsReadCommand(notificationId))];
      }
    }

    /** Emits `deleteNotification` when there is a socket and it is connected; otherwise does nothing. */
    method DeleteNotification(notificationId: string)
      requires Valid()
      modifies this`outbox
      ensures Valid()
      ensures outbox == if socket.Some? && isConnected
        then old(outbox) + [Emission(socket.value, DeleteCommand(notificationId))]
        else old(outbox)
    {
      if socket.Some? && isConnected {
        outbox := outbox + [Emission(socket.value, DeleteCommand(notificationId))];
      }
    }

    /** Closes the current socket, if any, and clears the flag; without a socket nothing changes. */
    method Disconnect()
      requires Valid()
      modifies this`socket, this`isConnected, this`closed
      ensures Valid()
      ensures socket == None
      ensures old(socket).None? ==> isConnected == old(isConnected) && closed == old(closed)
      ensures old(socket).Some? ==> !GetConnectionStatus() && closed == old(closed) + {old(socket).value}
    {
      if socket.Some? {
        closed := closed + {socket.value};
        socket := None;
        isConnected := false;
      }
    }

    /** The client's flag; under the invariant it can be true only once `connect` made a socket. */
    function GetConnectionStatus(): (r: bool)
      reads this
      ensures r <==> isConnected
      ensures Valid() && r ==> sockets != []
    {
      isConnected
    }
  }

  /**
   * Two `connect` calls leave two open sockets; after `disconnect` the first one can still
   * connect, which sets the flag again with no current socket to register on.
   */
  method ConnectTwiceThenDisconnect(user: User) returns (s: Service)
    ensures s.Valid()
    ensures |s.sockets| == 2 && s.closed == {1} && s.socket == None
    ensures s.GetConnectionStatus() && s.outbox == []
  {
    s := new Service();
    var auth := AuthState(Some(user), true);
    s.Connect(auth);
    s.Connect(auth);
    s.Disconnect();
    s.OnConnect(0);
  }
}
