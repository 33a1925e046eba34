/** The notification record of types/index.ts, and the id predicates the store relies on. */
module NotificationModel {

  datatype Option<T> = None | Some(value: T)

  /** `priority: 'low' | 'medium' | 'high'` */
  datatype Priority = Low | Medium | High

  /** The four values the `type` field is declared to take. */
  predicate IsListedType(t: string) {
    t == "info" || t == "warning" || t == "success" || t == "error"
  }

  /**
   * One notification. `kind` is the record's `type` field (a reserved word in Dafny). It is a
   * string rather than an enumeration because the push path stores whatever non-empty type the
   * backend sent, listed or not; `IsListedType` says which values the declaration admits.
   */
  datatype Notification = Notification(
    id: string,
    title: string,
    message: string,
    kind: string,
    isRead: bool,
    createdAt: string,
    actionUrl: Option<string>,
    priority: Priority)

  /** What `addNotification` is given: a Notification without `id`, `createdAt` and `isRead`. */
  datatype NotificationData = NotificationData(
    title: string,
    message: string,
    kind: string,
    actionUrl: Option<string>,
    priority: Priority)

  /** Some entry of `ns` carries `id`. */
  predicate HasId(ns: seq<Notification>, id: string) {
    exists i :: 0 <= i < |ns| && ns[i].id == id
  }

  /** No two entries of `ns` share an id. */
  predicate UniqueIds(ns: seq<Notification>) {
    forall i, j :: 0 <= i < j < |ns| ==> ns[i].id != ns[j].id
  }

  /** Uniqueness of ids, read off the head of a sequence. */
  lemma UniqueIdsCons(x: Notification, rest: seq<Notification>)
    ensures UniqueIds([x] + rest) <==> !HasId(rest, x.id) && UniqueIds(rest)
  {
    var s := [x] + rest;
    if UniqueIds(s) {
      forall i, j | 0 <= i < j < |rest| ensures rest[i].id != rest[j].id {
        assert s[i + 1] == rest[i] && s[j + 1] == rest[j];
      }
      forall i | 0 <= i < |rest| ensures rest[i].id != x.id {
        assert s[0] == x && s[i + 1] == rest[i];
      }
    }
    if !HasId(rest, x.id) && UniqueIds(rest) {
      forall i, j | 0 <= i < j < |s| ensures s[i].id != s[j].id {
        if i == 0 {
          assert s[j] == rest[j - 1];
        } else {
          assert s[i] == rest[i - 1] && s[j] == rest[j - 1];
        }
      }
    }
  }
}
