/**
 * The notifications page: the user's notifications, marking one as read and
 * deleting one, with each entry offering exactly one of the two actions.
 */
module NotificationsPage {

  import opened Types
  import opened Backend
  import Seqs

  /** `notif.id === id ? { ...notif, is_read: true } : notif` over the list (and the table update). */
  function MarkRead(ns: seq<NotificationRow>, id: string): (r: seq<NotificationRow>)
    ensures |r| == |ns|
    ensures forall i :: 0 <= i < |ns| && ns[i].id != id ==> r[i] == ns[i]
    ensures forall i :: 0 <= i < |ns| && ns[i].id == id ==> r[i] == ns[i].(isRead := true)
  {
    Seqs.Map(ns, (n: NotificationRow) => if n.id == id then n.(isRead := true) else n)
  }

  /** `prev.filter(notif => notif.id !== id)` (and the table delete). */
  function WithoutNotification(ns: seq<NotificationRow>, id: string): seq<NotificationRow>
  {
    Seqs.Filter(ns, (n: NotificationRow) => n.id != id)
  }

  /** The number of unread entries. */
  function UnreadCount(ns: seq<NotificationRow>): nat
  {
    if ns == [] then 0 else (if ns[0].isRead then 0 else 1) + UnreadCount(ns[1..])
  }

  /** Marking the same notification read twice is the same as once. */
  lemma MarkReadIdempotent(ns: seq<NotificationRow>, id: string)
    ensures MarkRead(MarkRead(ns, id), id) == MarkRead(ns, id)
  {
  }

  /**
   * Marking as read never raises the unread count, and lowers it when an unread
   * entry with that id is present.
   */
  lemma {:induction false} MarkReadLowersUnread(ns: seq<NotificationRow>, id: string)
    ensures UnreadCount(MarkRead(ns, id)) <= UnreadCount(ns)
    ensures (exists i :: 0 <= i < |ns| && ns[i].id == id && !ns[i].isRead) ==> UnreadCount(MarkRead(ns, id)) < UnreadCount(ns)
    decreases |ns|
  {
    if ns != [] {
      MarkReadLowersUnread(ns[1..], id);
      assert MarkRead(ns, id)[1..] == MarkRead(ns[1..], id);
      if exists i :: 0 <= i < |ns| && ns[i].id == id && !ns[i].isRead {
        var i :| 0 <= i < |ns| && ns[i].id == id && !ns[i].isRead;
        if i > 0 {
          assert ns[1..][i - 1] == ns[i];
        }
      }
    }
  }

  /** Deletion drops exactly the entries with that id and keeps the rest in order. */
  lemma DeleteKeepsOthers(ns: seq<NotificationRow>, id: string)
    ensures Seqs.IsSubsequence(WithoutNotification(ns, id), ns)
    ensures forall i :: 0 <= i < |WithoutNotification(ns, id)| ==> WithoutNotification(ns, id)[i].id != id
    ensures forall i :: 0 <= i < |ns| && ns[i].id != id ==> ns[i] in WithoutNotification(ns, id)
  {
    Seqs.FilterIsSubsequence(ns, (n: NotificationRow) => n.id != id);
  }

  /** The one action button each entry shows. */
  datatype Action = MarkAsReadButton | DeleteButton

  function ActionFor(n: NotificationRow): Action
  {
    if !n.isRead then MarkAsReadButton else DeleteButton
  }

  /**
   * Once an entry is marked read it offers delete, and only entries already read
   * are ever offered delete.
   */
  lemma MarkReadEnablesDelete(ns: seq<NotificationRow>, id: string)
    ensures forall i :: 0 <= i < |ns| && ns[i].id == id ==> ActionFor(MarkRead(ns, id)[i]) == DeleteButton
    ensures forall i :: 0 <= i < |ns| ==> (ActionFor(ns[i]) == DeleteButton <==> ns[i].isRead)
  {
  }

  class Notifications {
    const store: Store
    const userId: string
    var notifications: seq<NotificationRow>

    constructor (store: Store, userId: string)
      ensures this.store == store && this.userId == userId && notifications == []
    {
      this.store := store;
      this.userId := userId;
      notifications := [];
    }

    /** `fetchNotifications`: the user's rows; a failed read keeps the list. */
    method FetchNotifications(readFails: bool)
      modifies this`notifications
      ensures notifications ==
        if readFails then old(notifications) else Seqs.Filter(store.notifications, (n: NotificationRow) => n.userId == userId)
    {
      if !readFails {
        notifications := Seqs.Filter(store.notifications, (n: NotificationRow) => n.userId == userId);
      }
    }

    /**
     * `markAsRead`.  The update's `{ error }` is not read: a rejected update leaves
     * the table but the local entry still becomes read; a thrown one changes nothing.
     */
    method MarkAsRead(id: string, reply: Reply)
      modifies this`notifications, store`notifications
      ensures store.notifications == if reply == Written then MarkRead(old(store.notifications), id) else old(store.notifications)
      ensures notifications == if reply == Thrown then old(notifications) else MarkRead(old(notifications), id)
      ensures UnreadCount(notifications) <= UnreadCount(old(notifications))
    {
      MarkReadLowersUnread(notifications, id);
      if reply == Thrown {
        return;
      }
      if reply == Written {
        store.notifications := MarkRead(store.notifications, id);
      }
      notifications := MarkRead(notifications, id);
    }

    /** `deleteNotification`, with the same three outcomes as `markAsRead`. */
    method DeleteNotification(id: string, reply: Reply)
      modifies this`notifications, store`notifications
      ensures store.notifications ==
        if reply == Written then WithoutNotification(old(store.notifications), id) else old(store.notifications)
      ensures notifications == if reply == Thrown then old(notifications) else WithoutNotification(old(notifications), id)
    {
      if reply == Thrown {
        return;
      }
      if reply == Written {
        store.notifications := WithoutNotification(store.notifications, id);
      }
      notifications := WithoutNotification(notifications, id);
    }
  }
}
