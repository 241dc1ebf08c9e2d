/**
 * The Redux notification slice: the list of server notifications, the unread counter kept
 * beside it, and the reducer cases that change them. `unshift`, `find` followed by a field
 * write and `forEach` change the list in place; here the state is a class.
 */
module NotificationSlice {
  import opened Wrappers
  import opened Entities
  import opened Lists

  /** The number of unread notifications in a list. */
  function CountUnread(ns: seq<Notification>): (c: nat)
    ensures c <= |ns|
    ensures c == 0 <==> forall i :: 0 <= i < |ns| ==> ns[i].read
    decreases |ns|
  {
    if ns == [] then 0 else (if ns[0].read then 0 else 1) + CountUnread(ns[1..])
  }

  lemma {:induction false} CountUnreadConcat(a: seq<Notification>, b: seq<Notification>)
    ensures CountUnread(a + b) == CountUnread(a) + CountUnread(b)
    decreases |a|
  {
    if a == [] {
      assert a + b == b;
    } else {
      assert (a + b)[1..] == a[1..] + b;
      CountUnreadConcat(a[1..], b);
    }
  }

  /** Marking the notification at `i` read lowers the unread count by one when it was unread. */
  lemma {:induction false} CountUnreadAfterMark(ns: seq<Notification>, i: nat)
    requires i < |ns|
    ensures CountUnread(ns[i := ns[i].(read := true)]) ==
      CountUnread(ns) - (if ns[i].read then 0 else 1)
    decreases |ns|
  {
    if i > 0 {
      CountUnreadAfterMark(ns[1..], i - 1);
      assert ns[i := ns[i].(read := true)][1..] == ns[1..][i - 1 := ns[i].(read := true)];
    } else {
      assert ns[i := ns[i].(read := true)][1..] == ns[1..];
    }
  }

  /**
   * The list after `markAsRead(id)` succeeds: the FIRST notification with that id becomes
   * read. Others, and later duplicates of the id, are untouched.
   */
  function MarkFirstRead(ns: seq<Notification>, id: int): (r: seq<Notification>)
    ensures |r| == |ns|
    ensures forall i :: 0 <= i < |ns| ==> r[i].id == ns[i].id && r[i].kind == ns[i].kind && r[i].message == ns[i].message
    ensures (forall i :: 0 <= i < |ns| ==> ns[i].id != id) ==> r == ns
    ensures forall i :: 0 <= i < |ns| && ns[i].id == id && (forall j :: 0 <= j < i ==> ns[j].id != id) ==>
      r == ns[i := ns[i].(read := true)]
  {
    match FirstIndex(ns, NotificationKey, id)
    case None => ns
    case Some(i) => ns[i := ns[i].(read := true)]
  }

  /** Marking the same id read twice is the same as marking it once. */
  lemma MarkFirstReadIdempotent(ns: seq<Notification>, id: int)
    ensures MarkFirstRead(MarkFirstRead(ns, id), id) == MarkFirstRead(ns, id)
  {
    var r := MarkFirstRead(ns, id);
    match FirstIndex(ns, NotificationKey, id)
    case None =>
    case Some(i) =>
      assert r[i].id == id;
      forall j | 0 <= j < i ensures r[j].id != id {
      }
      assert r[i := r[i].(read := true)] == r;
  }

  /** The list after `markAllAsRead` succeeds: every notification is read, in the same order. */
  function MarkAllRead(ns: seq<Notification>): (r: seq<Notification>)
    ensures |r| == |ns|
    ensures forall i :: 0 <= i < |ns| ==> r[i] == ns[i].(read := true)
    ensures CountUnread(r) == 0
  {
    seq(|ns|, i requires 0 <= i < |ns| => ns[i].(read := true))
  }

  class NotificationState {
    var notifications: seq<Notification>
    var unreadCount: int
    var loading: bool
    var error: Option<string>

    /** The counter agrees with the list. */
    predicate Consistent()
      reads this
    {
      unreadCount == CountUnread(notifications)
    }

    /** `initialState`. */
    constructor ()
      ensures notifications == [] && unreadCount == 0 && !loading && error == None
      ensures Consistent()
    {
      notifications, unreadCount, loading, error := [], 0, false, None;
    }

    /** `clearError`. */
    method ClearError()
      modifies this`error
      ensures error == None
    {
      error := None;
    }

    /** `addNotification`: the payload goes first, and the counter grows iff it is unread. */
    method AddNotification(payload: Notification)
      modifies this`notifications, this`unreadCount
      ensures notifications == [payload] + old(notifications)
      ensures |notifications| == |old(notifications)| + 1
      ensures unreadCount == old(unreadCount) + (if payload.read then 0 else 1)
      ensures old(Consistent()) ==> Consistent()
    {
      notifications := [payload] + notifications;
      if !payload.read {
        unreadCount := unreadCount + 1;
      }
      CountUnreadConcat([payload], old(notifications));
    }

    /** `fetchUnreadNotifications.pending`. */
    method FetchUnreadPending()
      modifies this`loading, this`error
      ensures loading && error == None
    {
      loading := true;
      error := None;
    }

    /**
     * `fetchUnreadNotifications.fulfilled`: the payload replaces the list and the counter is its
     * length, which agrees with the list exactly when every fetched notification is unread.
     */
    method FetchUnreadFulfilled(payload: seq<Notification>)
      modifies this`loading, this`notifications, this`unreadCount
      ensures !loading && notifications == payload && unreadCount == |payload|
      ensures Consistent() <==> forall i :: 0 <= i < |payload| ==> !payload[i].read
    {
      loading := false;
      notifications := payload;
      unreadCount := |payload|;
      CountAllUnread(payload);
    }

    /** `fetchUnreadNotifications.rejected`: the list is kept and the payload becomes the error. */
    method FetchUnreadRejected(payload: Option<string>)
      modifies this`loading, this`error
      ensures !loading && error == payload
    {
      loading := false;
      error := payload;
    }

    /**
     * `markNotificationAsRead.fulfilled`: when the first notification with the id exists and
     * is unread it becomes read and the counter drops by one, never below zero; otherwise
     * nothing changes.
     */
    method MarkAsReadFulfilled(id: int)
      modifies this`notifications, this`unreadCount
      ensures notifications == MarkFirstRead(old(notifications), id)
      ensures match FirstIndex(old(notifications), NotificationKey, id)
        case Some(i) =>
          if old(notifications)[i].read then unreadCount == old(unreadCount)
          else unreadCount == if old(unreadCount) - 1 < 0 then 0 else old(unreadCount) - 1
        case None => unreadCount == old(unreadCount)
      ensures old(Consistent()) ==> Consistent()
    {
      var found := FirstIndex(notifications, NotificationKey, id);
      if found.Some? && !notifications[found.value].read {
        var i := found.value;
        CountUnreadAfterMark(notifications, i);
        notifications := notifications[i := notifications[i].(read := true)];
        unreadCount := if unreadCount - 1 < 0 then 0 else unreadCount - 1;
      }
    }

    /** `markAllNotificationsAsRead.fulfilled`: everything is read and the counter is zero. */
    method MarkAllAsReadFulfilled()
      modifies this`notifications, this`unreadCount
      ensures notifications == MarkAllRead(old(notifications))
      ensures unreadCount == 0 && Consistent()
    {
      notifications := MarkAllRead(notifications);
      unreadCount := 0;
    }
  }

  /** A list counts all its notifications as unread exactly when none of them is read. */
  lemma {:induction false} CountAllUnread(ns: seq<Notification>)
    ensures CountUnread(ns) == |ns| <==> forall i :: 0 <= i < |ns| ==> !ns[i].read
    decreases |ns|
  {
    if ns != [] {
      CountAllUnread(ns[1..]);
      assert forall i :: 1 <= i < |ns| ==> ns[i] == ns[1..][i - 1];
    }
  }
}
