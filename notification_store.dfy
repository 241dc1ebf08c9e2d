/**
 * The Svelte toast store: a `writable` list of `{type, message, id}` entries. `add` appends an
 * entry whose id is the clock reading; `remove` filters out every entry with an id. The
 * automatic removal three seconds later is a timer and is not modelled.
 */
module NotificationStore {
  import opened Lists

  datatype ToastType = Success | Error | Info

  datatype Toast = Toast(kind: ToastType, message: string, id: int)

  function ToastKey(t: Toast): int { t.id }

  /** `[...notifications, { type, message, id }]`. */
  function Added(toasts: seq<Toast>, kind: ToastType, message: string, id: int): (r: seq<Toast>)
    ensures |r| == |toasts| + 1 && r[..|toasts|] == toasts && r[|toasts|] == Toast(kind, message, id)
  {
    toasts + [Toast(kind, message, id)]
  }

  /** `notifications.filter(notification => notification.id !== id)`. */
  function Removed(toasts: seq<Toast>, id: int): (r: seq<Toast>)
    ensures forall t :: t in r <==> t in toasts && t.id != id
    ensures forall t :: multiset(r)[t] == if t.id != id then multiset(toasts)[t] else 0
    ensures IsSubsequence(r, toasts)
  {
    forall t ensures multiset(RemoveKey(toasts, ToastKey, id))[t] == if t.id != id then multiset(toasts)[t] else 0 {
      RemoveKeyMultiplicity(toasts, ToastKey, id, t);
    }
    RemoveKey(toasts, ToastKey, id)
  }

  /** Removing an id no toast carries changes nothing. */
  lemma RemoveAbsentIsNoOp(toasts: seq<Toast>, id: int)
    requires forall i :: 0 <= i < |toasts| ==> toasts[i].id != id
    ensures Removed(toasts, id) == toasts
  {
    RemoveAbsentKey(toasts, ToastKey, id);
  }

  /** Removing twice is removing once. */
  lemma RemoveIdempotent(toasts: seq<Toast>, id: int)
    ensures Removed(Removed(toasts, id), id) == Removed(toasts, id)
  {
    RemoveKeyIdempotent(toasts, ToastKey, id);
  }

  /** Adding a toast with a fresh id and then removing that id gives back the list. */
  lemma RemoveUndoesAdd(toasts: seq<Toast>, kind: ToastType, message: string, id: int)
    requires forall i :: 0 <= i < |toasts| ==> toasts[i].id != id
    ensures Removed(Added(toasts, kind, message, id), id) == toasts
  {
    RemoveKeyAfterAppend(toasts, ToastKey, id, Toast(kind, message, id));
    RemoveAbsentIsNoOp(toasts, id);
  }

  /**
   * Two toasts added in the same millisecond share an id, so removing (or the timer of) one
   * removes both.
   */
  lemma SameMillisecondToastsLeaveTogether(kind: ToastType, m1: string, m2: string, now: int)
    ensures Removed(Added(Added([], kind, m1, now), kind, m2, now), now) == []
  {
    RemoveKeyAfterAppend(Added([], kind, m1, now), ToastKey, now, Toast(kind, m2, now));
    RemoveKeyAfterAppend([], ToastKey, now, Toast(kind, m1, now));
  }

  class ToastStore {
    var toasts: seq<Toast>

    constructor ()
      ensures toasts == []
    {
      toasts := [];
    }

    /** `add(type, message)`, with `now` the value of `Date.now()`. */
    method Add(kind: ToastType, message: string, now: int)
      modifies this
      ensures toasts == Added(old(toasts), kind, message, now)
    {
      toasts := Added(toasts, kind, message, now);
    }

    /** `remove(id)`. */
    method Remove(id: int)
      modifies this
      ensures toasts == Removed(old(toasts), id)
    {
      toasts := Removed(toasts, id);
    }
  }
}
