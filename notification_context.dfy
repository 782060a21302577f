/**
 * The list of notifications on screen (contexts/NotificationContext.tsx):
 * a notification is appended with the current time as its id and removed
 * by id.
 */
module NotificationContext {

  import opened Types
  import opened Seqs

  predicate HasId(notifications: seq<NotificationMessage>, id: int)
  {
    exists i :: 0 <= i < |notifications| && notifications[i].id == id
  }

  function IdDiffers(id: int): NotificationMessage -> bool
  {
    (n: NotificationMessage) => n.id != id
  }

  /** `prev.filter(n => n.id !== id)`: every entry with the id goes, the rest keep their order. */
  function WithoutNotification(notifications: seq<NotificationMessage>, id: int): (r: seq<NotificationMessage>)
    ensures !HasId(r, id)
    ensures forall i :: 0 <= i < |notifications| && notifications[i].id != id ==> notifications[i] in r
    ensures forall i :: 0 <= i < |r| ==> r[i] in notifications
    ensures IsSubsequence(r, notifications)
    ensures forall n :: multiset(r)[n] == if n.id != id then multiset(notifications)[n] else 0
  {
    FilterIsSubsequence(notifications, IdDiffers(id));
    FilterCounts(notifications, IdDiffers(id));
    Filter(notifications, IdDiffers(id))
  }

  /** Removing an id that is not on screen leaves the list as it was. */
  lemma RemoveAbsentIsNoop(notifications: seq<NotificationMessage>, id: int)
    requires !HasId(notifications, id)
    ensures WithoutNotification(notifications, id) == notifications
  {
    FilterKeepsAll(notifications, IdDiffers(id));
  }

  /** Adding a notification with a fresh id and removing it again restores the list. */
  lemma RemoveAfterAddRestores(notifications: seq<NotificationMessage>, message: string,
                               kind: NotificationType, id: int)
    requires !HasId(notifications, id)
    ensures WithoutNotification(notifications + [NotificationMessage(id, message, kind)], id) == notifications
  {
    FilterAppend(notifications, [NotificationMessage(id, message, kind)], IdDiffers(id));
    FilterKeepsAll(notifications, IdDiffers(id));
    assert Filter([NotificationMessage(id, message, kind)], IdDiffers(id)) == [];
  }

  /** The provider's state. */
  class NotificationCenter {
    var notifications: seq<NotificationMessage>

    constructor ()
      ensures notifications == []
    {
      notifications := [];
    }

    /** `addNotification`: `now` is `Date.now()`, which becomes the id. */
    method AddNotification(message: string, kind: NotificationType, now: int) returns (id: int)
      modifies this
      ensures id == now
      ensures notifications == old(notifications) + [NotificationMessage(now, message, kind)]
    {
      id := now;
      notifications := notifications + [NotificationMessage(id, message, kind)];
    }

    method RemoveNotification(id: int)
      modifies this
      ensures notifications == WithoutNotification(old(notifications), id)
    {
      notifications := WithoutNotification(notifications, id);
    }
  }
}
