/** Notifications: records appended by addDonor and addInstallment (and by
    callers), and the two ways of marking them read
    (src/lib/storage.ts). */
module Notifications {
  import opened Records

  /** The notification addNotification stores: a fresh uuid, unread. */
  function NewNotification(input: Notification, id: Uuid): (n: Notification)
    ensures n.id == id && !n.read
    ensures n == input.(id := id, read := false)
  {
    input.(id := id, read := false)
  }

  /** What addDonor passes to addNotification (its uuid and read flag are
      placeholders that addNotification replaces). */
  function WelcomeFor(d: Donor): (n: Notification)
    ensures n.kind == Welcome && n.donorId == Some(d.id) && n.guestId.None?
    ensures n.guestName == d.name && !n.read
  {
    Notification(0, Some(d.id), None, d.name, Welcome, false)
  }

  /** What addInstallment passes to addNotification: addressed to the
      payment's donor, under the payment's donor name or "Guest". */
  function PaymentNoticeFor(p: Payment): (n: Notification)
    ensures n.kind == PaymentConfirmation && n.donorId == Some(p.donorId) && n.guestId.None?
    ensures Given(p.donorName) ==> n.guestName == p.donorName.value
    ensures !Given(p.donorName) ==> n.guestName == "Guest"
    ensures !n.read
  {
    Notification(0, Some(p.donorId), None, StrOr(p.donorName, "Guest"), PaymentConfirmation, false)
  }

  /** The list after markAllNotificationsRead: the same notifications, in
      the same order, each read. */
  function AllRead(ns: seq<Notification>): (r: seq<Notification>)
    ensures |r| == |ns|
    ensures forall i :: 0 <= i < |ns| ==> r[i] == ns[i].(read := true)
  {
    if |ns| == 0 then [] else [ns[0].(read := true)] + AllRead(ns[1..])
  }

  /** How many notifications are unread. */
  function UnreadCount(ns: seq<Notification>): nat {
    if |ns| == 0 then 0 else (if ns[0].read then 0 else 1) + UnreadCount(ns[1..])
  }

  /** After marking all read, nothing is unread. */
  lemma {:induction false} AllReadLeavesNoneUnread(ns: seq<Notification>)
    ensures UnreadCount(AllRead(ns)) == 0
  {
    if |ns| > 0 {
      assert AllRead(ns)[1..] == AllRead(ns[1..]);
      AllReadLeavesNoneUnread(ns[1..]);
    }
  }

  /** Marking one unread notification read lowers the unread count by one. */
  lemma {:induction false} MarkOneRead(ns: seq<Notification>, i: int)
    requires 0 <= i < |ns| && !ns[i].read
    ensures UnreadCount(ns[i := ns[i].(read := true)]) == UnreadCount(ns) - 1
  {
    if i > 0 {
      assert ns[i := ns[i].(read := true)][1..] == ns[1..][i - 1 := ns[i].(read := true)];
      MarkOneRead(ns[1..], i - 1);
    }
  }
}
