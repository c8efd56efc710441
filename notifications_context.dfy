/** The notification store of `NotificationsContext.jsx`: a collection of records
    that the provider replaces on every operation, and the capped unread view it derives. */
module NotificationsContext {
  import opened Seqs

  /** One notification record; `kind` is the record's `type` field. */
  datatype Notification = Notification(
    id: int,
    kind: string,
    title: string,
    description: string,
    timestamp: string,
    priority: string,
    read: bool)

  /** At most this many notifications appear in the unread view. */
  const UnreadViewSize: nat := 5

  /** The built-in seed list the store starts from: nothing is loaded from storage. */
  function Seed(): seq<Notification> {
    [
      Notification(1, "System", "System Maintenance", "Scheduled maintenance at midnight.", "Today", "High", false),
      Notification(2, "Stock", "Low Stock Alert", "Product XYZ is low on stock.", "Yesterday", "Medium", true),
      Notification(3, "Order", "Order Shipped", "Order #12345 has been shipped.", "Yesterday", "Low", false)
    ]
  }

  predicate IsUnread(n: Notification) {
    !n.read
  }

  function MarkIfId(n: Notification, id: int): Notification {
    if n.id == id then n.(read := true) else n
  }

  /** Every record carrying `id` becomes read; the others are kept as they are. */
  function MarkRead(ns: seq<Notification>, id: int): (r: seq<Notification>)
    ensures |r| == |ns|
    ensures forall i :: 0 <= i < |ns| ==> r[i] == ns[i].(read := ns[i].read || ns[i].id == id)
  {
    Map(n => MarkIfId(n, id), ns)
  }

  /** Every record becomes read, in place. */
  function MarkAllRead(ns: seq<Notification>): (r: seq<Notification>)
    ensures |r| == |ns|
    ensures forall i :: 0 <= i < |ns| ==> r[i] == ns[i].(read := true)
  {
    Map((n: Notification) => n.(read := true), ns)
  }

  /** The records whose id differs from `id`, in their original order. */
  function WithoutId(ns: seq<Notification>, id: int): (r: seq<Notification>)
    ensures Subseq(r, ns)
    ensures forall i :: 0 <= i < |r| ==> r[i].id != id
    ensures forall i :: 0 <= i < |ns| && ns[i].id != id ==> ns[i] in r
    ensures |r| + |Filter((n: Notification) => n.id == id, ns)| == |ns|
  {
    FilterSplitsLength((n: Notification) => n.id == id, (n: Notification) => !(n.id == id), ns);
    Filter((n: Notification) => !(n.id == id), ns)
  }

  function Unread(ns: seq<Notification>): seq<Notification> {
    Filter(IsUnread, ns)
  }

  /** The first five unread records in collection order (not sorted by timestamp). */
  function UnreadView(ns: seq<Notification>): (r: seq<Notification>)
    ensures |r| <= UnreadViewSize
    ensures |r| == if |Unread(ns)| < UnreadViewSize then |Unread(ns)| else UnreadViewSize
    ensures r == Unread(ns)[..|r|]
    ensures forall i :: 0 <= i < |r| ==> !r[i].read && r[i] in ns
    ensures Subseq(r, ns)
  {
    var u := Unread(ns);
    var k := if |u| < UnreadViewSize then |u| else UnreadViewSize;
    SubseqPrefix(u, k);
    SubseqTransitive(u[..k], u, ns);
    u[..k]
  }

  /** Marking a record no longer present changes nothing. */
  lemma MarkReadAbsent(ns: seq<Notification>, id: int)
    requires forall i :: 0 <= i < |ns| ==> ns[i].id != id
    ensures MarkRead(ns, id) == ns
  {
  }

  lemma MarkReadIdempotent(ns: seq<Notification>, id: int)
    ensures MarkRead(MarkRead(ns, id), id) == MarkRead(ns, id)
  {
  }

  /** After `markAsRead(id)` no record with that id is left in the unread view. */
  lemma MarkReadLeavesUnreadView(ns: seq<Notification>, id: int)
    ensures forall n :: n in UnreadView(MarkRead(ns, id)) ==> n.id != id
  {
    var m := MarkRead(ns, id);
    forall n | n in UnreadView(m)
      ensures n.id != id
    {
      var k :| 0 <= k < |UnreadView(m)| && UnreadView(m)[k] == n;
      assert n in m;
    }
  }

  /** After `markAllAsRead` the unread view is empty, and the records keep their order. */
  lemma MarkAllReadEmptiesUnreadView(ns: seq<Notification>)
    ensures UnreadView(MarkAllRead(ns)) == []
  {
    var m := MarkAllRead(ns);
    FilterEmpty(IsUnread, m);
  }

  /** Deleting an id that is not present changes nothing. */
  lemma WithoutIdAbsent(ns: seq<Notification>, id: int)
    requires forall i :: 0 <= i < |ns| ==> ns[i].id != id
    ensures WithoutId(ns, id) == ns
  {
    FilterKeepsAll((n: Notification) => !(n.id == id), ns);
  }

  /** With six unread records the view holds exactly five, all unread. */
  lemma SixUnreadGiveFive(ns: seq<Notification>)
    requires |Unread(ns)| == 6
    ensures |UnreadView(ns)| == 5
  {
  }

  /** The seed list shows records 1 and 3 as unread. */
  lemma SeedUnreadView()
    ensures UnreadView(Seed()) == [Seed()[0], Seed()[2]]
  {
    var s := Seed();
    assert s == [s[0]] + [s[1]] + [s[2]];
    FilterConcat(IsUnread, [s[0]] + [s[1]], [s[2]]);
    FilterConcat(IsUnread, [s[0]], [s[1]]);
  }

  /** The provider's state: the `notifications` field replaced by each operation. */
  class NotificationsProvider {
    var notifications: seq<Notification>

    constructor ()
      ensures notifications == Seed()
    {
      notifications := Seed();
    }

    method MarkAsRead(id: int)
      modifies this
      ensures notifications == MarkRead(old(notifications), id)
    {
      notifications := MarkRead(notifications, id);
    }

    method MarkAllAsRead()
      modifies this
      ensures notifications == MarkAllRead(old(notifications))
      ensures UnreadNotifications() == []
    {
      notifications := MarkAllRead(notifications);
      MarkAllReadEmptiesUnreadView(old(notifications));
    }

    method DeleteNotification(id: int)
      modifies this
      ensures notifications == WithoutId(old(notifications), id)
    {
      notifications := WithoutId(notifications, id);
    }

    method ClearAll()
      modifies this
      ensures notifications == []
      ensures UnreadNotifications() == []
    {
      notifications := [];
    }

    /** The derived `unreadNotifications` value, recomputed from the collection. */
    function UnreadNotifications(): seq<Notification>
      reads this
    {
      UnreadView(notifications)
    }
  }
}
