/** The Notifications page of `Notifications.jsx`: its own copy of the collection
    (`items`), the selected type, and the views derived from them. Its handlers perform
    the same updates as the store, so they are specified by the same functions. */
module NotificationsPage {
  import opened Seqs
  import opened NotificationsContext

  /** The value of the type selector that shows every record. */
  const AllTypes: string := "all"

  /** Whether a record passes the type selector. */
  predicate OfSelectedType(n: Notification, selectedType: string) {
    selectedType == AllTypes || n.kind == selectedType
  }

  /** The records shown for the selected type. */
  function FilteredItems(items: seq<Notification>, selectedType: string): (r: seq<Notification>)
    ensures selectedType == AllTypes ==> r == items
    ensures Subseq(r, items)
    ensures forall i :: 0 <= i < |r| ==> selectedType == AllTypes || r[i].kind == selectedType
    ensures forall i :: 0 <= i < |items| && OfSelectedType(items[i], selectedType) ==> items[i] in r
    ensures forall n :: multiset(r)[n] == if OfSelectedType(n, selectedType) then multiset(items)[n] else 0
  {
    var keep := (n: Notification) => OfSelectedType(n, selectedType);
    FilterKeepsAll(keep, items);
    FilterMultiset(keep, items);
    Filter(keep, items)
  }

  /** The number of unread records over all items, whatever type is selected: each record
      adds one exactly when it is unread, and the read ones make up the rest. */
  function UnreadCount(items: seq<Notification>): (c: nat)
    ensures c <= |items|
    ensures c == 0 <==> forall i :: 0 <= i < |items| ==> items[i].read
    ensures items != [] ==> c == (if items[0].read then 0 else 1) + UnreadCount(items[1..])
    ensures c + |Filter((n: Notification) => n.read, items)| == |items|
  {
    FilterEmpty(IsUnread, items);
    FilterSplitsLength(IsUnread, (n: Notification) => n.read, items);
    |Unread(items)|
  }

  /** The "Mark all as read" button is offered only while something is unread. */
  predicate OffersMarkAllAsRead(items: seq<Notification>) {
    UnreadCount(items) > 0
  }

  /** A row offers "Mark as read" only for an unread record. */
  predicate OffersMarkAsRead(n: Notification) {
    !n.read
  }

  /** The empty-list message appears exactly when the filtered list is empty. */
  predicate ShowsNoNotifications(items: seq<Notification>, selectedType: string) {
    FilteredItems(items, selectedType) == []
  }

  lemma OffersMarkAllIffSomeUnread(items: seq<Notification>)
    ensures OffersMarkAllAsRead(items) <==> exists i :: 0 <= i < |items| && OffersMarkAsRead(items[i])
  {
  }

  /** The unread count covers every type: it is never below the number of unread records
      that the selected type shows. */
  lemma UnreadCountCoversFilter(items: seq<Notification>, selectedType: string)
    ensures |Unread(FilteredItems(items, selectedType))| <= UnreadCount(items)
  {
    FilterSubseqLength(IsUnread, FilteredItems(items, selectedType), items);
  }

  /** The page's state: `items` and `selectedType`. */
  class NotificationsPageState {
    var items: seq<Notification>
    var selectedType: string

    constructor ()
      ensures items == Seed() && selectedType == AllTypes
    {
      items := Seed();
      selectedType := AllTypes;
    }

    method SelectType(t: string)
      modifies this
      ensures selectedType == t && items == old(items)
    {
      selectedType := t;
    }

    method HandleMarkAsRead(id: int)
      modifies this
      ensures items == MarkRead(old(items), id) && selectedType == old(selectedType)
    {
      items := MarkRead(items, id);
    }

    method HandleDelete(id: int)
      modifies this
      ensures items == WithoutId(old(items), id) && selectedType == old(selectedType)
    {
      items := WithoutId(items, id);
    }

    method HandleMarkAllAsRead()
      modifies this
      ensures items == MarkAllRead(old(items)) && selectedType == old(selectedType)
      ensures !OffersMarkAllAsRead(items)
    {
      items := MarkAllRead(items);
    }

    method HandleClearAll()
      modifies this
      ensures items == [] && selectedType == old(selectedType)
      ensures ShowsNoNotifications(items, selectedType)
    {
      items := [];
    }
  }
}
