/** The display rules of the activity dialog of `ActivityDetails.jsx`: the icon per type,
    the badge colour per status, the labelled detail entries, and the route the
    "View All" button takes. */
module ActivityDetails {
  import opened Seqs
  import opened Text
  import opened Wrappers

  /** A detail value as the entries carry it: a number or a text. */
  datatype DetailValue = NumberValue(n: int) | TextValue(s: string)

  /** The activity shown; `kind` is the record's `type` field and `details` lists the
      detail object's entries in the order the object yields them. */
  datatype Activity = Activity(
    kind: string,
    content: string,
    timestamp: string,
    status: string,
    user: string,
    details: Option<seq<(string, DetailValue)>>)

  const OrderIcon: string := "\U{1F6CD}\U{FE0F}"
  const StockIcon: string := "\U{1F4E6}"
  const UserIcon: string := "\U{1F464}"
  const DefaultIcon: string := "\U{1F4DD}"

  /** The icon, chosen by the exact type: "order" in lower case gets the default. */
  function ActivityIcon(kind: string): (icon: string)
    ensures kind == "Order" <==> icon == OrderIcon
    ensures kind == "Stock" <==> icon == StockIcon
    ensures kind == "User" <==> icon == UserIcon
    ensures kind !in {"Order", "Stock", "User"} <==> icon == DefaultIcon
  {
    match kind
    case "Order" => OrderIcon
    case "Stock" => StockIcon
    case "User" => UserIcon
    case _ => DefaultIcon
  }

  /** The badge variant for a status. */
  function StatusColor(status: string): (c: string)
    ensures status == "completed" <==> c == "success"
    ensures status == "pending" <==> c == "warning"
    ensures status == "failed" <==> c == "error"
    ensures status !in {"completed", "pending", "failed"} <==> c == "default"
  {
    match status
    case "completed" => "success"
    case "pending" => "warning"
    case "failed" => "error"
    case _ => "default"
  }

  /** The display names of the known detail keys. */
  function DisplayNames(): map<string, string> {
    map[
      "orderId" := "Order ID",
      "amount" := "Amount",
      "items" := "Items",
      "customer" := "Customer",
      "productId" := "Product ID",
      "currentStock" := "Current Stock",
      "reorderPoint" := "Reorder Point"]
  }

  /** A known key's display name, any other key as it is. */
  function DetailLabel(key: string): (caption: string)
    ensures key in DisplayNames() ==> caption == DisplayNames()[key]
    ensures key !in DisplayNames() ==> caption == key
  {
    if key in DisplayNames() then DisplayNames()[key] else key
  }

  /** How an entry's value is shown: the amount in shillings (the conversion itself is
      not part of this model), any other value as its `toString`. */
  datatype DetailText = UgxAmount(dollars: int) | Plain(text: string)

  datatype DetailEntry = DetailEntry(caption: string, value: DetailText)

  function ValueText(v: DetailValue): string {
    match v
    case NumberValue(n) => IntToString(n)
    case TextValue(s) => s
  }

  function FormatEntry(entry: (string, DetailValue)): (e: DetailEntry)
    ensures e.caption == DetailLabel(entry.0)
    ensures e.value.UgxAmount? <==> entry.0 == "amount" && entry.1.NumberValue?
    ensures e.value.UgxAmount? ==> e.value.dollars == entry.1.n
    ensures e.value.Plain? ==> e.value.text == ValueText(entry.1)
  {
    var (key, value) := entry;
    DetailEntry(DetailLabel(key),
      if value.NumberValue? && key == "amount" then UgxAmount(value.n) else Plain(ValueText(value)))
  }

  /** Nothing for absent details, else one entry per detail in the given order. */
  function FormatDetails(details: Option<seq<(string, DetailValue)>>): (r: Option<seq<DetailEntry>>)
    ensures r.None? <==> details.None?
    ensures r.Some? ==> |r.value| == |details.value|
    ensures r.Some? ==> forall i :: 0 <= i < |r.value| ==> r.value[i] == FormatEntry(details.value[i])
  {
    if details.None? then None else Some(Map(FormatEntry, details.value))
  }

  /** A text value under an amount key is shown as text, and a number under any other key
      as its digits. */
  lemma AmountRuleNeedsBoth()
    ensures FormatEntry(("amount", TextValue("100"))) == DetailEntry("Amount", Plain("100"))
    ensures FormatEntry(("items", NumberValue(3))) == DetailEntry("Items", Plain("3"))
    ensures FormatEntry(("note", TextValue("x"))) == DetailEntry("note", Plain("x"))
  {
    assert IntToString(3) == "3";
  }

  /** The value of the first entry with the given key: `details?.key`. */
  function DetailLookup(details: Option<seq<(string, DetailValue)>>, key: string): (r: Option<DetailValue>)
    ensures r.Some? ==> details.Some? && (key, r.value) in details.value
    ensures details.Some? && (forall i :: 0 <= i < |details.value| ==> details.value[i].0 != key) ==> r.None?
    ensures details.Some? && (exists i :: 0 <= i < |details.value| && details.value[i].0 == key) ==> r.Some?
    ensures details.Some? ==> forall i ::
      (0 <= i < |details.value| && details.value[i].0 == key && forall j :: 0 <= j < i ==> details.value[j].0 != key)
      ==> r == Some(details.value[i].1)
    decreases if details.Some? then |details.value| else 0
  {
    if details.None? || details.value == [] then None
    else if details.value[0].0 == key then Some(details.value[0].1)
    else DetailLookup(Some(details.value[1..]), key)
  }

  /** What the button does, in order. */
  datatype Effect = CloseModal | Navigate(path: string, highlight: Option<Option<DetailValue>>)

  /** Closes the dialog, then routes on the lower-cased type; orders and stock carry the
      related id to highlight, possibly undefined. */
  function HandleNavigate(activity: Activity): (effects: seq<Effect>)
    ensures |effects| == 2 && effects[0] == CloseModal && effects[1].Navigate?
    ensures ToLower(activity.kind) == "order" <==>
      effects[1] == Navigate("/orders", Some(DetailLookup(activity.details, "orderId")))
    ensures ToLower(activity.kind) == "stock" <==>
      effects[1] == Navigate("/stock", Some(DetailLookup(activity.details, "productId")))
    ensures ToLower(activity.kind) == "user" <==> effects[1] == Navigate("/settings", None)
    ensures ToLower(activity.kind) !in {"order", "stock", "user"} <==> effects[1] == Navigate("/dashboard", None)
  {
    var target := match ToLower(activity.kind)
      case "order" => Navigate("/orders", Some(DetailLookup(activity.details, "orderId")))
      case "stock" => Navigate("/stock", Some(DetailLookup(activity.details, "productId")))
      case "user" => Navigate("/settings", None)
      case _ => Navigate("/dashboard", None);
    [CloseModal, target]
  }

  /** The icon looks at the exact type and the route at the lower-cased one: "ORDER" shows
      the default icon yet leads to the orders page. */
  lemma IconCaseSensitiveRouteNot(details: Option<seq<(string, DetailValue)>>)
    ensures var a := Activity("ORDER", "", "", "completed", "", details);
      ActivityIcon(a.kind) == DefaultIcon && HandleNavigate(a)[1].path == "/orders"
  {
    var l := ToLower("ORDER");
    assert forall k :: 0 <= k < 5 ==> l[k] == LowerChar("ORDER"[k]);
    assert l == "order";
  }

  datatype ActivityView = ActivityView(
    icon: string,
    badge: string,
    details: Option<seq<DetailEntry>>,
    buttonLabel: string)

  /** The dialog, or nothing without an activity. */
  function RenderActivity(activity: Option<Activity>): (r: Option<ActivityView>)
    ensures r.None? <==> activity.None?
    ensures r.Some? ==> r.value.icon == ActivityIcon(activity.value.kind)
    ensures r.Some? ==> r.value.badge == StatusColor(activity.value.status)
    ensures r.Some? ==> (r.value.details.None? <==> activity.value.details.None?)
    ensures r.Some? ==> r.value.details == FormatDetails(activity.value.details)
    ensures r.Some? ==> r.value.buttonLabel == "View All " + activity.value.kind + " Activities"
  {
    match activity
    case None => None
    case Some(a) =>
      Some(ActivityView(ActivityIcon(a.kind), StatusColor(a.status), FormatDetails(a.details),
                        "View All " + a.kind + " Activities"))
  }
}
