/**
 * The admin card for one order (client/src/components/admin/OrderItem.tsx): the badge
 * colour and label of its status, the quick-action buttons offered for its current
 * status, and the status dropdown. Statuses are free strings; five of them are known.
 */
module OrderCard {
  import opened Wrappers
  import opened Schema
  import Text

  /** The status vocabulary of the dropdown, in its display order. */
  const Statuses: seq<string> := ["pending", "processing", "out_for_delivery", "completed", "cancelled"]

  predicate IsKnownStatus(s: string) {
    s == "pending" || s == "processing" || s == "out_for_delivery" || s == "completed" || s == "cancelled"
  }

  /** `getBadgeVariant`: one variant per known status, "secondary" for anything else. */
  function BadgeVariant(status: string): (r: string)
    ensures r == "secondary" <==> !IsKnownStatus(status)
    ensures status == "pending" ==> r == "warning"
    ensures status == "completed" ==> r == "success"
    ensures status == "cancelled" ==> r == "destructive"
  {
    match status
    case "pending" => "warning"
    case "processing" => "info"
    case "out_for_delivery" => "accent"
    case "completed" => "success"
    case "cancelled" => "destructive"
    case _ => "secondary"
  }

  /** Different known statuses never share a badge colour. */
  lemma BadgeVariantsDistinct(s: string, t: string)
    requires IsKnownStatus(s) && IsKnownStatus(t) && s != t
    ensures BadgeVariant(s) != BadgeVariant(t)
  {
  }

  /** `formatStatus`: "Delivery" for out_for_delivery, otherwise the status with its first character upper-cased. */
  function FormatStatus(status: string): (r: string)
    ensures status == "out_for_delivery" ==> r == "Delivery"
    ensures status == "" ==> r == ""
    ensures status != "out_for_delivery" && status != "" ==>
      |r| == |status| && r[0] == Text.UpperChar(status[0]) && r[1..] == status[1..]
  {
    if status == "out_for_delivery" then "Delivery"
    else if status == "" then ""
    else [Text.UpperChar(status[0])] + status[1..]
  }

  /** The label of every known status other than out_for_delivery is the status itself, capitalised. */
  lemma FormatKnownStatuses()
    ensures FormatStatus("pending") == "Pending" && FormatStatus("processing") == "Processing"
    ensures FormatStatus("completed") == "Completed" && FormatStatus("cancelled") == "Cancelled"
    ensures FormatStatus("out_for_delivery") == "Delivery"
  {
    assert "pending"[1..] == "ending";
    assert "processing"[1..] == "rocessing";
    assert "completed"[1..] == "ompleted";
    assert "cancelled"[1..] == "ancelled";
  }

  /** One quick-action button: its caption and the status it asks for. */
  datatype QuickAction = QuickAction(caption: string, target: string)

  /** The buttons shown beside the dropdown for an order; an ordinary user sees none. */
  function QuickActions(order: Order, isAdmin: bool): (r: seq<QuickAction>)
    ensures !isAdmin ==> r == []
    ensures |r| <= 2
  {
    if !isAdmin then []
    else if order.status == "pending" then [QuickAction("Accept", "processing"), QuickAction("Decline", "cancelled")]
    else if order.status == "processing" then
      if order.deliveryMethod == "delivery" then [QuickAction("Out for Delivery", "out_for_delivery")]
      else [QuickAction("Ready for Pickup", "completed")]
    else if order.status == "out_for_delivery" then [QuickAction("Mark Delivered", "completed")]
    else []
  }

  /** The statuses the quick actions of an admin's card lead to. */
  function Targets(actions: seq<QuickAction>): (r: seq<string>)
    ensures |r| == |actions|
    ensures forall i :: 0 <= i < |actions| ==> r[i] == actions[i].target
  {
    if actions == [] then [] else [actions[0].target] + Targets(actions[1..])
  }

  /** Position of a known status along the normal course of an order; cancelled is off the course. */
  function Stage(status: string): int {
    match status
    case "pending" => 0
    case "processing" => 1
    case "out_for_delivery" => 2
    case "completed" => 3
    case _ => -1
  }

  /**
   * The quick actions as a state machine: pending offers processing and cancelled;
   * processing offers out_for_delivery for a delivery and completed otherwise;
   * out_for_delivery offers completed; any other status offers nothing.
   */
  lemma QuickActionTransitions(order: Order)
    ensures order.status == "pending" ==> Targets(QuickActions(order, true)) == ["processing", "cancelled"]
    ensures order.status == "processing" && order.deliveryMethod == "delivery" ==>
      Targets(QuickActions(order, true)) == ["out_for_delivery"]
    ensures order.status == "processing" && order.deliveryMethod != "delivery" ==>
      Targets(QuickActions(order, true)) == ["completed"]
    ensures order.status == "out_for_delivery" ==> Targets(QuickActions(order, true)) == ["completed"]
    ensures order.status != "pending" && order.status != "processing" && order.status != "out_for_delivery" ==>
      QuickActions(order, true) == []
  {
  }

  /** Every quick action moves an order forward along its course, or cancels a pending one. */
  lemma QuickActionsMoveForward(order: Order, i: int)
    requires 0 <= i < |QuickActions(order, true)|
    ensures var t := QuickActions(order, true)[i].target;
      IsKnownStatus(order.status) && IsKnownStatus(t) &&
      (Stage(t) > Stage(order.status) || (order.status == "pending" && t == "cancelled"))
  {
  }

  /** The dropdown an admin's card shows; an ordinary user sees no controls at all. */
  function DropdownOptions(isAdmin: bool): (r: seq<string>)
    ensures isAdmin ==> r == Statuses
    ensures !isAdmin ==> r == []
  {
    if isAdmin then Statuses else []
  }

  /** The dropdown offers exactly the known statuses, whatever the current one, so nothing is terminal there. */
  lemma DropdownReachesEveryStatus(target: string)
    ensures target in DropdownOptions(true) <==> IsKnownStatus(target)
  {
  }

  /** `onStatusChange(orderId, status)` */
  datatype StatusRequest = StatusRequest(orderId: int, status: string)

  /** `handleStatusChange`: the card's own order id with the chosen status, when a callback was given. */
  function HandleStatusChange(order: Order, hasCallback: bool, value: string): (r: Option<StatusRequest>)
    ensures r.Some? <==> hasCallback
    ensures r.Some? ==> r.value.orderId == order.id && r.value.status == value
  {
    if hasCallback then Some(StatusRequest(order.id, value)) else None
  }

  /**
   * From an admin's dropdown, any order can be sent to any known status: picking it
   * requests that status for that order's id.
   */
  lemma DropdownRequestsChosenStatus(order: Order, target: string)
    requires target in DropdownOptions(true)
    ensures IsKnownStatus(target)
    ensures HandleStatusChange(order, true, target) == Some(StatusRequest(order.id, target))
  {
  }
}
