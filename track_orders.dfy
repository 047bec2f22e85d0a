/** The customer's order-tracking page: the projection of an order's status
    onto the three-milestone timeline, the status badge classes, the order
    card preview, and the local patch applied when the real-time channel
    reports a status change. */
module TrackOrders {
  import opened Common
  import opened Orders

  datatype StepState = Completed | Current | Pending | Cancelled

  /** The statuses the ordinal table knows. */
  const KnownStatuses: set<string> := {"paid", "delivering", "delivered", "cancelled"}

  /** `statusMap[s] || 0`: paid 1, delivering 3, delivered 4, cancelled -1,
      anything else 0. */
  function Ordinal(status: string): (r: int)
    ensures r == -1 <==> status == "cancelled"
    ensures r == 0 <==> status !in KnownStatuses
  {
    if status == "paid" then 1
    else if status == "delivering" then 3
    else if status == "delivered" then 4
    else if status == "cancelled" then -1
    else 0
  }

  /** `getStepStatus(step)` for the order open in the tracker (if any). */
  function StepStatus(selected: Option<Order>, step: string): StepState {
    if selected.None? then Pending
    else
      var current := Ordinal(selected.value.status);
      var stepOrdinal := Ordinal(step);
      if current == -1 then Cancelled
      else if stepOrdinal < current then Completed
      else if stepOrdinal == current then Current
      else Pending
  }

  /** How far a milestone has got; a timeline never rises along its milestones. */
  function Rank(s: StepState): nat {
    match s
    case Pending => 0
    case Current => 1
    case Completed => 2
    case Cancelled => 3
  }

  predicate AtMostOneCurrent(t: seq<StepState>) {
    forall i, j :: 0 <= i < |t| && 0 <= j < |t| && t[i] == Current && t[j] == Current ==> i == j
  }

  /** Along the milestones the states only go down: no milestone is completed
      after a pending or current one. */
  predicate NeverRises(t: seq<StepState>) {
    forall i, j :: 0 <= i < j < |t| ==> Rank(t[j]) <= Rank(t[i])
  }

  /** The three milestones the tracker draws: paid, delivering, delivered. */
  function Timeline(selected: Option<Order>): (t: seq<StepState>)
    ensures |t| == 3
    ensures selected.None? ==> t == [Pending, Pending, Pending]
    ensures selected.Some? && selected.value.status == "cancelled" ==> t == [Cancelled, Cancelled, Cancelled]
    ensures selected.Some? && selected.value.status !in KnownStatuses ==> t == [Pending, Pending, Pending]
    ensures Cancelled in t ==> t == [Cancelled, Cancelled, Cancelled]
    ensures AtMostOneCurrent(t)
    ensures NeverRises(t)
  {
    [StepStatus(selected, "paid"), StepStatus(selected, "delivering"), StepStatus(selected, "delivered")]
  }

  /** The timeline of every known status, milestone by milestone. */
  lemma TimelineTable(o: Order)
    ensures o.status == "paid" ==> Timeline(Some(o)) == [Current, Pending, Pending]
    ensures o.status == "delivering" ==> Timeline(Some(o)) == [Completed, Current, Pending]
    ensures o.status == "delivered" ==> Timeline(Some(o)) == [Completed, Completed, Current]
  {
  }

  const GrayBadge := "bg-gray-100 text-gray-800"

  /** `getStatusColor(status)`. */
  function StatusColor(status: string): (c: string)
    ensures c == GrayBadge <==> status !in KnownStatuses
  {
    match status
    case "paid" => "bg-blue-100 text-blue-800"
    case "delivering" => "bg-yellow-100 text-yellow-800"
    case "delivered" => "bg-green-100 text-green-800"
    case "cancelled" => "bg-red-100 text-red-800"
    case _ => GrayBadge
  }

  /** Each known status has a badge class of its own. */
  lemma StatusColorsDistinct(s: string, t: string)
    requires s in KnownStatuses && t in KnownStatuses && s != t
    ensures StatusColor(s) != StatusColor(t)
  {
  }

  /** `order.items.slice(0, 2)`: the items a card lists. */
  function CardPreview(o: Order): (r: seq<OrderItem>)
    ensures |r| == if |o.items| < 2 then |o.items| else 2
    ensures r == o.items[..|r|]
  {
    if |o.items| < 2 then o.items else o.items[..2]
  }

  /** The k of the "+k more items" line, shown only when a card lists fewer
      items than the order has. */
  function MoreItems(o: Order): (r: Option<nat>)
    ensures r.Some? <==> |o.items| > 2
    ensures r.Some? ==> r.value > 0 && |CardPreview(o)| + r.value == |o.items|
    ensures r.None? ==> CardPreview(o) == o.items
  {
    if |o.items| > 2 then Some(|o.items| - 2) else None
  }

  /** The card heading `Order #` + `order._id.slice(-6)`. */
  function CardTitle(o: Order): (r: string)
    ensures |r| == 7 + (if |o.id| < 6 then |o.id| else 6)
    ensures r[..7] == "Order #" && r[7..] == o.id[|o.id| - (|r| - 7)..]
  {
    "Order #" + Suffix(o.id, 6)
  }

  /** The payload of an `order_status_update` event. */
  datatype StatusEvent = StatusEvent(orderId: string, status: string, updatedAt: string)

  function EventPatch(ev: StatusEvent): StatusPatch {
    StatusPatch(ev.status, Some(ev.updatedAt))
  }

  /** The selected-order patch: only an open order with the event's id changes. */
  function PatchSelected(selected: Option<Order>, ev: StatusEvent): (r: Option<Order>)
    ensures r.Some? <==> selected.Some?
    ensures selected.Some? && selected.value.id != ev.orderId ==> r == selected
    ensures selected.Some? && selected.value.id == ev.orderId ==>
      r.value.status == ev.status && r.value.updatedAt == ev.updatedAt && SameExceptStatus(r.value, selected.value)
  {
    if selected.Some? && selected.value.id == ev.orderId then Some(ApplyPatch(selected.value, EventPatch(ev)))
    else selected
  }

  /** An order open in the tracker that is also in the list is still in the
      list, in its patched form, after the event. */
  lemma SelectedStaysInList(orders: seq<Order>, selected: Option<Order>, ev: StatusEvent)
    requires selected.Some? && selected.value in orders
    ensures PatchSelected(selected, ev).value in PatchOrders(orders, ev.orderId, EventPatch(ev))
  {
    var i :| 0 <= i < |orders| && orders[i] == selected.value;
    assert PatchOrders(orders, ev.orderId, EventPatch(ev))[i] == PatchSelected(selected, ev).value;
  }

  /** A duplicated event leaves the list and the open order as one delivery does. */
  lemma StatusUpdateIdempotent(orders: seq<Order>, selected: Option<Order>, ev: StatusEvent)
    ensures PatchOrders(PatchOrders(orders, ev.orderId, EventPatch(ev)), ev.orderId, EventPatch(ev))
         == PatchOrders(orders, ev.orderId, EventPatch(ev))
    ensures PatchSelected(PatchSelected(selected, ev), ev) == PatchSelected(selected, ev)
  {
    PatchOrdersIdempotent(orders, ev.orderId, EventPatch(ev));
  }

  /** The state of the tracking page that the event handler and the tracker change. */
  class TrackOrdersView {
    var orders: seq<Order>
    var selectedOrder: Option<Order>
    var showTracker: bool

    constructor ()
      ensures orders == [] && selectedOrder == None && !showTracker
    {
      orders, selectedOrder, showTracker := [], None, false;
    }

    /** The `order_status_update` handler: patch the list, and the open order
        when it is the one the event names. */
    method OnStatusUpdate(ev: StatusEvent)
      modifies this
      ensures orders == PatchOrders(old(orders), ev.orderId, EventPatch(ev))
      ensures selectedOrder == PatchSelected(old(selectedOrder), ev)
      ensures showTracker == old(showTracker)
    {
      orders := PatchOrders(orders, ev.orderId, EventPatch(ev));
      if selectedOrder.Some? && selectedOrder.value.id == ev.orderId {
        selectedOrder := Some(ApplyPatch(selectedOrder.value, EventPatch(ev)));
      }
    }

    method OpenOrderTracker(order: Order)
      modifies this
      ensures selectedOrder == Some(order) && showTracker && orders == old(orders)
    {
      selectedOrder, showTracker := Some(order), true;
    }

    /** Closing hides the tracker but keeps the selection. */
    method CloseOrderTracker()
      modifies this
      ensures !showTracker && selectedOrder == old(selectedOrder) && orders == old(orders)
    {
      showTracker := false;
    }

    /** The timeline drawn for the current selection. */
    function CurrentTimeline(): (t: seq<StepState>)
      reads this
      ensures |t| == 3 && AtMostOneCurrent(t) && NeverRises(t)
    {
      Timeline(selectedOrder)
    }
  }
}
