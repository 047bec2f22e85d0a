/** The delivery person's own orders: the local status patches applied after
    the server accepts a "delivered" or "cancel" transition, and the rules that
    pick a card's badge colour and actions from its status. */
module MyOrders {
  import opened Common
  import opened Orders
  import opened DeliveryPersonSession

  datatype Transition = MarkDelivered | CancelOrder

  function TargetStatus(t: Transition): string {
    match t
    case MarkDelivered => "delivered"
    case CancelOrder => "cancelled"
  }

  function FallbackMessage(t: Transition): string {
    match t
    case MarkDelivered => "Failed to mark order as delivered"
    case CancelOrder => "Failed to cancel order"
  }

  /** The page after the server answered a transition request for `orderId`:
      on success the orders with that id take the target status and nothing
      else changes; on failure only the error banner changes. */
  function AfterTransition(v: View, orderId: string, t: Transition, reply: ServerReply): (r: View)
    ensures |r.orders| == |v.orders|
    ensures reply.Ok? ==> r.error == v.error
    ensures reply.Ok? ==> forall i :: 0 <= i < |v.orders| ==>
      if v.orders[i].id == orderId
      then r.orders[i].status == TargetStatus(t) && SameExceptStatus(r.orders[i], v.orders[i])
           && r.orders[i].updatedAt == v.orders[i].updatedAt
      else r.orders[i] == v.orders[i]
    ensures !reply.Ok? ==> r.orders == v.orders && r.error == Some(FailureMessage(reply, FallbackMessage(t)))
  {
    if reply.Ok? then v.(orders := PatchOrders(v.orders, orderId, StatusPatch(TargetStatus(t), None)))
    else v.(error := Some(FailureMessage(reply, FallbackMessage(t))))
  }

  /** Applying the same answered transition twice is the same as once. */
  lemma AfterTransitionIdempotent(v: View, orderId: string, t: Transition, reply: ServerReply)
    ensures AfterTransition(AfterTransition(v, orderId, t, reply), orderId, t, reply)
         == AfterTransition(v, orderId, t, reply)
  {
    if reply.Ok? {
      PatchOrdersIdempotent(v.orders, orderId, StatusPatch(TargetStatus(t), None));
    }
  }

  datatype CardAction = DeliverButton | CancelButton | CompletedNote | CancelledNote

  /** What a card's footer offers for a status. */
  function Actions(status: string): (r: set<CardAction>)
    ensures DeliverButton in r <==> status == "delivering"
    ensures CancelButton in r <==> status == "delivering"
    ensures CompletedNote in r <==> status == "delivered"
    ensures CancelledNote in r <==> status == "cancelled"
  {
    (if status == "delivering" then {DeliverButton, CancelButton} else {})
    + (if status == "delivered" then {CompletedNote} else {})
    + (if status == "cancelled" then {CancelledNote} else {})
  }

  datatype BadgeColor = Green | Red | Blue

  function Badge(status: string): (c: BadgeColor)
    ensures c == Green <==> status == "delivered"
    ensures c == Red <==> status == "cancelled"
  {
    if status == "delivered" then Green else if status == "cancelled" then Red else Blue
  }

  /** A transition request: the PUT's path and the `deliveryPersonId` of its
      body (left out of the JSON when the store holds no profile id). */
  datatype TransitionRequest = TransitionRequest(path: string, deliveryPersonId: Option<string>)

  function RequestPath(orderId: string, t: Transition): string {
    "http://localhost:5001/api/order/" + orderId + (match t case MarkDelivered => "/delivered" case CancelOrder => "/cancel")
  }

  class MyOrdersView {
    var myOrders: seq<Order>
    var error: Option<string>

    constructor ()
      ensures myOrders == [] && error == None
    {
      myOrders, error := [], None;
    }

    /** `markAsDelivered` / `cancelOrder`: send the PUT, then apply the answer. */
    method Transit(store: DeliveryPersonStore, orderId: string, t: Transition, reply: ServerReply)
      returns (request: TransitionRequest)
      modifies this
      ensures request == TransitionRequest(RequestPath(orderId, t),
        if store.deliveryPerson.Some? then store.deliveryPerson.value.id else None)
      ensures View(myOrders, error) == AfterTransition(old(View(myOrders, error)), orderId, t, reply)
    {
      var body := if store.deliveryPerson.Some? then store.deliveryPerson.value.id else None;
      request := TransitionRequest(RequestPath(orderId, t), body);
      if reply.Ok? {
        myOrders := PatchOrders(myOrders, orderId, StatusPatch(TargetStatus(t), None));
      } else {
        error := Some(FailureMessage(reply, FallbackMessage(t)));
      }
    }
  }
}
