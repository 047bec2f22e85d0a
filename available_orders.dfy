/** The delivery person's home page: the list of orders open for acceptance,
    and what accepting one does to it. */
module AvailableOrders {
  import opened Common
  import opened Orders
  import opened DeliveryPersonSession

  const NotLoggedIn := "You must be logged in to accept orders"
  const AcceptFallback := "Failed to accept order"

  /** The page after `acceptOrder(orderId)` by the delivery person with id
      `loggedIn` (None when the store holds no profile id). */
  function AfterAccept(v: View, loggedIn: Option<string>, orderId: string, reply: ServerReply): (r: View)
    ensures loggedIn.None? ==> r == v.(error := Some(NotLoggedIn))
    ensures loggedIn.Some? && reply.Ok? ==> r.error == v.error
    ensures loggedIn.Some? && reply.Ok? ==> forall i :: 0 <= i < |r.orders| ==> r.orders[i].id != orderId
    ensures loggedIn.Some? && reply.Ok? ==>
      forall i :: 0 <= i < |v.orders| && v.orders[i].id != orderId ==> v.orders[i] in r.orders
    ensures loggedIn.Some? && !reply.Ok? ==> r.orders == v.orders && r.error == Some(FailureMessage(reply, AcceptFallback))
  {
    if loggedIn.None? then v.(error := Some(NotLoggedIn))
    else if reply.Ok? then v.(orders := RemoveOrder(v.orders, orderId))
    else v.(error := Some(FailureMessage(reply, AcceptFallback)))
  }

  /** Accepting an order that is not in the list leaves the list as it is. */
  lemma AcceptAbsentOrder(v: View, loggedIn: Option<string>, orderId: string, reply: ServerReply)
    requires forall i :: 0 <= i < |v.orders| ==> v.orders[i].id != orderId
    ensures AfterAccept(v, loggedIn, orderId, reply).orders == v.orders
  {
    RemoveOrderAbsent(v.orders, orderId);
  }

  /** The orders before and after an accepted one keep their relative order. */
  lemma AcceptKeepsOrder(before: seq<Order>, o: Order, after: seq<Order>, error: Option<string>, loggedIn: string)
    requires forall i :: 0 <= i < |before| ==> before[i].id != o.id
    requires forall i :: 0 <= i < |after| ==> after[i].id != o.id
    ensures AfterAccept(View(before + [o] + after, error), Some(loggedIn), o.id, Ok).orders == before + after
  {
    var all := before + [o] + after;
    assert AfterAccept(View(all, error), Some(loggedIn), o.id, Ok).orders == RemoveOrder(all, o.id);
    RemoveOrderKeepsOrder(before + [o], after, o.id);
    RemoveOrderKeepsOrder(before, [o], o.id);
    RemoveOrderAbsent(before, o.id);
    RemoveOrderAbsent(after, o.id);
    calc {
      RemoveOrder(all, o.id);
      RemoveOrder(before + [o], o.id) + RemoveOrder(after, o.id);
      RemoveOrder(before, o.id) + RemoveOrder([o], o.id) + RemoveOrder(after, o.id);
      { assert RemoveOrder([o], o.id) == []; }
      before + [] + after;
    }
  }

  /** The accept request: the POST's path and the body's `deliveryPersonId`. */
  datatype AcceptRequest = AcceptRequest(path: string, deliveryPersonId: string)

  class AvailableOrdersView {
    var availableOrders: seq<Order>
    var error: Option<string>

    constructor ()
      ensures availableOrders == [] && error == None
    {
      availableOrders, error := [], None;
    }

    /** `acceptOrder`: refuse without a logged-in delivery person, otherwise
        POST and apply the answer. */
    method AcceptOrder(store: DeliveryPersonStore, orderId: string, reply: ServerReply)
      returns (request: Option<AcceptRequest>)
      modifies this
      ensures request.None? <==> store.DeliveryPersonId().None?
      ensures request.Some? ==> request.value == AcceptRequest(
        "http://localhost:5001/api/order/" + orderId + "/accept", store.DeliveryPersonId().value)
      ensures View(availableOrders, error)
           == AfterAccept(old(View(availableOrders, error)), store.DeliveryPersonId(), orderId, reply)
    {
      var id := store.DeliveryPersonId();
      if id.None? {
        error := Some(NotLoggedIn);
        return None;
      }
      request := Some(AcceptRequest("http://localhost:5001/api/order/" + orderId + "/accept", id.value));
      if reply.Ok? {
        availableOrders := RemoveOrder(availableOrders, orderId);
      } else {
        error := Some(FailureMessage(reply, AcceptFallback));
      }
    }
  }
}
