/** The order record that the customer and delivery-person pages hold in
    their local state, and the local patches they apply to a list of orders
    when the server or the real-time channel reports a change. */
module Orders {
  import opened Common
  import opened Keyed

  datatype OrderItem = OrderItem(id: string, itemId: string, quantity: int, name: string, price: int)

  datatype Order = Order(
    id: string,
    userId: string,
    items: seq<OrderItem>,
    totalPrice: int,
    status: string,
    createdAt: string,
    updatedAt: string,
    deliveryPersonId: Option<string>)

  function OrderId(o: Order): string { o.id }

  /** How a `fetch` to the order service ended: `response.ok`, a refusal
      whose JSON body may carry a `message`, or an exception (no connection,
      or a body that is not JSON). */
  datatype ServerReply = Ok | NotOk(message: Option<string>) | NetworkError

  const ConnectionError := "Error connecting to server"

  /** The message a failed reply leaves in the page's `error`:
      `errorData.message || fallback`, or the connection error. */
  function FailureMessage(reply: ServerReply, fallback: string): (m: string)
    requires !reply.Ok?
    ensures reply.NetworkError? ==> m == ConnectionError
    ensures reply.NotOk? ==> m == OrElse(reply.message, fallback)
  {
    if reply.NetworkError? then ConnectionError else OrElse(reply.message, fallback)
  }

  /** A page's local order list together with its `error` banner. */
  datatype View = View(orders: seq<Order>, error: Option<string>)

  /** `o` and `p` agree on every field other than `status` and `updatedAt`. */
  predicate SameExceptStatus(o: Order, p: Order) {
    && o.id == p.id && o.userId == p.userId && o.items == p.items
    && o.totalPrice == p.totalPrice && o.createdAt == p.createdAt
    && o.deliveryPersonId == p.deliveryPersonId
  }

  /** The fields a local patch overwrites: always `status`, and `updatedAt`
      when the patch carries one. */
  datatype StatusPatch = StatusPatch(status: string, updatedAt: Option<string>)

  /** `{ ...o, status, updatedAt }` (or `{ ...o, status }`). */
  function ApplyPatch(o: Order, p: StatusPatch): (r: Order)
    ensures r.status == p.status && SameExceptStatus(r, o)
    ensures r.updatedAt == if p.updatedAt.Some? then p.updatedAt.value else o.updatedAt
  {
    o.(status := p.status, updatedAt := if p.updatedAt.Some? then p.updatedAt.value else o.updatedAt)
  }

  /** `orders.map(o => o._id === orderId ? { ...o, ...patch } : o)`. */
  function PatchOrders(orders: seq<Order>, orderId: string, p: StatusPatch): (r: seq<Order>)
    ensures |r| == |orders|
    ensures forall i :: 0 <= i < |orders| && orders[i].id != orderId ==> r[i] == orders[i]
    ensures forall i :: 0 <= i < |orders| && orders[i].id == orderId ==>
      r[i].status == p.status && SameExceptStatus(r[i], orders[i])
      && r[i].updatedAt == (if p.updatedAt.Some? then p.updatedAt.value else orders[i].updatedAt)
  {
    UpdateWhere(orders, OrderId, orderId, o => ApplyPatch(o, p))
  }

  /** The same patch delivered twice leaves the list as one delivery does. */
  lemma PatchOrdersIdempotent(orders: seq<Order>, orderId: string, p: StatusPatch)
    ensures PatchOrders(PatchOrders(orders, orderId, p), orderId, p) == PatchOrders(orders, orderId, p)
  {
    UpdateWhereIdempotent(orders, OrderId, orderId, o => ApplyPatch(o, p));
  }

  /** `orders.filter(o => o._id !== orderId)`. */
  function RemoveOrder(orders: seq<Order>, orderId: string): (r: seq<Order>)
    ensures |r| <= |orders|
    ensures forall i :: 0 <= i < |r| ==> r[i].id != orderId
    ensures forall i :: 0 <= i < |r| ==> r[i] in orders
    ensures forall i :: 0 <= i < |orders| && orders[i].id != orderId ==> orders[i] in r
  {
    RemoveWhere(orders, OrderId, orderId)
  }

  /** The kept orders stay in their original relative order: the removal of
      a concatenation is the concatenation of the removals. */
  lemma RemoveOrderKeepsOrder(a: seq<Order>, b: seq<Order>, orderId: string)
    ensures RemoveOrder(a + b, orderId) == RemoveOrder(a, orderId) + RemoveOrder(b, orderId)
  {
    RemoveWhereConcat(a, b, OrderId, orderId);
  }

  /** Removing an id that no order carries changes nothing. */
  lemma RemoveOrderAbsent(orders: seq<Order>, orderId: string)
    requires forall i :: 0 <= i < |orders| ==> orders[i].id != orderId
    ensures RemoveOrder(orders, orderId) == orders
  {
    RemoveWhereAbsent(orders, OrderId, orderId);
  }

  /** Exactly the orders carrying the id are dropped. */
  lemma RemoveOrderLength(orders: seq<Order>, orderId: string)
    ensures |RemoveOrder(orders, orderId)| == |orders| - CountKey(orders, OrderId, orderId)
  {
    RemoveWhereLength(orders, OrderId, orderId);
  }
}
