/** The client-side cart: a cache of the cart the cart service holds for the
    logged-in customer. Every operation first checks that the user store holds
    a user id; every mutation sends its request and then re-fetches the
    server's cart, which replaces `items` wholesale. The service itself is
    represented by its replies, which the operations take as inputs; the
    requests the store sends are recorded, in order, in `sent`. */
module Cart {
  import opened Common
  import opened UserSession

  /** The menu item a cart line refers to, denormalised for display. */
  datatype MenuRef = MenuRef(id: string, name: string, price: int, imageUrl: Option<string>)

  datatype CartItem = CartItem(itemId: MenuRef, quantity: int, address: string)

  /** The requests the store sends to the cart service, with their bodies. */
  datatype CartRequest =
    | GetCart(userId: string)
    | PostAdd(userId: string, itemId: string, quantity: int, name: string, price: int, imageUrl: Option<string>)
    | PutUpdate(userId: string, itemId: string, quantity: int)
    | DeleteRemove(userId: string, itemId: string)
    | DeleteClear(userId: string)
    | PostCheckout(userId: string, address: string)

  /** How one call to the cart service ended: answered, or rejected (axios throws). */
  datatype Reply<T> = Answered(value: T) | Failed

  /** How a store operation ended for its caller. */
  datatype Outcome = Skipped | Completed | Thrown

  /** The mutations, with the arguments the page passes. */
  datatype CartOp =
    | Add(item: CartItem)
    | Update(itemId: string, quantity: int)
    | Remove(itemId: string)
    | Clear
    | CheckoutOrder(address: string)

  /** The request a mutation sends for the logged-in user `userId`; the
      quantity and the address are forwarded as given. */
  function RequestFor(op: CartOp, userId: string): (r: CartRequest)
    ensures op.Add? ==> r == PostAdd(userId, op.item.itemId.id, op.item.quantity,
                                     op.item.itemId.name, op.item.itemId.price, op.item.itemId.imageUrl)
    ensures op.Update? ==> r == PutUpdate(userId, op.itemId, op.quantity)
    ensures op.Remove? ==> r == DeleteRemove(userId, op.itemId)
    ensures op.Clear? ==> r == DeleteClear(userId)
    ensures op.CheckoutOrder? ==> r == PostCheckout(userId, op.address)
    ensures r.userId == userId
  {
    match op
    case Add(item) => PostAdd(userId, item.itemId.id, item.quantity, item.itemId.name, item.itemId.price, item.itemId.imageUrl)
    case Update(itemId, quantity) => PutUpdate(userId, itemId, quantity)
    case Remove(itemId) => DeleteRemove(userId, itemId)
    case Clear => DeleteClear(userId)
    case CheckoutOrder(address) => PostCheckout(userId, address)
  }

  /** The store's state: the cached items and the requests sent so far. */
  datatype CartState = CartState(items: seq<CartItem>, sent: seq<CartRequest>)

  /** `fetchCart` from state `s` for the user id `userId`. */
  function Fetched(s: CartState, userId: Option<string>, cart: Reply<seq<CartItem>>): (r: (CartState, Outcome))
    ensures userId.None? ==> r == (s, Skipped)
    ensures userId.Some? ==> r.0.sent == s.sent + [GetCart(userId.value)]
    ensures userId.Some? && cart.Answered? ==> r.0.items == cart.value && r.1 == Completed
    ensures userId.Some? && cart.Failed? ==> r.0.items == s.items && r.1 == Thrown
  {
    if userId.None? then (s, Skipped)
    else
      var s' := s.(sent := s.sent + [GetCart(userId.value)]);
      if cart.Answered? then (s'.(items := cart.value), Completed) else (s', Thrown)
  }

  /** A mutation from state `s`: guard, request, then (if the request was
      answered) refetch. */
  function Mutated(s: CartState, userId: Option<string>, op: CartOp, mutation: Reply<()>, cart: Reply<seq<CartItem>>)
    : (r: (CartState, Outcome))
    ensures userId.None? ==> r == (s, Skipped)
    ensures userId.Some? && mutation.Failed? ==>
      r == (s.(sent := s.sent + [RequestFor(op, userId.value)]), Thrown)
    ensures userId.Some? && mutation.Answered? ==>
      r.0.sent == s.sent + [RequestFor(op, userId.value), GetCart(userId.value)]
    ensures userId.Some? && mutation.Answered? && cart.Answered? ==> r.0.items == cart.value && r.1 == Completed
    ensures userId.Some? && mutation.Answered? && cart.Failed? ==> r.0.items == s.items && r.1 == Thrown
  {
    if userId.None? then (s, Skipped)
    else
      var s' := s.(sent := s.sent + [RequestFor(op, userId.value)]);
      if mutation.Failed? then (s', Thrown) else Fetched(s', userId, cart)
  }

  /** Nothing is patched optimistically: a completed mutation leaves exactly
      the server's cart, whatever was cached before and whatever was asked. */
  lemma CompletedMutationIsServerCart(s: CartState, t: CartState, userId: Option<string>, op: CartOp, op': CartOp,
                                      mutation: Reply<()>, cart: Reply<seq<CartItem>>)
    requires Mutated(s, userId, op, mutation, cart).1 == Completed
    ensures Mutated(s, userId, op, mutation, cart).0.items == Mutated(t, userId, op', mutation, cart).0.items
  {
  }

  class CartStore {
    var items: seq<CartItem>
    var sent: seq<CartRequest>

    constructor ()
      ensures items == [] && sent == []
    {
      items, sent := [], [];
    }

    function State(): CartState
      reads this
    {
      CartState(items, sent)
    }

    method FetchCart(users: UserStore, cart: Reply<seq<CartItem>>) returns (outcome: Outcome)
      modifies this
      ensures (State(), outcome) == Fetched(old(State()), users.UserId(), cart)
    {
      var userId := users.UserId();
      if userId.None? {
        return Skipped;
      }
      sent := sent + [GetCart(userId.value)];
      if cart.Failed? {
        return Thrown;
      }
      items := cart.value;
      outcome := Completed;
    }

    /** The body every mutation shares: guard, send, then refetch. */
    method Run(users: UserStore, op: CartOp, mutation: Reply<()>, cart: Reply<seq<CartItem>>)
      returns (outcome: Outcome)
      modifies this
      ensures (State(), outcome) == Mutated(old(State()), users.UserId(), op, mutation, cart)
    {
      var userId := users.UserId();
      if userId.None? {
        return Skipped;
      }
      sent := sent + [RequestFor(op, userId.value)];
      if mutation.Failed? {
        return Thrown;
      }
      outcome := FetchCart(users, cart);
    }

    method AddToCart(users: UserStore, item: CartItem, mutation: Reply<()>, cart: Reply<seq<CartItem>>)
      returns (outcome: Outcome)
      modifies this
      ensures (State(), outcome) == Mutated(old(State()), users.UserId(), Add(item), mutation, cart)
    {
      outcome := Run(users, Add(item), mutation, cart);
    }

    method UpdateItem(users: UserStore, itemId: string, quantity: int, mutation: Reply<()>, cart: Reply<seq<CartItem>>)
      returns (outcome: Outcome)
      modifies this
      ensures (State(), outcome) == Mutated(old(State()), users.UserId(), Update(itemId, quantity), mutation, cart)
    {
      outcome := Run(users, Update(itemId, quantity), mutation, cart);
    }

    method RemoveItem(users: UserStore, itemId: string, mutation: Reply<()>, cart: Reply<seq<CartItem>>)
      returns (outcome: Outcome)
      modifies this
      ensures (State(), outcome) == Mutated(old(State()), users.UserId(), Remove(itemId), mutation, cart)
    {
      outcome := Run(users, Remove(itemId), mutation, cart);
    }

    method ClearCart(users: UserStore, mutation: Reply<()>, cart: Reply<seq<CartItem>>)
      returns (outcome: Outcome)
      modifies this
      ensures (State(), outcome) == Mutated(old(State()), users.UserId(), Clear, mutation, cart)
    {
      outcome := Run(users, Clear, mutation, cart);
    }

    method Checkout(users: UserStore, address: string, mutation: Reply<()>, cart: Reply<seq<CartItem>>)
      returns (outcome: Outcome)
      modifies this
      ensures (State(), outcome) == Mutated(old(State()), users.UserId(), CheckoutOrder(address), mutation, cart)
    {
      outcome := Run(users, CheckoutOrder(address), mutation, cart);
    }
  }
}
