/** The customer's cart page: the order summary computed from the cached
    cart, the heading, and the handlers behind the quantity stepper, the
    remove and clear buttons and the checkout button, each of which guards,
    calls the cart store and reports the outcome in a toast. The answers to
    the browser's `confirm` dialogs are inputs. */
module CartPage {
  import opened Common
  import opened UserSession
  import opened Cart

  /** `item.itemId.price * item.quantity`. */
  function LineTotal(item: CartItem): int {
    item.itemId.price * item.quantity
  }

  /** `items.reduce((acc, item) => acc + LineTotal(item), acc)`: a left fold. */
  function Reduce(acc: int, items: seq<CartItem>): int
    decreases |items|
  {
    if items == [] then acc else Reduce(acc + LineTotal(items[0]), items[1..])
  }

  /** The summary's subtotal, reduced from 0. */
  function Subtotal(items: seq<CartItem>): int {
    Reduce(0, items)
  }

  /** The reference definition: the sum of the line totals. */
  function Sum(items: seq<CartItem>): int {
    if items == [] then 0 else LineTotal(items[0]) + Sum(items[1..])
  }

  /** The fold and the sum agree from any starting value. */
  lemma {:induction false} ReduceIsSum(acc: int, items: seq<CartItem>)
    ensures Reduce(acc, items) == acc + Sum(items)
    decreases |items|
  {
    if items != [] {
      ReduceIsSum(acc + LineTotal(items[0]), items[1..]);
    }
  }

  lemma {:induction false} SumConcat(a: seq<CartItem>, b: seq<CartItem>)
    ensures Sum(a + b) == Sum(a) + Sum(b)
  {
    if a == [] {
      assert a + b == b;
    } else {
      assert (a + b)[1..] == a[1..] + b;
      SumConcat(a[1..], b);
    }
  }

  /** The subtotal of a cart is the subtotal of its parts: it does not depend
      on how the lines are split, and an empty cart costs nothing. */
  lemma SubtotalConcat(a: seq<CartItem>, b: seq<CartItem>)
    ensures Subtotal(a + b) == Subtotal(a) + Subtotal(b)
    ensures Subtotal([]) == 0
  {
    ReduceIsSum(0, a + b);
    ReduceIsSum(0, a);
    ReduceIsSum(0, b);
    SumConcat(a, b);
  }

  /** With no negative prices and quantities the subtotal is at least every line's total. */
  lemma {:induction false} SubtotalBounds(items: seq<CartItem>)
    requires forall i :: 0 <= i < |items| ==> items[i].itemId.price >= 0 && items[i].quantity >= 0
    ensures Subtotal(items) >= 0
    ensures forall i :: 0 <= i < |items| ==> LineTotal(items[i]) <= Subtotal(items)
  {
    ReduceIsSum(0, items);
    SumBounds(items);
  }

  lemma {:induction false} SumBounds(items: seq<CartItem>)
    requires forall i :: 0 <= i < |items| ==> items[i].itemId.price >= 0 && items[i].quantity >= 0
    ensures Sum(items) >= 0
    ensures forall i :: 0 <= i < |items| ==> LineTotal(items[i]) <= Sum(items)
  {
    if items != [] {
      SumBounds(items[1..]);
      forall i | 0 <= i < |items|
        ensures LineTotal(items[i]) <= Sum(items)
      {
        if i > 0 {
          assert items[i] == items[1..][i - 1];
        }
      }
    }
  }

  /** "item" for exactly one line, "items" otherwise. */
  function Noun(n: nat): (r: string)
    ensures r == "item" <==> n == 1
    ensures r == "items" <==> n != 1
  {
    if n == 1 then "item" else "items"
  }

  /** `Your Cart ({n} item[s])`: the singular exactly for a one-line cart. */
  function Heading(items: seq<CartItem>): (r: string)
    ensures |r| > 13 && r[..11] == "Your Cart (" && r[|r| - 1] == ')'
    ensures |items| == 1 ==> r[|r| - 6..] == " item)"
    ensures |items| != 1 ==> r[|r| - 7..] == " items)"
    ensures r[|r| - 6..] == " item)" <==> |items| == 1
  {
    var r := "Your Cart (" + NatToString(|items|) + " " + Noun(|items|) + ")";
    assert |items| != 1 ==> r[|r| - 6] == 'i';
    r
  }

  /** The heading tells carts of different sizes apart. */
  lemma HeadingInjective(a: seq<CartItem>, b: seq<CartItem>)
    requires Heading(a) == Heading(b)
    ensures |a| == |b|
  {
    var p := "Your Cart (";
    var sa, sb := NatToString(|a|), NatToString(|b|);
    var ha, hb := Heading(a), Heading(b);
    // Both headings agree on the noun, hence on the number's length.
    assert (|a| == 1) == (|b| == 1);
    var ta, tb := " " + Noun(|a|) + ")", " " + Noun(|b|) + ")";
    assert ha == p + sa + ta;
    assert hb == p + sb + tb;
    assert |sa| == |sb|;
    MiddleOf(p, sa, ta);
    MiddleOf(p, sb, tb);
    NatToStringInjective(|a|, |b|);
  }

  /** The middle part of a three-part concatenation is read back by slicing. */
  lemma MiddleOf(x: string, y: string, z: string)
    ensures (x + y + z)[|x|..|x| + |y|] == y
  {
  }

  datatype Toast = Success(message: string) | Failure(message: string) | Notice(message: string)

  /** The stepper's two buttons. */
  datatype Step = Minus | Plus

  /** The quantity a stepper button asks for. */
  function Stepped(item: CartItem, step: Step): (q: int)
    ensures step == Minus ==> q == item.quantity - 1
    ensures step == Plus ==> q == item.quantity + 1
  {
    match step
    case Minus => item.quantity - 1
    case Plus => item.quantity + 1
  }

  /** `updateQuantity` goes on only for a quantity of at least one and a logged-in user. */
  predicate QuantityAccepted(userId: Option<string>, newQuantity: int) {
    newQuantity >= 1 && userId.Some?
  }

  /** The minus button on a line of quantity one (or less) asks for nothing:
      the stepper never takes a line below one. */
  lemma MinusNeverBelowOne(userId: Option<string>, item: CartItem)
    ensures QuantityAccepted(userId, Stepped(item, Minus)) <==> item.quantity >= 2 && userId.Some?
    ensures QuantityAccepted(userId, Stepped(item, Plus)) <==> item.quantity >= 0 && userId.Some?
  {
  }

  /** What the checkout button does before it calls the store. */
  datatype CheckoutStep = NoUser | NoAddress | Declined | Proceed

  const NoUserMessage := "User not found. Please log in."
  const NoAddressMessage := "Please enter a delivery address."

  /** The guards of `handleCheckout`, in order: a user, a non-blank address,
      then the answer to the confirmation dialog. */
  function CheckoutDecision(userId: Option<string>, address: string, confirmed: bool): (d: CheckoutStep)
    ensures d == Proceed <==> userId.Some? && !Blank(address) && confirmed
    ensures d == NoUser <==> userId.None?
    ensures d == NoAddress <==> userId.Some? && Blank(address)
    ensures d == Declined <==> userId.Some? && !Blank(address) && !confirmed
  {
    if userId.None? then NoUser
    else if Trim(address) == "" then NoAddress
    else if !confirmed then Declined
    else Proceed
  }

  /** The toast of a store call that may have thrown. */
  function Reported(outcome: Outcome, success: string, failure: string): (t: Toast)
    ensures outcome == Thrown ==> t == Failure(failure)
    ensures outcome != Thrown ==> t == Success(success)
  {
    if outcome == Thrown then Failure(failure) else Success(success)
  }

  /** `updateQuantity(itemId, newQuantity)`. */
  method UpdateQuantity(store: CartStore, users: UserStore, itemId: string, newQuantity: int,
                        mutation: Reply<()>, cart: Reply<seq<CartItem>>)
    returns (toast: Option<Toast>)
    modifies store
    ensures !QuantityAccepted(users.UserId(), newQuantity) ==>
      toast == None && store.State() == old(store.State())
    ensures QuantityAccepted(users.UserId(), newQuantity) ==>
      var (s, outcome) := Mutated(old(store.State()), users.UserId(), Update(itemId, newQuantity), mutation, cart);
      store.State() == s
      && toast == Some(Reported(outcome, "Quantity updated successfully!", "Failed to update quantity. Please try again."))
  {
    if newQuantity < 1 || users.UserId().None? {
      return None;
    }
    var outcome := store.UpdateItem(users, itemId, newQuantity, mutation, cart);
    toast := Some(Reported(outcome, "Quantity updated successfully!", "Failed to update quantity. Please try again."));
  }

  /** `removeItemFromCart(itemId)`, with the answer to its confirmation dialog. */
  method RemoveItemFromCart(store: CartStore, users: UserStore, itemId: string, confirmed: bool,
                            mutation: Reply<()>, cart: Reply<seq<CartItem>>)
    returns (toast: Option<Toast>)
    modifies store
    ensures !confirmed || users.UserId().None? ==> toast == None && store.State() == old(store.State())
    ensures confirmed && users.UserId().Some? ==>
      var (s, outcome) := Mutated(old(store.State()), users.UserId(), Remove(itemId), mutation, cart);
      store.State() == s
      && toast == Some(Reported(outcome, "Item removed from cart!", "Failed to remove item. Please try again."))
  {
    if !confirmed || users.UserId().None? {
      return None;
    }
    var outcome := store.RemoveItem(users, itemId, mutation, cart);
    toast := Some(Reported(outcome, "Item removed from cart!", "Failed to remove item. Please try again."));
  }

  /** `clearCartItems()`, with the answer to its confirmation dialog. */
  method ClearCartItems(store: CartStore, users: UserStore, confirmed: bool,
                        mutation: Reply<()>, cart: Reply<seq<CartItem>>)
    returns (toast: Option<Toast>)
    modifies store
    ensures !confirmed || users.UserId().None? ==> toast == None && store.State() == old(store.State())
    ensures confirmed && users.UserId().Some? ==>
      var (s, outcome) := Mutated(old(store.State()), users.UserId(), Clear, mutation, cart);
      store.State() == s
      && toast == Some(Reported(outcome, "Cart cleared successfully!", "Failed to clear cart. Please try again."))
  {
    if !confirmed || users.UserId().None? {
      return None;
    }
    var outcome := store.ClearCart(users, mutation, cart);
    toast := Some(Reported(outcome, "Cart cleared successfully!", "Failed to clear cart. Please try again."));
  }

  /** `handleCheckout()`: the address goes to the store untrimmed. */
  method HandleCheckout(store: CartStore, users: UserStore, address: string, confirmed: bool,
                        mutation: Reply<()>, cart: Reply<seq<CartItem>>)
    returns (toast: Toast)
    modifies store
    ensures var d := CheckoutDecision(users.UserId(), address, confirmed);
      && (d == NoUser ==> toast == Failure(NoUserMessage))
      && (d == NoAddress ==> toast == Failure(NoAddressMessage))
      && (d == Declined ==> toast == Notice("Order cancelled."))
      && (d != Proceed ==> store.State() == old(store.State()))
      && (d == Proceed ==>
            var (s, outcome) := Mutated(old(store.State()), users.UserId(), CheckoutOrder(address), mutation, cart);
            store.State() == s
            && toast == Reported(outcome, "Order placed successfully!", "Checkout failed. Please try again."))
  {
    var userId := users.UserId();
    if userId.None? {
      return Failure(NoUserMessage);
    }
    if Trim(address) == "" {
      return Failure(NoAddressMessage);
    }
    if !confirmed {
      return Notice("Order cancelled.");
    }
    var outcome := store.Checkout(users, address, mutation, cart);
    toast := Reported(outcome, "Order placed successfully!", "Checkout failed. Please try again.");
  }

  /** A checkout that is carried out sends exactly the address typed, for the
      logged-in user, and nothing before it. */
  lemma CheckoutSendsAddress(s: CartState, userId: Option<string>, address: string, confirmed: bool,
                             mutation: Reply<()>, cart: Reply<seq<CartItem>>)
    requires CheckoutDecision(userId, address, confirmed) == Proceed
    ensures var r := Mutated(s, userId, CheckoutOrder(address), mutation, cart).0;
      |r.sent| > |s.sent| && r.sent[..|s.sent|] == s.sent
      && r.sent[|s.sent|] == PostCheckout(userId.value, address)
  {
  }
}
