/** The cart panel (src/commponents/ShoppingCart.tsx): totals, the quantity input
    and the checkout handler. */
module ShoppingCart {
  import opened Wrappers
  import opened Types
  import opened Backend
  import opened Cart
  import opened Firestore

  datatype Totals = Totals(totalItems: int, totalPrice: int)

  /** Σ quantity */
  function SumQuantities(items: seq<CartItem>): int {
    if items == [] then 0 else items[0].quantity + SumQuantities(items[1..])
  }

  /** Σ quantity × price */
  function SumPrices(items: seq<CartItem>): int {
    if items == [] then 0 else items[0].quantity * items[0].product.price + SumPrices(items[1..])
  }

  /** The `reduce` behind `totals`: an accumulator updated item by item, first to last. */
  function FoldTotals(items: seq<CartItem>, acc: Totals): (t: Totals)
    ensures t.totalItems == acc.totalItems + SumQuantities(items)
    ensures t.totalPrice == acc.totalPrice + SumPrices(items)
  {
    if items == [] then acc
    else
      FoldTotals(items[1..], Totals(acc.totalItems + items[0].quantity,
                                    acc.totalPrice + items[0].quantity * items[0].product.price))
  }

  /** `totals`: the number of units and the price of the whole cart. */
  function CartTotals(items: seq<CartItem>): (t: Totals)
    ensures t.totalItems == SumQuantities(items)
    ensures t.totalPrice == SumPrices(items)
  {
    FoldTotals(items, Totals(0, 0))
  }

  /** With every quantity at least 1, the cart holds at least one unit per line. */
  lemma {:induction false} TotalItemsCoverLines(items: seq<CartItem>)
    requires QuantitiesPositive(items)
    ensures CartTotals(items).totalItems >= |items|
  {
    if items != [] {
      TotalItemsCoverLines(items[1..]);
    }
  }

  /** Adding a product adds one unit, priced as the line that received it. */
  lemma {:induction false} AddedTotals(items: seq<CartItem>, p: Product)
    ensures SumQuantities(Added(items, p)) == SumQuantities(items) + 1
    ensures SumPrices(Added(items, p)) == SumPrices(items) +
      (match IndexOf(items, p.id) case Some(k) => items[k].product.price case None => p.price)
  {
    if items == [] {
    } else if items[0].Id() == p.id {
      var r := Added(items, p);
      assert r[1..] == items[1..];
      assert IndexOf(items, p.id) == Some(0);
    } else {
      var r := Added(items, p);
      AddedTotals(items[1..], p);
      assert r[1..] == Added(items[1..], p);
      match IndexOf(items[1..], p.id)
      case Some(k) => assert IndexOf(items, p.id) == Some(k + 1);
      case None => assert IndexOf(items, p.id) == None;
    }
  }

  const SignInRequired := "Please sign in to place an order."
  const OrderPlaced := "Order placed successfully! Your cart has been cleared."
  const CheckoutFailed := "Checkout failed. Please try again."

  /** `handleQuantityChange(id, value)`, where `parsed` is `Number(value)`: the cart is asked
      to set `Math.max(1, Number(value) || 1)`, which is at least 1 and is what gets stored. */
  method HandleQuantityChange(cart: CartStore, id: string, parsed: Option<int>)
    requires cart.Valid()
    modifies cart
    ensures cart.Valid()
    ensures cart.items == QuantitySet(old(cart.items), id, QuantityFrom(parsed))
    ensures IndexOf(old(cart.items), id).Some? ==>
              var k := IndexOf(old(cart.items), id).value;
              && cart.items == old(cart.items)[k := old(cart.items)[k].(quantity := QuantityFrom(parsed))]
              && cart.slot == SlotFor(cart.items)
    ensures IndexOf(old(cart.items), id).None? ==>
              cart.items == old(cart.items) && cart.slot == old(cart.slot)
  {
    var quantity := QuantityFrom(parsed);
    QuantitySetAt(cart.items, id, quantity);
    cart.UpdateQuantity(id, quantity);
  }

  /** The fields `handleCheckout` passes along: the user's email, the profile's name and address. */
  function InfoFor(user: User, profile: Option<UserProfile>): OrderUserInfo {
    OrderUserInfo(user.email,
                  if profile.Some? then Some(profile.value.name) else None,
                  if profile.Some? then Some(profile.value.address) else None)
  }

  class CheckoutPanel {
    var message: Option<string>
    var error: Option<string>
    var isSubmitting: bool

    constructor ()
      ensures message == None && error == None && !isSubmitting
    {
      message, error, isSubmitting := None, None, false;
    }

    /** `handleCheckout`. The order write succeeds exactly when `writeSucceeds`; `failure` is
        the message of the rejection, and `newOrderId` the id the store assigns. */
    method HandleCheckout(cart: CartStore, store: DocumentStore, user: Option<User>,
                          profile: Option<UserProfile>, newOrderId: string,
                          writeSucceeds: bool, failure: string)
      requires cart.Valid()
      requires newOrderId !in store.orders
      modifies this, cart, store
      ensures cart.Valid()
      ensures store.products == old(store.products) && store.users == old(store.users)
      ensures store.principals == old(store.principals)
      // an empty cart: nothing happens
      ensures old(cart.items) == [] ==>
                && message == old(message) && error == old(error) && isSubmitting == old(isSubmitting)
                && cart.items == old(cart.items) && cart.slot == old(cart.slot)
                && store.orders == old(store.orders) && store.log == old(store.log)
      // nobody signed in: an error, no write, the cart as it was
      ensures old(cart.items) != [] && user.None? ==>
                && error == Some(SignInRequired) && message == None && isSubmitting == old(isSubmitting)
                && cart.items == old(cart.items) && cart.slot == old(cart.slot)
                && store.orders == old(store.orders) && store.log == old(store.log)
      // a write was attempted: never left submitting
      ensures old(cart.items) != [] && user.Some? ==> !isSubmitting
      ensures old(cart.items) != [] && user.Some? && writeSucceeds ==>
                && newOrderId in store.orders
                && IsOrderPayload(store.orders[newOrderId], user.value.uid, old(cart.items),
                                  CartTotals(old(cart.items)).totalPrice, InfoFor(user.value, profile))
                && store.orders.Keys == old(store.orders.Keys) + {newOrderId}
                && (forall id :: id in old(store.orders) ==> store.orders[id] == old(store.orders[id]))
                && store.log == old(store.log) + [OrderAdded(newOrderId)]
                && cart.items == [] && cart.slot == None
                && message == Some(OrderPlaced) && error == None
      ensures old(cart.items) != [] && user.Some? && !writeSucceeds ==>
                && store.orders == old(store.orders) && store.log == old(store.log)
                && cart.items == old(cart.items) && cart.slot == old(cart.slot)
                && error == Some(OrElse(failure, CheckoutFailed)) && message == None
    {
      if |cart.items| == 0 {
        return;
      }
      error := None;
      message := None;
      if user.None? {
        error := Some(SignInRequired);
        return;
      }
      isSubmitting := true;
      var totals := CartTotals(cart.items);
      var ok := CreateOrder(store, user.value.uid, cart.items, totals.totalPrice,
                            InfoFor(user.value, profile), newOrderId, writeSucceeds);
      if ok {
        cart.ClearCart();
        message := Some(OrderPlaced);
      } else {
        error := Some(OrElse(failure, CheckoutFailed));
      }
      isSubmitting := false;
    }
  }
}
