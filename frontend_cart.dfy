/** The storefront cart page: changing a quantity, removing an item, and reloading
    the cart after either succeeds. */
module CartPage {
  import opened Wrappers
  import opened ClientApi

  datatype CartItem = CartItem(id: string, quantity: int, price: int)
  datatype Cart = Cart(items: seq<CartItem>, total: int, itemCount: int)

  /** The requests the page makes to the cart API. */
  datatype CartCall = UpdateItem(itemId: string, quantity: int) | RemoveItem(itemId: string) | GetCart

  /** The requests of `updateQuantity(itemId, quantity)`: below 1 the item is removed,
      otherwise exactly that quantity is sent; the cart is fetched again when the
      change succeeded. */
  function QuantityCalls(itemId: string, quantity: int, changed: bool): (r: seq<CartCall>)
    ensures |r| == if changed then 2 else 1
    ensures quantity < 1 <==> r[0] == RemoveItem(itemId)
    ensures quantity >= 1 <==> r[0] == UpdateItem(itemId, quantity)
    ensures changed ==> r[1] == GetCart
  {
    var change := if quantity < 1 then RemoveItem(itemId) else UpdateItem(itemId, quantity);
    if changed then [change, GetCart] else [change]
  }

  /** No quantity below 1 is ever sent to the cart API. */
  lemma NoQuantityBelowOne(itemId: string, quantity: int, changed: bool)
    ensures forall k :: 0 <= k < |QuantityCalls(itemId, quantity, changed)| ==>
              QuantityCalls(itemId, quantity, changed)[k].UpdateItem? ==>
                QuantityCalls(itemId, quantity, changed)[k].quantity >= 1
  {
  }

  /** "−" on a quantity of 1 removes the item; "+" sends the quantity plus one. */
  lemma MinusAndPlus(item: CartItem, changed: bool)
    ensures item.quantity <= 1 ==> QuantityCalls(item.id, item.quantity - 1, changed)[0] == RemoveItem(item.id)
    ensures item.quantity >= 0 ==> QuantityCalls(item.id, item.quantity + 1, changed)[0] == UpdateItem(item.id, item.quantity + 1)
  {
  }

  /** `!cart || cart.items.length === 0`. */
  predicate ShowsEmptyCart(cart: Option<Cart>) {
    cart.None? || |cart.value.items| == 0
  }

  class CartPageState {
    var cart: Option<Cart>
    var loading: bool
    /** Every request to the cart API, in order. */
    var calls: seq<CartCall>

    constructor()
      ensures cart.None? && loading && calls == []
    {
      cart := None;
      loading := true;
      calls := [];
    }

    /** `loadCart`: keep the cart unless a successful response carries one. */
    method LoadCart(response: Response<Cart>)
      modifies this
      ensures calls == old(calls) + [GetCart]
      ensures cart == if Payload(response).Some? then Payload(response) else old(cart)
      ensures !loading
    {
      calls := calls + [GetCart];
      var data := Payload(response);
      if data.Some? {
        cart := data;
      }
      loading := false;
    }

    /** `removeItem`: the removal, then a reload when it succeeded. */
    method RemoveItem(itemId: string, removed: bool, reload: Response<Cart>)
      modifies this
      ensures calls == old(calls) + QuantityCalls(itemId, 0, removed)
      ensures removed ==> cart == (if Payload(reload).Some? then Payload(reload) else old(cart)) && !loading
      ensures !removed ==> cart == old(cart) && loading == old(loading)
    {
      calls := calls + [CartCall.RemoveItem(itemId)];
      if removed {
        LoadCart(reload);
      }
    }

    /** `updateQuantity`. */
    method UpdateQuantity(itemId: string, quantity: int, changed: bool, reload: Response<Cart>)
      modifies this
      ensures calls == old(calls) + QuantityCalls(itemId, quantity, changed)
      ensures changed ==> cart == (if Payload(reload).Some? then Payload(reload) else old(cart)) && !loading
      ensures !changed ==> cart == old(cart) && loading == old(loading)
    {
      if quantity < 1 {
        RemoveItem(itemId, changed, reload);
        return;
      }
      calls := calls + [UpdateItem(itemId, quantity)];
      if changed {
        LoadCart(reload);
      }
    }
  }
}
