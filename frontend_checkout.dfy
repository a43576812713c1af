/** The storefront checkout page: choosing the delivery address after loading, the
    guard and the branches of placing an order, the displayed total and the rule for
    the order button. Alerts, the router and `window.location` are recorded effects. */
module Checkout {
  import opened Wrappers
  import Money
  import opened ClientApi

  datatype DeliveryAddress = DeliveryAddress(id: string, isDefault: bool)

  /** The cart as the page uses it: the number of items and the total in hundredths. */
  datatype Cart = Cart(itemCount: nat, total: int)

  /** The index of the first default address. */
  function FirstDefault(addresses: seq<DeliveryAddress>): (r: Option<nat>)
    ensures r.Some? ==> r.value < |addresses| && addresses[r.value].isDefault
    ensures r.Some? ==> forall j :: 0 <= j < r.value ==> !addresses[j].isDefault
    ensures r.None? ==> forall j :: 0 <= j < |addresses| ==> !addresses[j].isDefault
  {
    if |addresses| == 0 then None
    else if addresses[0].isDefault then Some(0)
    else match FirstDefault(addresses[1..])
      case Some(k) => Some(k + 1)
      case None => None
  }

  /** The selection after loading: the first default address, else the first address,
      else the selection as it was. */
  function SelectAddress(addresses: seq<DeliveryAddress>, current: string): (r: string)
    ensures (exists j :: 0 <= j < |addresses| && addresses[j].isDefault) ==>
              exists j :: 0 <= j < |addresses| && addresses[j].isDefault && r == addresses[j].id
                && forall i :: 0 <= i < j ==> !addresses[i].isDefault
    ensures (forall j :: 0 <= j < |addresses| ==> !addresses[j].isDefault) && |addresses| > 0 ==> r == addresses[0].id
    ensures |addresses| == 0 ==> r == current
  {
    match FirstDefault(addresses)
    case Some(k) => addresses[k].id
    case None => if |addresses| > 0 then addresses[0].id else current
  }

  /** Choosing again from the same list changes nothing. */
  lemma SelectAddressIdempotent(addresses: seq<DeliveryAddress>, current: string)
    ensures SelectAddress(addresses, SelectAddress(addresses, current)) == SelectAddress(addresses, current)
  {
  }

  datatype CreatedOrder = CreatedOrder(id: string)
  datatype CreatedPayment = CreatedPayment(redirectUri: string)

  datatype Effect =
    | Alert(text: string)
    | CreateOrder(deliveryAddressId: string, paymentMethod: string)
    | CreatePayment(orderId: string)
    | Navigate(href: string)
    | RouterPush(path: string)

  const NoAddressAlert := "Vyberte prosím dodací adresu"
  const OrderFailedAlert := "Nepodařilo se vytvořit objednávku"
  const OrderErrorAlert := "Došlo k chybě při vytváření objednávky"

  /** `handlePlaceOrder` after the guard: create the order, then the payment, and go
      to the payment gateway or to the order's page. */
  function PlaceOrderEffects(selected: string, order: Response<CreatedOrder>, payment: Response<CreatedPayment>)
    : (r: seq<Effect>)
    requires selected != ""
    ensures |r| >= 2 && r[0] == CreateOrder(selected, "payu")
    ensures order.Threw? ==> r == [r[0], Alert(OrderErrorAlert)]
    ensures order.Answered? && Payload(order).None? ==> r == [r[0], Alert(OrderFailedAlert)]
    ensures Payload(order).Some? ==> |r| == 3 && r[1] == CreatePayment(Payload(order).value.id)
    ensures Payload(order).Some? && Payload(payment).Some? ==> r[2] == Navigate(Payload(payment).value.redirectUri)
    ensures Payload(order).Some? && payment.Answered? && Payload(payment).None? ==>
              r[2] == RouterPush("/orders/" + Payload(order).value.id)
    ensures Payload(order).Some? && payment.Threw? ==> r[2] == Alert(OrderErrorAlert)
  {
    var create := CreateOrder(selected, "payu");
    match Payload(order)
    case None =>
      if order.Threw? then [create, Alert(OrderErrorAlert)] else [create, Alert(OrderFailedAlert)]
    case Some(o) =>
      var pay := CreatePayment(o.id);
      match payment
      case Threw => [create, pay, Alert(OrderErrorAlert)]
      case Answered(_, _) =>
        match Payload(payment)
        case Some(p) => [create, pay, Navigate(p.redirectUri)]
        case None => [create, pay, RouterPush("/orders/" + o.id)]
  }

  /** Every order the page creates uses the selected address and PayU, and it is the
      only order created. */
  lemma OneOrderPerPlacement(selected: string, order: Response<CreatedOrder>, payment: Response<CreatedPayment>)
    requires selected != ""
    ensures forall k :: 0 <= k < |PlaceOrderEffects(selected, order, payment)| ==>
              PlaceOrderEffects(selected, order, payment)[k].CreateOrder? ==>
                k == 0 && PlaceOrderEffects(selected, order, payment)[k] == CreateOrder(selected, "payu")
  {
  }

  const ShippingHundredths := 9900

  /** The total shown on the page: the cart total plus 99 Kč shipping, to two places. */
  function DisplayedTotal(cart: Cart): (r: string)
    ensures Money.ParseHundredths(r) == Some(cart.total + ShippingHundredths)
  {
    Money.FormatHundredthsRoundTrip(cart.total + ShippingHundredths);
    Money.FormatHundredths(cart.total + ShippingHundredths)
  }

  /** The order button rule. */
  predicate OrderDisabled(processing: bool, selectedAddressId: string, addresses: seq<DeliveryAddress>) {
    processing || selectedAddressId == "" || |addresses| == 0
  }

  /** After a load that returned addresses, the button is enabled unless an order is
      being placed, as long as the chosen address has an id. */
  lemma LoadedAddressesEnableOrder(addresses: seq<DeliveryAddress>, current: string)
    requires |addresses| > 0
    requires forall j :: 0 <= j < |addresses| ==> addresses[j].id != ""
    ensures !OrderDisabled(false, SelectAddress(addresses, current), addresses)
  {
    match FirstDefault(addresses)
    case Some(k) =>
    case None =>
  }

  /** The page shows the empty-cart notice for a missing cart or one without items. */
  predicate ShowsEmptyCart(cart: Option<Cart>) {
    cart.None? || cart.value.itemCount == 0
  }

  class CheckoutPage {
    var cart: Option<Cart>
    var addresses: seq<DeliveryAddress>
    var selectedAddressId: string
    var loading: bool
    var processing: bool
    /** Alerts, API calls and navigation, in order. */
    var effects: seq<Effect>

    constructor()
      ensures cart.None? && addresses == [] && selectedAddressId == "" && loading && !processing && effects == []
    {
      cart := None;
      addresses := [];
      selectedAddressId := "";
      loading := true;
      processing := false;
      effects := [];
    }

    /** `loadData`: both requests run together under `Promise.all`, so a throw in
        either one sets nothing. */
    method LoadData(cartResponse: Response<Cart>, addressesResponse: Response<seq<DeliveryAddress>>)
      modifies this
      ensures !loading
      ensures !cartResponse.Threw? && !addressesResponse.Threw? && Payload(cartResponse).Some? ==>
                cart == Payload(cartResponse)
      ensures cartResponse.Threw? || addressesResponse.Threw? || Payload(cartResponse).None? ==> cart == old(cart)
      ensures !cartResponse.Threw? && !addressesResponse.Threw? && Payload(addressesResponse).Some? ==>
                addresses == Payload(addressesResponse).value
                && selectedAddressId == SelectAddress(addresses, old(selectedAddressId))
      ensures cartResponse.Threw? || addressesResponse.Threw? || Payload(addressesResponse).None? ==>
                addresses == old(addresses) && selectedAddressId == old(selectedAddressId)
      ensures processing == old(processing) && effects == old(effects)
    {
      if !cartResponse.Threw? && !addressesResponse.Threw? {
        var c := Payload(cartResponse);
        if c.Some? {
          cart := c;
        }
        var a := Payload(addressesResponse);
        if a.Some? {
          addresses := a.value;
          selectedAddressId := SelectAddress(a.value, selectedAddressId);
        }
      }
      loading := false;
    }

    /** `handlePlaceOrder`. */
    method HandlePlaceOrder(order: Response<CreatedOrder>, payment: Response<CreatedPayment>)
      modifies this
      ensures old(selectedAddressId) == "" ==> effects == old(effects) + [Alert(NoAddressAlert)] && processing == old(processing)
      ensures old(selectedAddressId) != "" ==>
                effects == old(effects) + PlaceOrderEffects(old(selectedAddressId), order, payment) && !processing
      ensures cart == old(cart) && addresses == old(addresses) && selectedAddressId == old(selectedAddressId)
      ensures loading == old(loading)
    {
      if selectedAddressId == "" {
        effects := effects + [Alert(NoAddressAlert)];
        return;
      }
      processing := true;
      effects := effects + PlaceOrderEffects(selectedAddressId, order, payment);
      processing := false;
    }
  }
}
