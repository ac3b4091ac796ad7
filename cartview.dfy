/**
  The cart page: the per-line total it computes for display, the flat
  shipping charge, the final total, the promo-code check (which accepts no
  code) and the quantity buttons on each line. Prices are in cents.
 */
module CartView {
  import Cart
  import Strings

  /** The page's own line total: base price times quantity, then each ticked material times quantity. */
  method ItemTotal(item: Cart.CartItem) returns (total: int)
    ensures total == Cart.LineTotal(item)
    ensures total == (item.price + Cart.SelectedPrice(item.materials)) * item.quantity
  {
    total := item.price * item.quantity;
    var ms := item.materials;
    var i := 0;
    while i < |ms|
      invariant 0 <= i <= |ms|
      invariant total == item.price * item.quantity + Cart.Surcharge(ms[..i], item.quantity)
    {
      assert ms[..i + 1][..i] == ms[..i];
      if ms[i].selected {
        total := total + ms[i].price * item.quantity;
      }
      i := i + 1;
    }
    assert ms[..i] == ms;
    Cart.LineTotalIsUnitPriceTimesQuantity(item);
  }

  /** The numbers of `totals` added up. */
  function Sum(totals: seq<int>): int
  {
    if |totals| == 0 then 0 else Sum(totals[..|totals| - 1]) + totals[|totals| - 1]
  }

  /** The line totals the page shows add up to the store's `totalPrice`, which the summary shows as the subtotal. */
  lemma {:induction false} ItemTotalsAddUpToTotalPrice(cart: seq<Cart.CartItem>, totals: seq<int>)
    requires |totals| == |cart|
    requires forall i :: 0 <= i < |cart| ==> totals[i] == Cart.LineTotal(cart[i])
    ensures Sum(totals) == Cart.TotalPrice(cart)
  {
    if |cart| > 0 {
      var n := |cart| - 1;
      ItemTotalsAddUpToTotalPrice(cart[..n], totals[..n]);
    }
  }

  /** 4.99 in cents. */
  const ShippingCharge: int := 499

  /** Shipping: a flat charge for a cart with at least one line, nothing for an empty one. */
  function Shipping(cart: seq<Cart.CartItem>): int
  {
    if |cart| > 0 then ShippingCharge else 0
  }

  /** The amount to pay: the subtotal plus shipping. */
  function FinalTotal(cart: seq<Cart.CartItem>): int
  {
    Cart.TotalPrice(cart) + Shipping(cart)
  }

  /**
    An empty cart pays nothing; a non-empty one pays exactly the flat charge on
    top of its subtotal; with non-negative prices and quantities the amount to
    pay covers both the subtotal and the shipping.
   */
  lemma FinalTotalCoversSubtotal(cart: seq<Cart.CartItem>)
    ensures |cart| == 0 ==> FinalTotal(cart) == 0
    ensures |cart| > 0 ==> FinalTotal(cart) == Cart.TotalPrice(cart) + ShippingCharge
    ensures Cart.NonNegativePrices(cart) ==>
      FinalTotal(cart) >= Cart.TotalPrice(cart) && FinalTotal(cart) >= Shipping(cart)
  {
    if Cart.NonNegativePrices(cart) {
      Cart.TotalPriceNonNegative(cart);
    }
  }

  const WelcomeCode: string := "welcome10"
  const NotValidForOrder: string := "Promo code not valid for this order."
  const InvalidCode: string := "Invalid promo code."

  /**
    The promo form: the welcome code, in any letter case, is recognised but
    refused for this order; every other code is invalid. No code is accepted:
    an error message is always set.
   */
  function PromoMessage(code: string): (message: string)
    ensures message == NotValidForOrder <==> Strings.ToLower(code) == WelcomeCode
    ensures message == InvalidCode <==> Strings.ToLower(code) != WelcomeCode
    ensures |message| > 0
  {
    if Strings.ToLower(code) == WelcomeCode then NotValidForOrder else InvalidCode
  }

  /** The message does not depend on the case of the code's letters. */
  lemma WelcomeCodeIgnoresCase(code: string)
    ensures PromoMessage(Strings.ToLower(code)) == PromoMessage(code)
  {
    Strings.ToLowerIdempotent(code);
  }

  /** The minus button is disabled at one unit or fewer. */
  predicate MinusDisabled(item: Cart.CartItem)
  {
    item.quantity <= 1
  }

  /** The quantity each button asks the store for. */
  function MinusRequest(item: Cart.CartItem): int
  {
    item.quantity - 1
  }

  function PlusRequest(item: Cart.CartItem): int
  {
    item.quantity + 1
  }

  /**
    Each enabled button moves its line by exactly one unit and never removes
    it: the plus button always, the minus button because it is disabled at one
    unit.
   */
  lemma ButtonsStepByOne(cart: seq<Cart.CartItem>, i: int)
    requires 0 <= i < |cart| && cart[i].quantity >= 1
    ensures var r := Cart.QuantityUpdated(cart, cart[i].id, PlusRequest(cart[i]));
      |r| == |cart| && r[i].quantity == cart[i].quantity + 1
    ensures !MinusDisabled(cart[i]) ==>
      var r := Cart.QuantityUpdated(cart, cart[i].id, MinusRequest(cart[i]));
      |r| == |cart| && r[i].quantity == cart[i].quantity - 1
  {
  }

  /** The number in the "Subtotal (n items)" label: the number of lines. */
  function SubtotalLabelCount(cart: seq<Cart.CartItem>): int
  {
    |cart|
  }

  /** The label counts lines, so it never exceeds the number of units while every line holds one. */
  lemma SubtotalLabelAtMostUnits(cart: seq<Cart.CartItem>)
    requires Cart.AllPositive(cart)
    ensures SubtotalLabelCount(cart) <= Cart.TotalItems(cart)
  {
    Cart.TotalItemsAtLeastLines(cart);
  }

  /** One line of two cranes: the label says 1 while the cart holds 2 units. */
  lemma SubtotalLabelCountsLinesNotUnits()
    ensures SubtotalLabelCount([Cart.PlainCrane.(quantity := 2)]) == 1
    ensures Cart.TotalItems([Cart.PlainCrane.(quantity := 2)]) == 2
  {
    var cart := [Cart.PlainCrane.(quantity := 2)];
    assert cart[..0] == [];
  }
}
