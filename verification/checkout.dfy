/** The checkout page: the order summary and the two-state submission flow
    (collecting shipping details, then confirmed). */
module Checkout {
  import opened Types
  import opened App

  /** The three screens the page can render. */
  datatype View = Confirmed | EmptyBag | Form

  /** Which screen is rendered: the submitted check comes first, so a
      confirmed order is shown whatever the cart holds; otherwise an empty
      cart shows the empty-bag screen and a non-empty one the form. */
  function SelectView(isSubmitted: bool, cart: seq<CartLine>): (v: View)
    ensures v == Confirmed <==> isSubmitted
    ensures v == EmptyBag <==> !isSubmitted && |cart| == 0
    ensures v == Form <==> !isSubmitted && |cart| > 0
  {
    if isSubmitted then Confirmed
    else if |cart| == 0 then EmptyBag
    else Form
  }

  /** The order summary panel: the amount shown beside each line, the
      subtotal, and the total (shipping is free, so nothing is added). */
  datatype Summary = Summary(amounts: seq<int>, subtotal: int, total: int)

  function OrderSummary(cart: seq<CartLine>): (s: Summary)
    ensures |s.amounts| == |cart|
    ensures forall i :: 0 <= i < |cart| ==> s.amounts[i] == cart[i].item.price * cart[i].quantity
    ensures s.total == s.subtotal
    ensures cart == [] ==> s.total == 0
  {
    Summary(seq(|cart|, i requires 0 <= i < |cart| => cart[i].Amount()), Subtotal(cart), Subtotal(cart))
  }

  /** The sum of a list of amounts. */
  function Sum(xs: seq<int>): (r: int)
    ensures (forall i :: 0 <= i < |xs| ==> xs[i] >= 0) ==> r >= 0
    ensures |xs| == 1 ==> r == xs[0]
  {
    if xs == [] then 0 else xs[0] + Sum(xs[1..])
  }

  /** The displayed line amounts add up to the displayed subtotal. */
  lemma {:induction false} AmountsAddUpToSubtotal(cart: seq<CartLine>)
    ensures Sum(OrderSummary(cart).amounts) == OrderSummary(cart).subtotal
  {
    if cart != [] {
      AmountsAddUpToSubtotal(cart[1..]);
      var a := OrderSummary(cart).amounts;
      assert a[1..] == OrderSummary(cart[1..]).amounts;
    }
  }

  /** The checkout page, mounted over the application state whose cart it
      reads and clears. */
  class CheckoutPage {
    const app: AppState
    var isSubmitted: bool

    constructor (app: AppState)
      ensures this.app == app && !isSubmitted
    {
      this.app := app;
      isSubmitted := false;
    }

    /** The screen currently rendered: the confirmation once submitted,
        and the form only over a cart with lines. */
    function CurrentView(): (v: View)
      reads this, app
      ensures isSubmitted <==> v == Confirmed
      ensures v == Form ==> app.cart != []
      ensures v == EmptyBag ==> app.cart == []
    {
      SelectView(isSubmitted, app.cart)
    }

    /** Placing the order: mark it submitted and clear the cart in the same
        step; the confirmation screen is rendered afterwards. */
    method HandleSubmit()
      requires app.Valid()
      modifies this, app
      ensures app.Valid()
      ensures isSubmitted && app.cart == []
      ensures ItemCount(app.cart) == 0 && Subtotal(app.cart) == 0
      ensures CurrentView() == Confirmed
      ensures app.products == old(app.products) && app.isCartOpen == old(app.isCartOpen)
    {
      isSubmitted := true;
      app.ClearCart();
    }
  }

  /** A session from first add to confirmed order: two lines, a merge, a
      removal, then submission. */
  method CheckoutScenario() {
    var p1 := Product("p1", "Oud Nuit", "Noir Essence", 50, "", ["Oud"], "", false, Unisex);
    var p2 := Product("p2", "Rose Noire", "Noir Essence", 30, "", ["Rose"], "", true, Women);
    var app := new AppState([p1, p2]);
    app.AddToCart(p1);
    app.AddToCart(p2);
    app.AddToCart(p1);
    assert app.cart == [CartLine(p1, 2), CartLine(p2, 1)];
    assert app.cart[1..][1..] == [];
    assert app.cart[0].Amount() == 100 && Subtotal(app.cart[1..]) == 30;
    assert ItemCount(app.cart) == 3 && Subtotal(app.cart) == 130;
    var before := app.cart;
    app.RemoveFromCart("p2");
    assert before[1..] == [CartLine(p2, 1)] && before[1..][1..] == [];
    assert RemoveLines(before[1..], "p2") == [];
    assert RemoveLines(before, "p2") == [before[0]] + RemoveLines(before[1..], "p2");
    assert app.cart == [CartLine(p1, 2)];
    assert ItemCount(app.cart) == 2 && Subtotal(app.cart) == 100;
    var page := new CheckoutPage(app);
    assert page.CurrentView() == Form;
    page.HandleSubmit();
    assert page.CurrentView() == Confirmed && ItemCount(app.cart) == 0;
  }
}
