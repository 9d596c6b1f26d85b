/** The application root: the catalog, the cart and the cart-panel flag, and
    the cart operations every page calls (src/App.tsx). */
module App {
  import opened Types
  import opened Seqs

  // ---------------------------------------------------------------------
  // The cart as a value

  /** Some line of the cart is for product `id`. */
  ghost predicate Contains(cart: seq<CartLine>, id: string) {
    exists i :: 0 <= i < |cart| && cart[i].item.id == id
  }

  /** The product id a line is for. */
  function LineId(l: CartLine): string {
    l.item.id
  }

  /** The cart invariant: at most one line per product id, and every
      quantity is at least 1. */
  ghost predicate WellFormed(cart: seq<CartLine>) {
    && KeysDistinct(cart, LineId)
    && (forall i :: 0 <= i < |cart| ==> cart[i].quantity >= 1)
  }

  /** `cart.find(item => item.id === id)`: the first line for `id`, if any. */
  function Find(cart: seq<CartLine>, id: string): (r: Option<CartLine>)
    ensures r.Some? <==> Contains(cart, id)
    ensures r.Some? ==> r.value in cart && r.value.item.id == id
  {
    if cart == [] then None
    else if cart[0].item.id == id then Some(cart[0])
    else Find(cart[1..], id)
  }

  /** `find` returns the first line for `id`: the line at `k` when no
      earlier line has that id. */
  lemma {:induction false} FindIsFirst(cart: seq<CartLine>, id: string, k: int)
    requires 0 <= k < |cart| && cart[k].item.id == id
    requires forall j :: 0 <= j < k ==> cart[j].item.id != id
    ensures Find(cart, id) == Some(cart[k])
  {
    if k > 0 {
      FindIsFirst(cart[1..], id, k - 1);
    }
  }

  /** The merge step of `addToCart`: every line for `id` gets one more unit
      and keeps its stored product fields; the other lines are unchanged. */
  function Bump(cart: seq<CartLine>, id: string): (r: seq<CartLine>)
    ensures |r| == |cart|
    ensures forall i :: 0 <= i < |cart| ==>
      r[i] == (if cart[i].item.id == id then cart[i].(quantity := cart[i].quantity + 1) else cart[i])
  {
    if cart == [] then []
    else
      [if cart[0].item.id == id then cart[0].(quantity := cart[0].quantity + 1) else cart[0]]
      + Bump(cart[1..], id)
  }

  /** The cart after `addToCart(p)`: merge into the line for `p.id` if there
      is one, otherwise append a new line with quantity 1. */
  function AddLine(cart: seq<CartLine>, p: Product): (r: seq<CartLine>)
    ensures |r| == |cart| + (if Contains(cart, p.id) then 0 else 1)
    ensures Contains(r, p.id)
  {
    if Find(cart, p.id).Some? then
      var r := Bump(cart, p.id);
      assert Contains(r, p.id) by {
        var i :| 0 <= i < |cart| && cart[i].item.id == p.id;
        assert r[i].item.id == p.id;
      }
      r
    else
      var r := cart + [CartLine(p, 1)];
      assert r[|cart|].item.id == p.id;
      r
  }

  /** The cart after `removeFromCart(id)`: every line for `id` filtered out. */
  function RemoveLines(cart: seq<CartLine>, id: string): (r: seq<CartLine>)
    ensures !Contains(r, id)
    ensures forall l :: l in r <==> l in cart && l.item.id != id
  {
    var r := Filter(cart, (l: CartLine) => l.item.id != id);
    assert forall i :: 0 <= i < |r| ==> r[i] in r;
    r
  }

  /** `cartItemCount`: the sum of the quantities. */
  function ItemCount(cart: seq<CartLine>): (r: int)
    ensures (forall i :: 0 <= i < |cart| ==> cart[i].quantity >= 0) ==> r >= 0
  {
    if cart == [] then 0 else cart[0].quantity + ItemCount(cart[1..])
  }

  /** The cart's `total`: the sum over the lines of unit price times quantity
      (the same reduce appears in the checkout page and the cart sidebar). */
  function Subtotal(cart: seq<CartLine>): (r: int)
    ensures (forall i :: 0 <= i < |cart| ==> cart[i].item.price >= 0 && cart[i].quantity >= 0) ==> r >= 0
  {
    if cart == [] then 0 else cart[0].Amount() + Subtotal(cart[1..])
  }

  // ---------------------------------------------------------------------
  // Properties of the cart operations

  /** Adding a product already in the cart raises that one line's quantity by
      exactly 1, keeps its stored fields (the incoming product's fields are
      ignored), and leaves every other line unchanged and in place. */
  lemma AddExistingMergesIntoItsLine(cart: seq<CartLine>, p: Product, k: int)
    requires WellFormed(cart)
    requires 0 <= k < |cart| && cart[k].item.id == p.id
    ensures |AddLine(cart, p)| == |cart|
    ensures AddLine(cart, p)[k] == CartLine(cart[k].item, cart[k].quantity + 1)
    ensures forall i :: 0 <= i < |cart| && i != k ==> AddLine(cart, p)[i] == cart[i]
  {
    assert Contains(cart, p.id);
  }

  /** Adding a product that is not in the cart appends one new line with
      quantity 1 at the end; the earlier lines are unchanged. */
  lemma AddAbsentAppends(cart: seq<CartLine>, p: Product)
    requires !Contains(cart, p.id)
    ensures AddLine(cart, p) == cart + [CartLine(p, 1)]
  {
  }

  /** `addToCart` keeps one line per id and every quantity positive. */
  lemma {:induction false} AddLinePreservesWellFormed(cart: seq<CartLine>, p: Product)
    requires WellFormed(cart)
    ensures WellFormed(AddLine(cart, p))
  {
    var r := AddLine(cart, p);
    if Contains(cart, p.id) {
      assert forall i :: 0 <= i < |r| ==> r[i].item == cart[i].item && r[i].quantity >= cart[i].quantity;
    } else {
      forall i, j | 0 <= i < j < |r| ensures r[i].item.id != r[j].item.id {
        if j == |cart| {
          assert r[i] == cart[i];
        }
      }
    }
  }

  lemma {:induction false} ItemCountAppend(a: seq<CartLine>, b: seq<CartLine>)
    ensures ItemCount(a + b) == ItemCount(a) + ItemCount(b)
    ensures Subtotal(a + b) == Subtotal(a) + Subtotal(b)
  {
    if a == [] {
      assert a + b == b;
    } else {
      assert (a + b)[0] == a[0];
      assert (a + b)[1..] == a[1..] + b;
      ItemCountAppend(a[1..], b);
    }
  }

  /** The tail of a well-formed cart is well-formed and does not hold the
      head's id. */
  lemma WellFormedTail(cart: seq<CartLine>)
    requires WellFormed(cart) && cart != []
    ensures WellFormed(cart[1..]) && !Contains(cart[1..], cart[0].item.id)
  {
    forall i | 0 <= i < |cart[1..]| ensures cart[1..][i] == cart[i + 1] { }
  }

  /** Merging a unit into a well-formed cart adds exactly one unit, priced at
      the unit price stored on the line that received it. */
  lemma {:induction false} BumpTotals(cart: seq<CartLine>, id: string)
    requires WellFormed(cart) && Contains(cart, id)
    ensures ItemCount(Bump(cart, id)) == ItemCount(cart) + 1
    ensures Subtotal(Bump(cart, id)) == Subtotal(cart) + Find(cart, id).value.item.price
  {
    var b, tail := Bump(cart, id), Bump(cart[1..], id);
    assert b[1..] == tail;
    WellFormedTail(cart);
    if cart[0].item.id == id {
      assert tail == cart[1..];
      assert b[0] == cart[0].(quantity := cart[0].quantity + 1);
    } else {
      assert b[0] == cart[0];
      assert Contains(cart[1..], id) by {
        var i :| 0 <= i < |cart| && cart[i].item.id == id;
        assert cart[1..][i - 1] == cart[i];
      }
      assert Find(cart, id) == Find(cart[1..], id);
      BumpTotals(cart[1..], id);
    }
  }

  /** Every `addToCart` raises `cartItemCount` by exactly 1, and the subtotal
      by the unit price of the line that received the unit: the stored price
      of the existing line on a merge, the product's price on an append. */
  lemma {:induction false} AddLineTotals(cart: seq<CartLine>, p: Product)
    requires WellFormed(cart)
    ensures ItemCount(AddLine(cart, p)) == ItemCount(cart) + 1
    ensures Subtotal(AddLine(cart, p)) ==
      Subtotal(cart) + (if Contains(cart, p.id) then Find(cart, p.id).value.item.price else p.price)
  {
    if Contains(cart, p.id) {
      BumpTotals(cart, p.id);
    } else {
      ItemCountAppend(cart, [CartLine(p, 1)]);
    }
  }

  /** Removing every line for `id` keeps one line per id and positive quantities. */
  lemma RemoveLinesPreservesWellFormed(cart: seq<CartLine>, id: string)
    requires WellFormed(cart)
    ensures WellFormed(RemoveLines(cart, id))
  {
    FilterKeepsKeysDistinct(cart, (l: CartLine) => l.item.id != id, LineId);
    var r := RemoveLines(cart, id);
    assert forall i :: 0 <= i < |r| ==> r[i] in cart;
  }

  /** `removeFromCart` keeps the remaining lines in their relative order. */
  lemma RemoveLinesKeepsOrder(cart: seq<CartLine>, id: string)
    ensures IsSubsequence(RemoveLines(cart, id), cart)
  {
    FilterIsSubsequence(cart, (l: CartLine) => l.item.id != id);
  }

  /** `removeFromCart` of an id that is not in the cart changes nothing. */
  lemma RemoveAbsentIsNoOp(cart: seq<CartLine>, id: string)
    requires !Contains(cart, id)
    ensures RemoveLines(cart, id) == cart
  {
    forall l | l in cart ensures l.item.id != id { }
    FilterKeepsAll(cart, (l: CartLine) => l.item.id != id);
  }

  /** Removing the same id twice is removing it once. */
  lemma RemoveLinesIdempotent(cart: seq<CartLine>, id: string)
    ensures RemoveLines(RemoveLines(cart, id), id) == RemoveLines(cart, id)
  {
    FilterIdempotent(cart, (l: CartLine) => l.item.id != id);
  }

  /** Removing the line at `k` takes exactly its quantity out of the item
      count and its amount out of the subtotal. */
  lemma {:induction false} RemoveLinesTotals(cart: seq<CartLine>, k: int)
    requires WellFormed(cart) && 0 <= k < |cart|
    ensures ItemCount(RemoveLines(cart, cart[k].item.id)) == ItemCount(cart) - cart[k].quantity
    ensures Subtotal(RemoveLines(cart, cart[k].item.id)) == Subtotal(cart) - cart[k].Amount()
  {
    var id := cart[k].item.id;
    assert WellFormed(cart[1..]) by {
      forall i | 0 <= i < |cart[1..]| ensures cart[1..][i] == cart[i + 1] { }
    }
    if k == 0 {
      assert !Contains(cart[1..], id) by {
        forall i | 0 <= i < |cart[1..]| ensures cart[1..][i].item.id != id {
          assert cart[1..][i] == cart[i + 1];
        }
      }
      RemoveAbsentIsNoOp(cart[1..], id);
      assert RemoveLines(cart, id) == RemoveLines(cart[1..], id);
    } else {
      assert cart[1..][k - 1] == cart[k];
      RemoveLinesTotals(cart[1..], k - 1);
      var r := [cart[0]] + RemoveLines(cart[1..], id);
      assert RemoveLines(cart, id) == r;
      assert r[1..] == RemoveLines(cart[1..], id);
    }
  }

  /** In a well-formed cart the item count is at least the number of lines,
      so it is 0 exactly when the cart is empty. */
  lemma {:induction false} ItemCountBounds(cart: seq<CartLine>)
    requires WellFormed(cart)
    ensures ItemCount(cart) >= |cart|
    ensures ItemCount(cart) == 0 <==> cart == []
  {
    if cart != [] {
      assert WellFormed(cart[1..]) by {
        forall i | 0 <= i < |cart[1..]| ensures cart[1..][i] == cart[i + 1] { }
      }
      ItemCountBounds(cart[1..]);
    }
  }

  // ---------------------------------------------------------------------
  // The application state

  /** The state held at the application root. */
  class AppState {
    var products: seq<Product>
    var cart: seq<CartLine>
    var isCartOpen: bool

    ghost predicate Valid()
      reads this
    {
      WellFormed(cart)
    }

    /** The initial state: the seed catalog, an empty cart, the panel closed. */
    constructor (initialProducts: seq<Product>)
      ensures Valid()
      ensures products == initialProducts && cart == [] && !isCartOpen
    {
      products := initialProducts;
      cart := [];
      isCartOpen := false;
    }

    /** `addToCart`: merge or append, then open the cart panel. */
    method AddToCart(p: Product)
      requires Valid()
      modifies this
      ensures Valid()
      ensures cart == AddLine(old(cart), p)
      ensures isCartOpen && products == old(products)
      ensures ItemCount(cart) == old(ItemCount(cart)) + 1
    {
      AddLinePreservesWellFormed(cart, p);
      AddLineTotals(cart, p);
      cart := AddLine(cart, p);
      isCartOpen := true;
    }

    /** `removeFromCart`: drop every line for `id`. */
    method RemoveFromCart(id: string)
      requires Valid()
      modifies this
      ensures Valid()
      ensures cart == RemoveLines(old(cart), id) && !Contains(cart, id)
      ensures isCartOpen == old(isCartOpen) && products == old(products)
    {
      RemoveLinesPreservesWellFormed(cart, id);
      cart := RemoveLines(cart, id);
    }

    /** `clearCart`: empty the cart. */
    method ClearCart()
      requires Valid()
      modifies this
      ensures Valid()
      ensures cart == [] && ItemCount(cart) == 0 && Subtotal(cart) == 0
      ensures isCartOpen == old(isCartOpen) && products == old(products)
    {
      cart := [];
    }

    /** The navbar's cart button: flip the panel flag. */
    method ToggleCart()
      modifies this
      ensures isCartOpen == !old(isCartOpen)
      ensures cart == old(cart) && products == old(products)
    {
      isCartOpen := !isCartOpen;
    }

    /** The sidebar's close handler: the panel is closed afterwards. */
    method CloseCart()
      modifies this
      ensures !isCartOpen
      ensures cart == old(cart) && products == old(products)
    {
      isCartOpen := false;
    }
  }
}
