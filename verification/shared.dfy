/** The navigation bar and the cart sidebar: what they display, derived from
    the current path and the cart. */
module Shared {
  import opened Types
  import opened App

  /** What the navigation bar derives: whether the storefront is showing,
      where the admin/store toggle link leads and what it says, and whether
      the cart badge is drawn. */
  datatype NavbarView = NavbarView(isStore: bool, toggleTarget: string, toggleLabel: string, showBadge: bool)

  function Navbar(pathname: string, cartItemCount: int): (v: NavbarView)
    ensures v.isStore <==> pathname == "/"
    ensures v.toggleTarget == (if v.isStore then "/admin" else "/")
    ensures v.toggleTarget != pathname
    ensures v.toggleLabel == (if v.isStore then "Admin" else "Store")
    ensures v.showBadge <==> cartItemCount > 0
  {
    var isStore := pathname == "/";
    NavbarView(isStore, if isStore then "/admin" else "/", if isStore then "Admin" else "Store", cartItemCount > 0)
  }

  /** What the cart sidebar derives: the empty-bag message, the disabled
      checkout link, and the subtotal. */
  datatype SidebarView = SidebarView(showEmptyMessage: bool, checkoutDisabled: bool, subtotal: int)

  function CartSidebar(cart: seq<CartLine>): (v: SidebarView)
    ensures v.showEmptyMessage <==> cart == []
    ensures v.checkoutDisabled <==> cart == []
    ensures v.subtotal == Subtotal(cart)
    ensures cart == [] ==> v.subtotal == 0
  {
    SidebarView(|cart| == 0, |cart| == 0, Subtotal(cart))
  }

  /** Over a well-formed cart the badge is drawn exactly when the sidebar has
      lines to show, i.e. exactly when checkout is enabled. */
  lemma BadgeShownIffCheckoutEnabled(pathname: string, cart: seq<CartLine>)
    requires WellFormed(cart)
    ensures Navbar(pathname, ItemCount(cart)).showBadge <==> !CartSidebar(cart).checkoutDisabled
  {
    ItemCountBounds(cart);
  }
}
