# Noir Essence storefront: cart, checkout and catalog bookkeeping

A Dafny model of the in-memory state of a perfume storefront single-page
application. The application root owns three pieces of state: the product
catalog, the shopping cart (one line per product, each with a quantity) and
the flag that opens the cart panel. The model covers:

- the cart operations `addToCart` (merge by id, or append with quantity 1,
  then open the panel), `removeFromCart`, `clearCart`, the item count and the
  subtotal;
- the checkout page's two-state flow (collecting, then confirmed), its
  choice of screen, and its order summary;
- what the navigation bar and the cart sidebar derive from the path and the
  cart (badge, empty message, disabled checkout link, admin/store link);
- the admin panel: a confirmed delete, the new-product form's draft and note
  list, the description-drafting precondition, and the guarded launch with
  its defaults;
- the collection page's category tabs and filter.

Layout, one module per source file:

| file | module | source |
|---|---|---|
| `types.dfy` | `Types` | `src/types.ts` |
| `seqs.dfy` | `Seqs` | the `filter` transforms the handlers share |
| `app.dfy` | `App` | `src/App.tsx` |
| `checkout.dfy` | `Checkout` | `src/components/CheckoutPage.tsx` |
| `shared.dfy` | `Shared` | `src/components/Shared.tsx` |
| `admin.dfy` | `Admin` | `src/components/AdminPanel.tsx` |
| `collection.dfy` | `Collection` | `src/components/CollectionPage.tsx` |

State that handlers replace over time is a class: `App.AppState` (catalog,
cart, panel flag), `Checkout.CheckoutPage` (the submitted flag) and
`Admin.AdminPanel` (the form's open flag, the draft, the note input). The two
page classes hold a reference to the `AppState` because the pages call the
root's `clearCart` and `setProducts`. The expressions inside the state
updaters (`find`, `map`, spread-append, `filter`, `reduce`) are functions, and
each method's postcondition ties the new state to them. The cart invariant
(`App.WellFormed`: at most one line per id, every quantity at least 1) is the
class's `Valid()`, kept by every method.

Prices are whole dollars (`int`); JavaScript numbers are only used for
whole-dollar arithmetic here. The `reduce` sums are written as recursions
from the front; integer addition is associative, so the order of the fold
does not change the result.

Behaviours of the code worth knowing:

- The launch guard tests the price for truthiness, so 0 and NaN are refused
  but negative prices are accepted (`Admin.NegativePriceIsAccepted`).
- The new product's id comes from the clock, which may repeat; the model
  takes the id as a parameter and proves that ids stay unique only when that
  id is new (`Admin.LaunchKeepsIdsUnique`).
- A delete filters the catalog, so every product with that id is removed.
- The checkout submit handler has no non-empty check of its own; the form is
  only rendered over a cart with lines (`Checkout.SelectView`).

## Model

| member | source | states |
|---|---|---|
| `App.Find` | src/App.tsx:20 | the lookup succeeds exactly when some line has the id, and what it returns is a line of the cart with that id |
| `App.FindIsFirst` | src/App.tsx:20 | when line k has the id and no earlier line has it, the lookup returns line k: the first matching line |
| `App.Bump` | src/App.tsx:22-24 | the merge keeps the length; each line with the id gets quantity + 1 with its stored product fields kept, every other line is unchanged |
| `App.AddLine` | src/App.tsx:19-27 | the cart after an add has one more line exactly when the id was absent (the same length on a merge), and it always holds a line for the added id |
| `App.AddExistingMergesIntoItsLine` | src/App.tsx:20-25 | in a well-formed cart, adding a product whose id is at line k raises exactly line k's quantity by 1, keeps that line's stored fields (the incoming product's are ignored), and leaves every other line unchanged and in place |
| `App.AddAbsentAppends` | src/App.tsx:26 | adding a product whose id is absent appends one line with quantity 1 at the end, earlier lines unchanged |
| `App.AddLinePreservesWellFormed` | src/App.tsx:19-27 | adding keeps at most one line per id and every quantity at least 1 |
| `App.BumpTotals` | src/App.tsx:22-24 | merging into a well-formed cart adds exactly one unit, and adds the price stored on the receiving line to the subtotal |
| `App.AddLineTotals` | src/App.tsx:18-37 | every add raises the item count by exactly 1, and the subtotal by the stored price of the merged line, or by the new product's price on an append |
| `App.RemoveLines` | src/App.tsx:31-33 | no line with the id remains; a line survives exactly when it was in the cart with another id |
| `App.RemoveLinesPreservesWellFormed` | src/App.tsx:31-33 | removal keeps one line per id and positive quantities |
| `App.RemoveLinesKeepsOrder` | src/App.tsx:31-33 | the remaining lines keep their relative order (the result is a subsequence of the cart) |
| `App.RemoveAbsentIsNoOp` | src/App.tsx:31-33 | removing an id that is not in the cart changes nothing |
| `App.RemoveLinesIdempotent` | src/App.tsx:31-33 | removing the same id twice equals removing it once |
| `App.RemoveLinesTotals` | src/App.tsx:31-37 | removing line k's id takes exactly its quantity off the item count and its price × quantity off the subtotal |
| `App.ItemCount` | src/App.tsx:37 | the sum of the quantities, never negative when no quantity is; its bounds over a well-formed cart and its change under add and remove are stated by `App.ItemCountBounds`, `App.AddLineTotals` and `App.RemoveLinesTotals` |
| `App.Subtotal` | src/components/CheckoutPage.tsx:13 | the price × quantity reduce, never negative when no price or quantity is; its change under add and remove is stated by `App.AddLineTotals` and `App.RemoveLinesTotals`, its agreement with the displayed amounts by `Checkout.AmountsAddUpToSubtotal` |
| `App.ItemCountBounds` | src/App.tsx:37 | in a well-formed cart the item count is at least the number of lines, and it is 0 exactly when the cart is empty |
| `App.AppState.constructor` | src/App.tsx:14-16 | the initial state is the seed catalog, an empty cart and a closed panel |
| `App.AppState.AddToCart` | src/App.tsx:18-29 | the cart becomes the merge-or-append of the old cart, the panel is open, the item count grew by 1, the catalog is unchanged, the invariant holds |
| `App.AppState.RemoveFromCart` | src/App.tsx:31-33 | the cart becomes the filtered old cart with no line for the id; the rest of the state is unchanged |
| `App.AppState.ClearCart` | src/App.tsx:35 | the cart is empty, so the item count and subtotal are 0; the rest is unchanged |
| `App.AppState.ToggleCart` | src/App.tsx:43 | the panel flag is flipped; cart and catalog unchanged |
| `App.AppState.CloseCart` | src/App.tsx:49 | the panel is closed; cart and catalog unchanged |
| `Checkout.SelectView` | src/components/CheckoutPage.tsx:21-49 | the confirmation screen exactly when submitted (whatever the cart holds); the empty-bag screen exactly when not submitted and the cart is empty; the form otherwise |
| `Types.CartLine.Amount` | src/components/CheckoutPage.tsx:104 | the displayed line amount is never negative when price and quantity are not, and is the unit price for a single unit |
| `Checkout.OrderSummary` | src/components/CheckoutPage.tsx:98-123 | one displayed amount per line, equal to price × quantity; shipping is free so the total equals the subtotal; both are 0 for an empty cart |
| `Checkout.AmountsAddUpToSubtotal` | src/components/CheckoutPage.tsx:13 | the `total` reduce equals the sum of the per-line amounts the summary displays |
| `Checkout.CheckoutPage.CurrentView` | src/components/CheckoutPage.tsx:21-49 | the confirmation is shown exactly when the order is submitted; the form only over a cart with lines, the empty-bag screen only over an empty cart |
| `Checkout.CheckoutPage.constructor` | src/components/CheckoutPage.tsx:12 | a mounted page starts not submitted |
| `Checkout.CheckoutPage.HandleSubmit` | src/components/CheckoutPage.tsx:15-19 | in one step the page is submitted and the cart is cleared (item count and subtotal 0); the confirmation screen is rendered next; the catalog and panel flag are unchanged |
| `Shared.Navbar` | src/components/Shared.tsx:13-53 | `isStore` exactly when the path is `/`; the toggle link leads to `/admin` from the store and to `/` elsewhere, so never to the current path; its label follows; the badge is drawn exactly when the item count is positive |
| `Shared.CartSidebar` | src/components/Shared.tsx:116-166 | the empty-bag message and the disabled checkout link each hold exactly when the cart has no lines; the subtotal is the same price × quantity reduce the checkout page shows, 0 for an empty cart |
| `Shared.BadgeShownIffCheckoutEnabled` | src/components/Shared.tsx:53 | over a well-formed cart, the navbar badge is drawn exactly when the sidebar's checkout link is enabled |
| `Collection.FilteredProducts` | src/components/CollectionPage.tsx:12-14 | `All` returns the catalog itself; a category returns exactly the products of that category; never longer than the catalog |
| `Collection.FilteredKeepsOrder` | src/components/CollectionPage.tsx:14 | the filtered list is a subsequence of the catalog (catalog order kept) |
| `Collection.FilteredIdempotent` | src/components/CollectionPage.tsx:14 | filtering by the same tab twice equals filtering once |
| `Collection.TabsAreEveryTabOnce` | src/components/CollectionPage.tsx:29 | the tab list holds every tab value (All, Women, Men, Unisex), each once |
| `Admin.PriceTruthy` | src/components/AdminPanel.tsx:55 | 0 and NaN are falsy and every negative amount is truthy; a truthy price is a non-zero number |
| `Admin.CanLaunch` | src/components/AdminPanel.tsx:55 | an empty name, a NaN price or a zero price is refused; an accepted draft has a non-zero number as its price |
| `Admin.InitialDraftIsBlank` | src/components/AdminPanel.tsx:12-21 | the initial (and reset) draft can neither be launched nor sent for a description, and carries the house brand, the placeholder image, an empty note list and the Unisex category |
| `Admin.OrDefault` | src/components/AdminPanel.tsx:59-63 | `s \|\| fallback`: the string itself when non-empty, the fallback when empty |
| `Admin.NewProduct` | src/components/AdminPanel.tsx:56-66 | a launched product has the given id and `isNew`; the draft's name and (non-zero) price; brand defaulting to Noir Essence and image to the placeholder, both non-empty; the draft's description, category, and notes defaulting to `[]` |
| `Admin.NegativePriceIsAccepted` | src/components/AdminPanel.tsx:55-58 | every draft with a non-empty name and a negative price passes the truthiness guard, and the launched product carries that negative price |
| `Admin.DeleteProduct` | src/components/AdminPanel.tsx:27 | a product survives exactly when it was in the catalog with another id |
| `Admin.DeleteKeepsOrder` | src/components/AdminPanel.tsx:27 | the surviving products keep their catalog order |
| `Admin.DeleteAbsentIsNoOp` | src/components/AdminPanel.tsx:27 | deleting an id no product has changes nothing |
| `Admin.LaunchKeepsIdsUnique` | src/components/AdminPanel.tsx:56-67 | appending a product whose id is new keeps all catalog ids distinct |
| `Admin.DeleteKeepsIdsUnique` | src/components/AdminPanel.tsx:27 | a delete keeps all catalog ids distinct |
| `Admin.AddNote` | src/components/AdminPanel.tsx:31-39 | an empty input leaves the notes as they were; a non-empty one is appended at the end, starting `[input]` when there was no list |
| `Admin.RemoveUndoesAddNote` | src/components/AdminPanel.tsx:31-39 | adding a non-empty note and then removing the last position gives back the original list |
| `Admin.RemoveNote` | src/components/AdminPanel.tsx:160 | removing note idx deletes exactly that position, keeping the others in order; an unset list stays unset |
| `Admin.AdminPanel.constructor` | src/components/AdminPanel.tsx:12-22 | the form starts closed, with the initial draft and an empty note input |
| `Admin.AdminPanel.ToggleForm` | src/components/AdminPanel.tsx:82 | the form's open flag is flipped; the draft is kept |
| `Admin.AdminPanel.EditName` | src/components/AdminPanel.tsx:126 | the name field sets the draft's name; the rest of the draft, the form flag and the note input are unchanged |
| `Admin.AdminPanel.EditPrice` | src/components/AdminPanel.tsx:137 | the price field sets the draft's price to the number read (NaN when it is not one); everything else is unchanged |
| `Admin.AdminPanel.EditDescription` | src/components/AdminPanel.tsx:181 | the description field sets the draft's description; everything else is unchanged |
| `Admin.AdminPanel.EditCategory` | src/components/AdminPanel.tsx:192 | the category select sets the draft's category; everything else is unchanged |
| `Admin.AdminPanel.EditImage` | src/components/AdminPanel.tsx:205 | the image field sets the draft's image; everything else is unchanged |
| `Admin.AdminPanel.EditNoteInput` | src/components/AdminPanel.tsx:149 | typing sets the note input; nothing else changes |
| `Admin.AdminPanel.HandleDelete` | src/components/AdminPanel.tsx:25-29 | confirmed, the catalog loses every product with the id; refused, nothing changes; the cart is untouched |
| `Admin.AdminPanel.HandleAddNote` | src/components/AdminPanel.tsx:31-39 | the draft's notes become the add-note result and the input is empty afterwards; nothing else changes |
| `Admin.AdminPanel.HandleRemoveNote` | src/components/AdminPanel.tsx:160 | the draft's notes lose position idx; nothing else changes |
| `Admin.CanGenerate` | src/components/AdminPanel.tsx:42 | drafting is refused exactly when the name is empty, the note list is unset, or it is empty |
| `Admin.AdminPanel.HandleGenerateDescription` | src/components/AdminPanel.tsx:41-51 | refused exactly when the name is empty or there is no note, and then nothing changes; otherwise the service's text becomes the description |
| `Admin.AdminPanel.HandleSubmit` | src/components/AdminPanel.tsx:53-71 | with a non-empty name and a truthy price the catalog grows by exactly one product at the end, the form closes and the draft resets to the initial one; otherwise nothing changes; the note input and the cart are kept either way |

`Checkout.CheckoutScenario` walks one session through the class contracts:
two products added, one added again (2 lines, 3 items, subtotal 130), one
removed (1 line, 2 items, subtotal 100), the order submitted (cart empty,
confirmation shown).

## Left out

- The generative-text service and the chat widget: foreign API calls and
  asynchronous streaming. Description drafting takes the service's text as
  a parameter.
- Admin.AdminPanel.HandleGenerateDescription: does not model the
  `isGenerating` flag around the awaited call, nor that the handler writes
  back the draft captured before the await, which would discard edits made
  while the call was outstanding; this is asynchronous behaviour.
- All rendering, styling, animation and routing, including the mobile-menu
  flag and its link labels ("Admin Panel" / "Storefront").
- The static story and journal pages, the storefront's first-three slice and
  its rating display.
- `window.confirm` and `alert`: the confirmation is a boolean parameter and
  the refusal is the method's result.
- Id generation from the clock: the new id is a parameter.
- The seed catalog's contents: the initial catalog is a constructor parameter.
- Number formatting with `toFixed` and the admin's average price (a float
  division that is NaN on an empty catalog).
- Floating point: prices are unbounded whole-dollar integers, so rounding
  and the 2^53 precision limit of JavaScript numbers are not modelled.
- The cast of the draft's category: the form's select only offers the three
  categories, so the draft's category is the closed set.
