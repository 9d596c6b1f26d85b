/** The collection page's category tabs and the product list they select. */
module Collection {
  import opened Types
  import opened Seqs

  /** The active tab: everything, or one category. */
  datatype Tab = All | Only(category: Category)

  /** The tabs, in the order they are drawn. */
  const Tabs: seq<Tab> := [All, Only(Women), Only(Men), Only(Unisex)]

  /** `filteredProducts`: the whole list for `All`, otherwise the products of
      the chosen category. */
  function FilteredProducts(products: seq<Product>, active: Tab): (r: seq<Product>)
    ensures active == All ==> r == products
    ensures active.Only? ==> forall p :: p in r <==> p in products && p.category == active.category
    ensures |r| <= |products|
  {
    match active
    case All => products
    case Only(c) => Filter(products, (p: Product) => p.category == c)
  }

  /** The filtered list keeps the products in catalog order. */
  lemma FilteredKeepsOrder(products: seq<Product>, active: Tab)
    ensures IsSubsequence(FilteredProducts(products, active), products)
  {
    match active
    case All => SubsequenceOfItself(products);
    case Only(c) => FilterIsSubsequence(products, (p: Product) => p.category == c);
  }

  /** Selecting the same tab twice gives what selecting it once gives. */
  lemma FilteredIdempotent(products: seq<Product>, active: Tab)
    ensures FilteredProducts(FilteredProducts(products, active), active) == FilteredProducts(products, active)
  {
    match active
    case All =>
    case Only(c) => FilterIdempotent(products, (p: Product) => p.category == c);
  }

  /** Every tab value is drawn, and each exactly once. */
  lemma TabsAreEveryTabOnce(t: Tab)
    ensures t in Tabs
    ensures forall i, j :: 0 <= i < j < |Tabs| ==> Tabs[i] != Tabs[j]
  {
    match t
    case All => assert Tabs[0] == t;
    case Only(Women) => assert Tabs[1] == t;
    case Only(Men) => assert Tabs[2] == t;
    case Only(Unisex) => assert Tabs[3] == t;
  }
}
