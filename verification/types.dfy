/** The storefront's entities: a catalog product and a cart line. */
module Types {

  datatype Option<T> = None | Some(value: T) {
    /** The value, or `default` when absent (the source's `x || default` on arrays). */
    function GetOr(default: T): T {
      if Some? then value else default
    }
  }

  /** The closed set of categories a product belongs to. */
  datatype Category = Men | Women | Unisex

  /** A sellable fragrance. Prices are whole dollars; the optional "new
      arrival" flag reads as false when absent. */
  datatype Product = Product(
    id: string,
    name: string,
    brand: string,
    price: int,
    description: string,
    notes: seq<string>,
    image: string,
    isNew: bool,
    category: Category)

  /** A cart line: the product's fields as captured when the line was
      created, plus a quantity. */
  datatype CartLine = CartLine(item: Product, quantity: int) {
    /** What the line costs: unit price times quantity. */
    function Amount(): (r: int)
      ensures item.price >= 0 && quantity >= 0 ==> r >= 0
      ensures quantity == 1 ==> r == item.price
    {
      item.price * quantity
    }
  }
}
