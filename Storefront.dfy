/**
  The records the storefront passes between its views. Prices are exact
  decimals (`real`), not binary floating point.
 */
module Storefront {

  datatype Option<T> = None | Some(value: T)

  /** A catalog entry as the product source delivers it (image and rating are not modelled). */
  datatype Product = Product(id: int, title: string, price: real, category: string)

  /** A line of the cart: a copy of the product's fields and how many of it are wanted. */
  datatype CartItem = CartItem(id: int, title: string, price: real, category: string, quantity: int)

  /**
    The cart store's callbacks, as the calls the components make. The store
    itself is not part of this model: a view returns the call it would make,
    with the arguments it computed, and nothing is said about its effect.
   */
  datatype CartAction =
    | AddToCart(product: Product)
    | UpdateQuantity(id: int, quantity: int)
    | RemoveFromCart(id: int)
    | ClearCart

  /** Assumed of the store: every line holds at least one unit. */
  predicate AllQuantitiesPositive(items: seq<CartItem>) {
    forall i :: 0 <= i < |items| ==> items[i].quantity >= 1
  }

  /** Assumed of the store: at most one line per product id. */
  predicate UniqueIds(items: seq<CartItem>) {
    forall i, j :: 0 <= i < j < |items| ==> items[i].id != items[j].id
  }
}
