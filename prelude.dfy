/** Small shared vocabulary: optional values and the outcomes of UI handlers. */
module Prelude {

  /** A value that may be absent (`undefined` or `null` in the storefront's records). */
  datatype Option<+T> = None | Some(value: T)

  /**
   * What a handler asks of the outside world besides the state it owns:
   * a router navigation, a browser alert, or a request to the cart store,
   * whose internals are not part of this model.
   */
  datatype Effect =
    | Navigate(route: string)
    | Alert(message: string)
    | AddToCart(id: string, name: string, price: real, image: Option<string>)
    | UpdateQuantity(id: string, quantity: int)
    | RemoveFromCart(id: string)
}
