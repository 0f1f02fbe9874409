/**
 * The cart as the pages see it. The cart store itself (`components/cart-provider`)
 * is not part of this model: only the shapes the pages exchange with it, and the
 * subtotal as the store's interface defines it, sum of price times quantity.
 * Money is in integer cents.
 */
module Cart {

  /** The record a product page hands to `addToCart`. */
  datatype CartItem = CartItem(id: nat, name: string, price: nat, image: string)

  /** One line of `cartItems`, as the checkout page reads it. */
  datatype CartLine = CartLine(id: nat, name: string, price: nat, image: string, quantity: nat)

  function LineAmount(line: CartLine): nat
  {
    line.price * line.quantity
  }

  /** The store's `subtotal`: the sum of price times quantity over all lines. */
  function Subtotal(lines: seq<CartLine>): nat
  {
    if lines == [] then 0 else LineAmount(lines[0]) + Subtotal(lines[1..])
  }
}
