/**
 * The rows of the canonical store (package models). gorm's embedded Model contributes
 * the id; its timestamps and soft-delete column are not modelled.
 */
module Models {
  /** A products row: its id, its name and its price in the smallest currency unit. */
  datatype Product = Product(id: nat, name: string, price: int)

  /** A customers row; password holds the password hash, never the password. */
  datatype Customer = Customer(id: nat, email: string, password: string, name: string)

  /** A cart_items row: how many of a product one customer has in the cart. */
  datatype CartLine = CartLine(customerId: int, productId: int, quantity: int)

  /** A cart item as GetCartItems hands it out, with its Product association preloaded. */
  datatype CartItem = CartItem(line: CartLine, product: Product)

  /** The zero Product, which a preload leaves in place when no product has the line's id. */
  const NoProduct := Product(0, "", 0)
}

/** The GraphQL records the resolvers return (package model, generated). */
module GraphModel {
  /** A product as the API shows it: the id is decimal text. */
  datatype Product = Product(id: string, name: string, price: int)

  datatype ProductInCart = ProductInCart(product: Product, quantity: int)

  datatype Cart = Cart(products: seq<ProductInCart>)

  /** The addToCart mutation's input. */
  datatype AddToCard = AddToCard(productId: string, quantity: int)
}
