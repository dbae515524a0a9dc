/** The records of the storefront (src/types/types.ts). Prices are integer cents. */
module Types {
  import opened Wrappers

  datatype Rating = Rating(rate: int, count: int)

  /** Rating given to a record that has none. */
  const NoRating := Rating(0, 0)

  datatype Product = Product(
    id: string,
    title: string,
    price: int,
    description: string,
    category: string,
    image: string,
    rating: Option<Rating>)

  /** A cart line: the product fields plus a quantity. */
  datatype CartItem = CartItem(product: Product, quantity: int) {
    function Id(): string { product.id }
  }

  /** A product as submitted by a form: no id, optional rating. */
  datatype ProductInput = ProductInput(
    title: string,
    price: int,
    description: string,
    category: string,
    image: string,
    rating: Option<Rating>)

  /** A signed-in principal as the identity service reports it. */
  datatype User = User(uid: string, email: Option<string>)

  /** Timestamps are opaque instants; `None` stands for a missing or pending one. */
  datatype UserProfile = UserProfile(
    uid: string,
    email: string,
    name: string,
    address: string,
    createdAt: Option<int>,
    updatedAt: Option<int>)

  datatype Order = Order(
    id: string,
    userId: string,
    userEmail: Option<string>,
    userName: Option<string>,
    shippingAddress: Option<string>,
    items: seq<CartItem>,
    total: int)

  function Max(a: int, b: int): int {
    if a < b then b else a
  }

  /** `Math.max(1, Number(q) || 1)`, where `n` is `Number(q)` and `None` is NaN.
      A positive number is kept; NaN, zero and negatives become 1. */
  function QuantityFrom(n: Option<int>): (q: int)
    ensures q >= 1
    ensures n.Some? && n.value >= 1 ==> q == n.value
    ensures n.None? || n.value < 1 ==> q == 1
  {
    match n
    case None => 1
    case Some(k) => Max(1, if k == 0 then 1 else k)
  }
}
