/** The records the marketplace keeps (users, products, cart lines, wishlist
    lines), the shapes the browser caches, the error kinds a request can end
    with, and the JavaScript truthiness checks the handlers apply to request
    fields. */
module Records {
  import opened Lists

  datatype Rating = Rating(rate: int, count: int)

  /** A catalogue entry. Prices are whole cents. */
  datatype Product = Product(
    id: int, sellerId: int, title: string, price: int, description: string,
    category: string, image: string, rating: Rating, quantity: int)

  /** An account; `password` holds the digest, never the plaintext. */
  datatype User = User(id: int, username: string, email: string, password: string, role: string)

  datatype CartLine = CartLine(id: int, userId: int, productId: int, quantity: int)

  datatype WishlistLine = WishlistLine(id: int, userId: int, productId: int)

  const ShopperRole: string := "shopper"
  const AdminRole: string := "admin"

  /** The error kinds a handler answers with instead of a success. */
  datatype Failure = InvalidInput | NotFound | InsufficientStock | EmailTaken

  datatype Result<T> = Ok(value: T) | Err(failure: Failure)

  /** A request field is `None` when it is absent (or, for a numeric field,
      not a JavaScript number). A string is truthy when present and
      non-empty, a number when present and non-zero. */
  predicate Truthy(v: Option<string>)
  {
    v.Some? && v.value != ""
  }

  predicate TruthyNumber(v: Option<int>)
  {
    v.Some? && v.value != 0
  }

  /** `v || fallback` for a string field: the value when it is truthy,
      otherwise the fallback; the result is empty only when both are. */
  function OrElse(v: Option<string>, fallback: string): (r: string)
    ensures Truthy(v) ==> r == v.value
    ensures !Truthy(v) ==> r == fallback
    ensures r == "" <==> !Truthy(v) && fallback == ""
  {
    if Truthy(v) then v.value else fallback
  }

  /** `message || null`: an absent or empty message records no error. */
  function OrNull(message: Option<string>): (r: Option<string>)
    ensures r.Some? <==> Truthy(message)
    ensures r.Some? ==> r == message
  {
    if Truthy(message) then message else None
  }

  /** Position of the first product with the given id
      (`products.find(p => p.id === id)`). */
  function ProductIndex(products: seq<Product>, id: int): (r: Option<nat>)
    ensures r.Some? ==> r.value < |products| && products[r.value].id == id
    ensures r.Some? ==> forall j :: 0 <= j < r.value ==> products[j].id != id
    ensures r.None? <==> forall j :: 0 <= j < |products| ==> products[j].id != id
  {
    FindIndex(products, (p: Product) => p.id == id)
  }

  /** Position of the first user with the given id. */
  function UserIndex(users: seq<User>, id: int): (r: Option<nat>)
    ensures r.Some? ==> r.value < |users| && users[r.value].id == id
    ensures r.Some? ==> forall j :: 0 <= j < r.value ==> users[j].id != id
    ensures r.None? <==> forall j :: 0 <= j < |users| ==> users[j].id != id
  {
    FindIndex(users, (u: User) => u.id == id)
  }

  /** No product holds negative stock. */
  predicate StockNonNegative(products: seq<Product>)
  {
    forall i :: 0 <= i < |products| ==> products[i].quantity >= 0
  }

  // The shapes the browser keeps in its store.

  /** A cart entry as cached by the browser (the nested product snapshot is
      not read by any reducer and is left out). */
  datatype CartItem = CartItem(id: int, productId: int, quantity: int, totalPrice: int)

  datatype WishlistItem = WishlistItem(id: int, productId: int)

  /** A user as the admin screen holds it: no password field. */
  datatype Account = Account(id: int, username: string, email: string, role: string)

  /** The request status every slice keeps. */
  datatype Status = Idle | Loading | Succeeded | Failed
}
