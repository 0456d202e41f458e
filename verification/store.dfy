/** The collection store: the four collections, each an ordered list of
    records that a handler reads whole and writes back whole. Files and
    JSON are not modelled; a collection whose file is missing or empty
    reads as the empty list, which is the store's initial state. */
module Store {
  import opened Records

  class Database {
    var users: seq<User>
    var products: seq<Product>
    var carts: seq<CartLine>
    var wishlists: seq<WishlistLine>

    /** A store in which nothing has been written yet. */
    constructor ()
      ensures users == [] && products == [] && carts == [] && wishlists == []
    {
      users, products, carts, wishlists := [], [], [], [];
    }
  }
}
