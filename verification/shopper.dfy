/** The shopper's handlers: cart, wishlist, purchase and product lookup.
    Each one reads the collections it needs, decides, and (when it changes
    anything) writes one collection back. */
module ShopperControl {
  import opened Lists
  import opened Records
  import opened Text
  import opened Store

  // ---------------------------------------------------------------- cart

  /** Position of the caller's line for `productId`, if any. */
  function CartLineIndex(carts: seq<CartLine>, userId: int, productId: int): (r: Option<nat>)
    ensures r.Some? ==> r.value < |carts| && carts[r.value].userId == userId && carts[r.value].productId == productId
    ensures r.Some? ==> forall j :: 0 <= j < r.value ==> carts[j].userId != userId || carts[j].productId != productId
    ensures r.None? <==> forall j :: 0 <= j < |carts| ==> carts[j].userId != userId || carts[j].productId != productId
  {
    FindIndex(carts, (l: CartLine) => l.userId == userId && l.productId == productId)
  }

  /** The cart after a successful add: a repeat add for the same shopper and
      product merges into that line; otherwise one line is appended with id
      `|carts| + 1`. */
  function AddedToCart(carts: seq<CartLine>, userId: int, productId: int, qty: int): (r: seq<CartLine>)
    ensures CartLineIndex(carts, userId, productId).Some? ==>
      var k := CartLineIndex(carts, userId, productId).value;
      && |r| == |carts|
      && r[k] == carts[k].(quantity := carts[k].quantity + qty)
      && forall j :: 0 <= j < |r| && j != k ==> r[j] == carts[j]
    ensures CartLineIndex(carts, userId, productId).None? ==>
      && |r| == |carts| + 1
      && r[..|carts|] == carts
      && r[|carts|] == CartLine(|carts| + 1, userId, productId, qty)
    ensures qty > 0 && (forall i :: 0 <= i < |carts| ==> carts[i].quantity > 0) ==>
      forall i :: 0 <= i < |r| ==> r[i].quantity > 0
  {
    match CartLineIndex(carts, userId, productId)
    case Some(k) => carts[k := carts[k].(quantity := carts[k].quantity + qty)]
    case None => carts + [CartLine(|carts| + 1, userId, productId, qty)]
  }

  /** At most one line per (shopper, product) pair. */
  predicate OneLinePerProduct(carts: seq<CartLine>)
  {
    forall i, j :: 0 <= i < j < |carts| ==>
      carts[i].userId != carts[j].userId || carts[i].productId != carts[j].productId
  }

  /** Adding never creates a second line for the same shopper and product. */
  lemma AddKeepsOneLinePerProduct(carts: seq<CartLine>, userId: int, productId: int, qty: int)
    requires OneLinePerProduct(carts)
    ensures OneLinePerProduct(AddedToCart(carts, userId, productId, qty))
  {
    var r := AddedToCart(carts, userId, productId, qty);
    if CartLineIndex(carts, userId, productId).None? {
      forall i, j | 0 <= i < j < |r|
        ensures r[i].userId != r[j].userId || r[i].productId != r[j].productId
      {
        if j == |carts| {
          assert r[i] == carts[i];
        } else {
          assert r[i] == carts[i] && r[j] == carts[j];
        }
      }
    }
  }

  /** Two adds of the same product by a shopper who has no line for it yield
      one line holding the sum, not two lines. */
  lemma AddTwiceMerges(carts: seq<CartLine>, userId: int, productId: int, a: int, b: int)
    requires CartLineIndex(carts, userId, productId).None?
    ensures AddedToCart(AddedToCart(carts, userId, productId, a), userId, productId, b)
            == carts + [CartLine(|carts| + 1, userId, productId, a + b)]
  {
    var once := AddedToCart(carts, userId, productId, a);
    assert once == carts + [CartLine(|carts| + 1, userId, productId, a)];
    assert CartLineIndex(once, userId, productId) == Some(|carts|);
  }

  /** `addToCart`: the product id and the quantity must be numbers and the
      quantity positive; the product must exist and hold at least `qty` in
      stock (the merged total is not checked against stock). Carts is only
      written on success. */
  method AddToCart(db: Database, userId: int, idProduct: Option<int>, qty: Option<int>) returns (r: Result<()>)
    modifies db`carts
    ensures idProduct.None? || qty.None? || qty.value <= 0 ==> r == Err(InvalidInput)
    ensures r.Err? ==> db.carts == old(db.carts)
    ensures idProduct.Some? && qty.Some? && qty.value > 0 ==>
      match ProductIndex(db.products, idProduct.value)
      case None => r == Err(NotFound)
      case Some(i) =>
        if db.products[i].quantity < qty.value then r == Err(InsufficientStock)
        else r == Ok(()) && db.carts == AddedToCart(old(db.carts), userId, idProduct.value, qty.value)
  {
    if idProduct.None? || qty.None? || qty.value <= 0 {
      return Err(InvalidInput);
    }
    var productId, q := idProduct.value, qty.value;
    var i := ProductIndex(db.products, productId);
    if i.None? {
      return Err(NotFound);
    }
    if db.products[i.value].quantity < q {
      return Err(InsufficientStock);
    }
    var k := CartLineIndex(db.carts, userId, productId);
    if k.Some? {
      var line := db.carts[k.value];
      db.carts := db.carts[k.value := line.(quantity := line.quantity + q)];
    } else {
      db.carts := db.carts + [CartLine(|db.carts| + 1, userId, productId, q)];
    }
    r := Ok(());
  }

  /** The cart without the lines whose id is `lineId` AND whose owner is
      `userId`. */
  function CartWithout(carts: seq<CartLine>, lineId: int, userId: int): (r: seq<CartLine>)
    ensures forall i :: 0 <= i < |r| ==> r[i] in carts && (r[i].id != lineId || r[i].userId != userId)
    ensures forall i :: 0 <= i < |carts| && (carts[i].id != lineId || carts[i].userId != userId) ==> carts[i] in r
    ensures forall i :: 0 <= i < |carts| && (carts[i].id != lineId || carts[i].userId != userId) ==>
      multiset(r)[carts[i]] == multiset(carts)[carts[i]]
    ensures IsSubsequence(r, carts)
    ensures (forall i :: 0 <= i < |carts| ==> carts[i].quantity > 0) ==>
      forall i :: 0 <= i < |r| ==> r[i].quantity > 0
  {
    Filter(carts, (l: CartLine) => l.id != lineId || l.userId != userId)
  }

  /** A wrong line id or a wrong owner is not an error: the cart comes back
      identical. */
  lemma RemoveMismatchKeepsCart(carts: seq<CartLine>, lineId: int, userId: int)
    requires forall i :: 0 <= i < |carts| ==> carts[i].id != lineId || carts[i].userId != userId
    ensures CartWithout(carts, lineId, userId) == carts
  {
    FilterKeepsAll(carts, (l: CartLine) => l.id != lineId || l.userId != userId);
  }

  /** Removal acts on each part of the cart separately, so the survivors keep
      their relative order. */
  lemma CartWithoutConcat(a: seq<CartLine>, b: seq<CartLine>, lineId: int, userId: int)
    ensures CartWithout(a + b, lineId, userId) == CartWithout(a, lineId, userId) + CartWithout(b, lineId, userId)
  {
    FilterConcat(a, b, (l: CartLine) => l.id != lineId || l.userId != userId);
  }

  /** Removal keeps `OneLinePerProduct`. */
  lemma RemoveKeepsOneLinePerProduct(carts: seq<CartLine>, lineId: int, userId: int)
    requires OneLinePerProduct(carts)
    ensures OneLinePerProduct(CartWithout(carts, lineId, userId))
  {
    SubsequenceKeepsOneLinePerProduct(CartWithout(carts, lineId, userId), carts);
  }

  lemma {:induction false} SubsequenceKeepsOneLinePerProduct(r: seq<CartLine>, s: seq<CartLine>)
    requires IsSubsequence(r, s) && OneLinePerProduct(s)
    ensures OneLinePerProduct(r)
  {
    if r != [] && s != [] {
      assert OneLinePerProduct(s[1..]) by {
        forall i, j | 0 <= i < j < |s[1..]|
          ensures s[1..][i].userId != s[1..][j].userId || s[1..][i].productId != s[1..][j].productId
        {
          assert s[1..][i] == s[i + 1] && s[1..][j] == s[j + 1];
        }
      }
      if r[0] == s[0] {
        SubsequenceKeepsOneLinePerProduct(r[1..], s[1..]);
        SubsequenceMembers(r[1..], s[1..]);
        forall i, j | 0 <= i < j < |r|
          ensures r[i].userId != r[j].userId || r[i].productId != r[j].productId
        {
          if i > 0 {
            assert r[i] == r[1..][i - 1] && r[j] == r[1..][j - 1];
          } else {
            assert r[j] == r[1..][j - 1];
            var m :| 0 <= m < |s[1..]| && s[1..][m] == r[j];
            assert s[m + 1] == r[j];
          }
        }
      } else {
        SubsequenceKeepsOneLinePerProduct(r, s[1..]);
      }
    }
  }

  lemma {:induction false} SubsequenceMembers<T>(r: seq<T>, s: seq<T>)
    requires IsSubsequence(r, s)
    ensures forall i :: 0 <= i < |r| ==> exists m :: 0 <= m < |s| && s[m] == r[i]
  {
    if r != [] && s != [] {
      if r[0] == s[0] {
        SubsequenceMembers(r[1..], s[1..]);
        forall i | 0 < i < |r| ensures exists m :: 0 <= m < |s| && s[m] == r[i] {
          assert r[i] == r[1..][i - 1];
          var m :| 0 <= m < |s[1..]| && s[1..][m] == r[1..][i - 1];
          assert s[m + 1] == r[i];
        }
        assert s[0] == r[0];
      } else {
        SubsequenceMembers(r, s[1..]);
        forall i | 0 <= i < |r| ensures exists m :: 0 <= m < |s| && s[m] == r[i] {
          var m :| 0 <= m < |s[1..]| && s[1..][m] == r[i];
          assert s[m + 1] == r[i];
        }
      }
    }
  }

  /** `removeFromCart`: always succeeds; Carts is written back filtered. */
  method RemoveFromCart(db: Database, lineId: int, userId: int) returns (r: Result<()>)
    modifies db`carts
    ensures r == Ok(())
    ensures db.carts == CartWithout(old(db.carts), lineId, userId)
  {
    db.carts := CartWithout(db.carts, lineId, userId);
    r := Ok(());
  }

  /** The product fields a cart view shows. */
  datatype CartProduct = CartProduct(id: int, title: string, price: int, image: string, quantity: int)

  /** One line of `getCart`: the stored line, joined with its product and a
      total when the product still exists, bare otherwise. */
  datatype CartEntry = CartEntry(line: CartLine, product: Option<CartProduct>, totalPrice: Option<int>)

  /** The caller's lines, in stored order. */
  function OwnCartLines(carts: seq<CartLine>, userId: int): (r: seq<CartLine>)
    ensures forall i :: 0 <= i < |r| ==> r[i] in carts && r[i].userId == userId
    ensures forall i :: 0 <= i < |carts| && carts[i].userId == userId ==> carts[i] in r
    ensures forall i :: 0 <= i < |carts| && carts[i].userId == userId ==>
      multiset(r)[carts[i]] == multiset(carts)[carts[i]]
    ensures IsSubsequence(r, carts)
  {
    Filter(carts, (l: CartLine) => l.userId == userId)
  }

  function JoinCartLine(line: CartLine, products: seq<Product>): CartEntry
  {
    match ProductIndex(products, line.productId)
    case None => CartEntry(line, None, None)
    case Some(k) =>
      var p := products[k];
      CartEntry(line, Some(CartProduct(p.id, p.title, p.price, p.image, p.quantity)), Some(p.price * line.quantity))
  }

  /** `getCart`: one entry per caller's line, in order, joined with the
      current product; the total is price times the line's quantity, computed
      at read time. A line whose product is gone stays, without product and
      total. */
  function GetCart(carts: seq<CartLine>, products: seq<Product>, userId: int): (r: seq<CartEntry>)
    ensures |r| == |OwnCartLines(carts, userId)|
    ensures forall i :: 0 <= i < |r| ==> r[i].line == OwnCartLines(carts, userId)[i] && r[i].line.userId == userId
    ensures forall i :: 0 <= i < |r| ==>
      (r[i].product.Some? <==> ProductIndex(products, r[i].line.productId).Some?)
    ensures forall i :: 0 <= i < |r| && r[i].product.Some? ==>
      var p := products[ProductIndex(products, r[i].line.productId).value];
      && r[i].product.value == CartProduct(p.id, p.title, p.price, p.image, p.quantity)
      && r[i].product.value.id == r[i].line.productId
      && r[i].totalPrice == Some(p.price * r[i].line.quantity)
    ensures forall i :: 0 <= i < |r| && r[i].product.None? ==> r[i].totalPrice.None?
  {
    var own := OwnCartLines(carts, userId);
    seq(|own|, i requires 0 <= i < |own| => JoinCartLine(own[i], products))
  }

  // ------------------------------------------------------------ wishlist

  /** The wishlist after `addToWishlist`: one line appended with id
      `|wishlists| + 1`, whether or not the pair is already present. */
  function WishlistAppended(wishlists: seq<WishlistLine>, userId: int, productId: int): (r: seq<WishlistLine>)
    ensures |r| == |wishlists| + 1 && r[..|wishlists|] == wishlists
    ensures r[|wishlists|] == WishlistLine(|wishlists| + 1, userId, productId)
  {
    wishlists + [WishlistLine(|wishlists| + 1, userId, productId)]
  }

  /** The wishlist lines for one (shopper, product) pair. */
  function PairLines(wishlists: seq<WishlistLine>, userId: int, productId: int): seq<WishlistLine>
  {
    Filter(wishlists, (l: WishlistLine) => l.userId == userId && l.productId == productId)
  }

  /** Nothing stops a pair from being added twice: each add contributes one
      more line for the pair. */
  lemma AddToWishlistAllowsDuplicates(wishlists: seq<WishlistLine>, userId: int, productId: int)
    ensures |PairLines(WishlistAppended(wishlists, userId, productId), userId, productId)|
            == |PairLines(wishlists, userId, productId)| + 1
  {
    var p := (l: WishlistLine) => l.userId == userId && l.productId == productId;
    FilterConcat(wishlists, [WishlistLine(|wishlists| + 1, userId, productId)], p);
  }

  /** `addToWishlist`: always appends; the new line is returned. */
  method AddToWishlist(db: Database, userId: int, productId: int) returns (item: WishlistLine)
    modifies db`wishlists
    ensures item == WishlistLine(|old(db.wishlists)| + 1, userId, productId)
    ensures db.wishlists == WishlistAppended(old(db.wishlists), userId, productId)
  {
    item := WishlistLine(|db.wishlists| + 1, userId, productId);
    db.wishlists := db.wishlists + [item];
  }

  /** Position of the first line for the pair. */
  function WishlistIndex(wishlists: seq<WishlistLine>, userId: int, productId: int): (r: Option<nat>)
    ensures r.Some? ==> r.value < |wishlists| && wishlists[r.value].userId == userId && wishlists[r.value].productId == productId
    ensures r.Some? ==> forall j :: 0 <= j < r.value ==> wishlists[j].userId != userId || wishlists[j].productId != productId
    ensures r.None? <==> forall j :: 0 <= j < |wishlists| ==> wishlists[j].userId != userId || wishlists[j].productId != productId
  {
    FindIndex(wishlists, (l: WishlistLine) => l.productId == productId && l.userId == userId)
  }

  /** Identifier compaction: every line's id becomes its position plus one,
      nothing else changes. */
  function CompactedWishlist(wishlists: seq<WishlistLine>): (r: seq<WishlistLine>)
    ensures |r| == |wishlists|
    ensures forall i :: 0 <= i < |r| ==> r[i].id == i + 1
    ensures forall i :: 0 <= i < |r| ==> r[i].userId == wishlists[i].userId && r[i].productId == wishlists[i].productId
  {
    seq(|wishlists|, i requires 0 <= i < |wishlists| => wishlists[i].(id := i + 1))
  }

  /** `removeFromWishlist`: the first line for the pair is cut out and every
      remaining line is renumbered; with no such line the answer is NotFound
      and nothing is written. */
  method RemoveFromWishlist(db: Database, userId: int, productId: int) returns (r: Result<()>)
    modifies db`wishlists
    ensures WishlistIndex(old(db.wishlists), userId, productId).None? ==>
      r == Err(NotFound) && db.wishlists == old(db.wishlists)
    ensures WishlistIndex(old(db.wishlists), userId, productId).Some? ==>
      r == Ok(()) &&
      db.wishlists == CompactedWishlist(RemoveAt(old(db.wishlists), WishlistIndex(old(db.wishlists), userId, productId).value))
  {
    var k := WishlistIndex(db.wishlists, userId, productId);
    if k.None? {
      return Err(NotFound);
    }
    db.wishlists := RemoveAt(db.wishlists, k.value);
    db.wishlists := CompactedWishlist(db.wishlists);
    r := Ok(());
  }

  /** After a removal the list is one shorter, ids run 1..n, and the lines
      before and after the removed one are the old ones in order. */
  lemma WishlistRemovalShape(wishlists: seq<WishlistLine>, k: nat)
    requires k < |wishlists|
    ensures var r := CompactedWishlist(RemoveAt(wishlists, k));
      && |r| == |wishlists| - 1
      && (forall i :: 0 <= i < |r| ==> r[i].id == i + 1)
      && (forall i :: 0 <= i < k ==> r[i] == wishlists[i].(id := i + 1))
      && (forall i :: k <= i < |r| ==> r[i] == wishlists[i + 1].(id := i + 1))
  {
  }

  /** The product fields a wishlist view shows. */
  datatype WishlistProduct = WishlistProduct(id: int, title: string, price: int, image: string)

  datatype WishlistEntry = WishlistEntry(line: WishlistLine, product: Option<WishlistProduct>)

  function OwnWishlistLines(wishlists: seq<WishlistLine>, userId: int): (r: seq<WishlistLine>)
    ensures forall i :: 0 <= i < |r| ==> r[i] in wishlists && r[i].userId == userId
    ensures forall i :: 0 <= i < |wishlists| && wishlists[i].userId == userId ==> wishlists[i] in r
    ensures forall i :: 0 <= i < |wishlists| && wishlists[i].userId == userId ==>
      multiset(r)[wishlists[i]] == multiset(wishlists)[wishlists[i]]
    ensures IsSubsequence(r, wishlists)
  {
    Filter(wishlists, (l: WishlistLine) => l.userId == userId)
  }

  function JoinWishlistLine(line: WishlistLine, products: seq<Product>): WishlistEntry
  {
    match ProductIndex(products, line.productId)
    case None => WishlistEntry(line, None)
    case Some(k) =>
      var p := products[k];
      WishlistEntry(line, Some(WishlistProduct(p.id, p.title, p.price, p.image)))
  }

  /** `getWishlist`: the caller's lines in order, each with its product or
      with a null product once the product is gone. */
  function GetWishlist(wishlists: seq<WishlistLine>, products: seq<Product>, userId: int): (r: seq<WishlistEntry>)
    ensures |r| == |OwnWishlistLines(wishlists, userId)|
    ensures forall i :: 0 <= i < |r| ==> r[i].line == OwnWishlistLines(wishlists, userId)[i] && r[i].line.userId == userId
    ensures forall i :: 0 <= i < |r| ==>
      (r[i].product.Some? <==> ProductIndex(products, r[i].line.productId).Some?)
    ensures forall i :: 0 <= i < |r| && r[i].product.Some? ==>
      var p := products[ProductIndex(products, r[i].line.productId).value];
      r[i].product.value == WishlistProduct(p.id, p.title, p.price, p.image)
  {
    var own := OwnWishlistLines(wishlists, userId);
    seq(|own|, i requires 0 <= i < |own| => JoinWishlistLine(own[i], products))
  }

  // ------------------------------------------------------- stock ledger

  /** A product after a purchase of `q`: stock goes down by `q` and is
      clamped at zero; every other field is kept. */
  function Purchased(p: Product, q: int): (r: Product)
    ensures r.quantity >= 0
    ensures p.quantity - q > 0 ==> r.quantity == p.quantity - q
    ensures p.quantity - q <= 0 ==> r.quantity == 0
    ensures r == p.(quantity := r.quantity)
  {
    var left := p.quantity - q;
    p.(quantity := if left <= 0 then 0 else left)
  }

  /** `buyProduct`: NotFound for an unknown id, InsufficientStock when the
      stock is below `quantity` (Products untouched in both cases); otherwise
      that product's stock is decremented and clamped, and no other product
      changes. */
  method BuyProduct(db: Database, productId: int, quantity: int) returns (r: Result<Product>)
    modifies db`products
    ensures ProductIndex(old(db.products), productId).None? ==>
      r == Err(NotFound) && db.products == old(db.products)
    ensures ProductIndex(old(db.products), productId).Some? ==>
      var i := ProductIndex(old(db.products), productId).value;
      if old(db.products)[i].quantity < quantity then
        r == Err(InsufficientStock) && db.products == old(db.products)
      else
        r == Ok(Purchased(old(db.products)[i], quantity)) && db.products == old(db.products)[i := r.value]
    ensures StockNonNegative(old(db.products)) ==> StockNonNegative(db.products)
  {
    var i := ProductIndex(db.products, productId);
    if i.None? {
      return Err(NotFound);
    }
    var product := db.products[i.value];
    if product.quantity < quantity {
      return Err(InsufficientStock);
    }
    product := Purchased(product, quantity);
    db.products := db.products[i.value := product];
    r := Ok(product);
  }

  // -------------------------------------------------------------- lookup

  /** `getProduct`: the first product with the id (an earlier product never
      has it), or NotFound. */
  function GetProduct(products: seq<Product>, id: int): (r: Result<Product>)
    ensures r.Err? <==> forall j :: 0 <= j < |products| ==> products[j].id != id
    ensures r.Err? ==> r.failure == NotFound
    ensures r.Ok? ==> r.value in products && r.value.id == id
    ensures r.Ok? ==>
      exists k ::
        && 0 <= k < |products|
        && products[k] == r.value
        && forall j :: 0 <= j < k ==> products[j].id != id
  {
    match ProductIndex(products, id)
    case None => Err(NotFound)
    case Some(k) => Ok(products[k])
  }

  predicate InCategory(p: Product, category: string)
  {
    Lower(p.category) == Lower(category)
  }

  /** `getProductsByCategory`: the products whose category equals the request
      ignoring case, in order; NotFound when there are none. */
  function ProductsByCategory(products: seq<Product>, category: string): (r: Result<seq<Product>>)
    ensures r.Err? <==> forall j :: 0 <= j < |products| ==> !InCategory(products[j], category)
    ensures r.Err? ==> r.failure == NotFound
    ensures r.Ok? ==> r.value != []
    ensures r.Ok? ==> forall i :: 0 <= i < |r.value| ==> r.value[i] in products && InCategory(r.value[i], category)
    ensures r.Ok? ==> forall j :: 0 <= j < |products| && InCategory(products[j], category) ==> products[j] in r.value
    ensures r.Ok? ==> forall j :: 0 <= j < |products| && InCategory(products[j], category) ==>
      multiset(r.value)[products[j]] == multiset(products)[products[j]]
    ensures r.Ok? ==> IsSubsequence(r.value, products)
  {
    var found := Filter(products, (p: Product) => InCategory(p, category));
    if |found| == 0 then Err(NotFound) else Ok(found)
  }

  /** The case of the requested category does not matter. */
  lemma CategoryIgnoresCase(products: seq<Product>, category: string)
    ensures ProductsByCategory(products, Lower(category)) == ProductsByCategory(products, category)
  {
    LowerIdempotent(category);
    FilterCongruent(products, (p: Product) => InCategory(p, Lower(category)), (p: Product) => InCategory(p, category));
  }

  /** The purchase scenario: a product with stock 5 and price 10; adding 3 to
      the cart gives one line costing 30; buying 3 leaves 2; buying 5 then
      fails and leaves 2. */
  method PurchaseScenario(shopper: int)
  {
    var db := new Database();
    var item := Product(1, 7, "Lamp", 10, "", "home", "", Rating(0, 0), 5);
    db.products := [item];
    var added := AddToCart(db, shopper, Some(1), Some(3));
    assert ProductIndex(db.products, 1) == Some(0);
    assert added == Ok(()) && db.carts == [CartLine(1, shopper, 1, 3)];
    var view := GetCart(db.carts, db.products, shopper);
    assert OwnCartLines(db.carts, shopper) == [CartLine(1, shopper, 1, 3)];
    assert |view| == 1 && view[0].totalPrice == Some(30);
    var bought := BuyProduct(db, 1, 3);
    assert bought.Ok? && db.products[0].quantity == 2;
    var again := BuyProduct(db, 1, 5);
    assert ProductIndex(db.products, 1) == Some(0);
    assert again == Err(InsufficientStock) && db.products[0].quantity == 2;
  }
}
