/** The seller's catalogue handlers. Update and delete act only on a product
    that matches both the id and the seller; ids are never renumbered. */
module SellerControl {
  import opened Lists
  import opened Records
  import opened Store

  /** Position of the first product with this id owned by this seller. */
  function OwnedIndex(products: seq<Product>, id: int, sellerId: int): (r: Option<nat>)
    ensures r.Some? ==> r.value < |products| && products[r.value].id == id && products[r.value].sellerId == sellerId
    ensures r.Some? ==> forall j :: 0 <= j < r.value ==> products[j].id != id || products[j].sellerId != sellerId
    ensures r.None? <==> forall j :: 0 <= j < |products| ==> products[j].id != id || products[j].sellerId != sellerId
  {
    FindIndex(products, (p: Product) => p.id == id && p.sellerId == sellerId)
  }

  /** `addProduct`: title, price, category and seller id must be truthy;
      the new product gets id `|products| + 1`, the seller's id and a zero
      rating, and is appended. */
  method AddProduct(db: Database, sellerId: Option<int>, title: Option<string>, price: Option<int>,
                    description: string, category: Option<string>, image: string, quantity: int)
    returns (r: Result<Product>)
    modifies db`products
    ensures !(Truthy(title) && TruthyNumber(price) && Truthy(category) && sellerId.Some?) ==>
      r == Err(InvalidInput) && db.products == old(db.products)
    ensures Truthy(title) && TruthyNumber(price) && Truthy(category) && sellerId.Some? ==>
      && r == Ok(Product(|old(db.products)| + 1, sellerId.value, title.value, price.value, description,
                         category.value, image, Rating(0, 0), quantity))
      && db.products == old(db.products) + [r.value]
  {
    if !Truthy(title) || !TruthyNumber(price) || !Truthy(category) || sellerId.None? {
      return Err(InvalidInput);
    }
    var product := Product(|db.products| + 1, sellerId.value, title.value, price.value, description,
                           category.value, image, Rating(0, 0), quantity);
    db.products := db.products + [product];
    r := Ok(product);
  }

  /** The fields a seller may send to `updateProduct`; `None` means not sent. */
  datatype ProductPatch = ProductPatch(
    title: Option<string>, price: Option<int>, description: Option<string>,
    category: Option<string>, image: Option<string>, quantity: Option<int>)

  const NoChange: ProductPatch := ProductPatch(None, None, None, None, None, None)

  /** A product after a patch: title, description, category and image are
      replaced only by a truthy value, price and quantity by any value that
      was sent; id, seller and rating are never touched. */
  function Patched(p: Product, patch: ProductPatch): (r: Product)
    ensures r.id == p.id && r.sellerId == p.sellerId && r.rating == p.rating
    ensures Truthy(patch.title) ==> r.title == patch.title.value
    ensures !Truthy(patch.title) ==> r.title == p.title
    ensures Truthy(patch.description) ==> r.description == patch.description.value
    ensures !Truthy(patch.description) ==> r.description == p.description
    ensures Truthy(patch.category) ==> r.category == patch.category.value
    ensures !Truthy(patch.category) ==> r.category == p.category
    ensures Truthy(patch.image) ==> r.image == patch.image.value
    ensures !Truthy(patch.image) ==> r.image == p.image
    ensures r.price == (if patch.price.Some? then patch.price.value else p.price)
    ensures r.quantity == (if patch.quantity.Some? then patch.quantity.value else p.quantity)
  {
    p.(title := OrElse(patch.title, p.title),
       price := if patch.price.Some? then patch.price.value else p.price,
       description := OrElse(patch.description, p.description),
       category := OrElse(patch.category, p.category),
       image := OrElse(patch.image, p.image),
       quantity := if patch.quantity.Some? then patch.quantity.value else p.quantity)
  }

  /** Sending nothing changes nothing. */
  lemma EmptyPatchKeepsProduct(p: Product)
    ensures Patched(p, NoChange) == p
  {
  }

  /** Sending the same patch twice has the effect of sending it once. */
  lemma PatchIdempotent(p: Product, patch: ProductPatch)
    ensures Patched(Patched(p, patch), patch) == Patched(p, patch)
  {
  }

  /** `updateProduct`: NotFound unless some product matches both id and
      seller (a wrong id and a wrong owner answer alike); otherwise that one
      position is replaced by the patched product and the length is kept. */
  method UpdateProduct(db: Database, id: int, sellerId: int, patch: ProductPatch) returns (r: Result<Product>)
    modifies db`products
    ensures OwnedIndex(old(db.products), id, sellerId).None? ==>
      r == Err(NotFound) && db.products == old(db.products)
    ensures OwnedIndex(old(db.products), id, sellerId).Some? ==>
      var i := OwnedIndex(old(db.products), id, sellerId).value;
      && r == Ok(Patched(old(db.products)[i], patch))
      && |db.products| == |old(db.products)|
      && db.products[i] == r.value
      && forall j :: 0 <= j < |db.products| && j != i ==> db.products[j] == old(db.products)[j]
  {
    var i := OwnedIndex(db.products, id, sellerId);
    if i.None? {
      return Err(NotFound);
    }
    var updated := Patched(db.products[i.value], patch);
    db.products := db.products[i.value := updated];
    r := Ok(updated);
  }

  /** `deleteProduct`: NotFound unless some product matches both id and
      seller; otherwise exactly that first match is cut out and the other
      products keep their ids. */
  method DeleteProduct(db: Database, id: int, sellerId: int) returns (r: Result<()>)
    modifies db`products
    ensures OwnedIndex(old(db.products), id, sellerId).None? ==>
      r == Err(NotFound) && db.products == old(db.products)
    ensures OwnedIndex(old(db.products), id, sellerId).Some? ==>
      r == Ok(()) && db.products == RemoveAt(old(db.products), OwnedIndex(old(db.products), id, sellerId).value)
  {
    var i := OwnedIndex(db.products, id, sellerId);
    if i.None? {
      return Err(NotFound);
    }
    db.products := RemoveAt(db.products, i.value);
    r := Ok(());
  }

  /** Because deletion does not compact and `AddProduct` numbers the new
      product `|products| + 1`, in a catalogue numbered 1..n a deletion of
      any product but the last makes the next product created take id n,
      which the last product still holds. */
  lemma AddAfterDeleteReusesId(products: seq<Product>, k: nat)
    requires forall i :: 0 <= i < |products| ==> products[i].id == i + 1
    requires k < |products| - 1
    ensures var left := RemoveAt(products, k);
      && left[|left| - 1] == products[|products| - 1]
      && |left| + 1 == left[|left| - 1].id
  {
    var left := RemoveAt(products, k);
    assert left[|left| - 1] == products[|left|];
  }

  /** `getProducts` for a seller: exactly that seller's products, in stored
      order. */
  function SellerProducts(products: seq<Product>, sellerId: int): (r: seq<Product>)
    ensures forall i :: 0 <= i < |r| ==> r[i] in products && r[i].sellerId == sellerId
    ensures forall i :: 0 <= i < |products| && products[i].sellerId == sellerId ==> products[i] in r
    ensures forall i :: 0 <= i < |products| && products[i].sellerId == sellerId ==>
      multiset(r)[products[i]] == multiset(products)[products[i]]
    ensures IsSubsequence(r, products)
  {
    Filter(products, (p: Product) => p.sellerId == sellerId)
  }

  /** Listing a seller's catalogue part by part gives the same list. */
  lemma SellerProductsConcat(a: seq<Product>, b: seq<Product>, sellerId: int)
    ensures SellerProducts(a + b, sellerId) == SellerProducts(a, sellerId) + SellerProducts(b, sellerId)
  {
    FilterConcat(a, b, (p: Product) => p.sellerId == sellerId);
  }
}
