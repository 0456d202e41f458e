/** The shop page's own catalogue logic: the visible product list (category
    selection, case-insensitive title search, price sort), the category list,
    the cart edits the page makes to its local copy of the cart, and the
    guard in front of "add to cart". Each computes a new list from the old
    one; the page hands it to a setter that replaces the whole list. */
module ShopPage {
  import opened Lists
  import opened Records
  import opened Text
  import ProductSlice

  /** The sort selector: `'asc'`, `'desc'` or `''`. */
  datatype SortOrder = Asc | Desc | Unsorted

  /** The number the comparator orders by: `a - b` on prices for ascending,
      `b - a` for descending, and no order at all (every comparison 0) for
      the empty selection. */
  function Key(order: SortOrder, p: Product): int
  {
    match order
    case Asc => p.price
    case Desc => -p.price
    case Unsorted => 0
  }

  predicate Ordered(order: SortOrder, s: seq<Product>)
  {
    forall i, j :: 0 <= i < j < |s| ==> Key(order, s[i]) <= Key(order, s[j])
  }

  /** Inserts `x` into `t` ahead of the first element it does not strictly
      follow, so that `x`, which came first in the input, stays ahead of the
      elements that compare equal to it. */
  function Insert(order: SortOrder, x: Product, t: seq<Product>): (r: seq<Product>)
    ensures |r| == |t| + 1
    ensures multiset(r) == multiset(t) + multiset{x}
    ensures (forall i :: 0 <= i < |t| ==> Key(order, x) <= Key(order, t[i])) ==> r == [x] + t
  {
    if t == [] then [x]
    else if Key(order, t[0]) < Key(order, x) then
      assert t == [t[0]] + t[1..];
      [t[0]] + Insert(order, x, t[1..])
    else
      [x] + t
  }

  /** Every element of `s` has a key of at least `b`. */
  predicate AtLeast(order: SortOrder, b: int, s: seq<Product>)
  {
    forall i :: 0 <= i < |s| ==> b <= Key(order, s[i])
  }

  lemma {:induction false} InsertAtLeast(order: SortOrder, x: Product, t: seq<Product>, b: int)
    requires AtLeast(order, b, t) && b <= Key(order, x)
    ensures AtLeast(order, b, Insert(order, x, t))
  {
    if t != [] && Key(order, t[0]) < Key(order, x) {
      InsertAtLeast(order, x, t[1..], b);
    }
  }

  lemma OrderedCons(order: SortOrder, a: Product, s: seq<Product>)
    requires AtLeast(order, Key(order, a), s) && Ordered(order, s)
    ensures Ordered(order, [a] + s)
  {
    var r := [a] + s;
    forall i, j | 0 <= i < j < |r|
      ensures Key(order, r[i]) <= Key(order, r[j])
    {
      assert r[j] == s[j - 1];
      if i > 0 {
        assert r[i] == s[i - 1];
      }
    }
  }

  /** Inserting into an ordered list keeps it ordered. */
  lemma {:induction false} InsertOrdered(order: SortOrder, x: Product, t: seq<Product>)
    requires Ordered(order, t)
    ensures Ordered(order, Insert(order, x, t))
  {
    if t == [] {
    } else if Key(order, t[0]) < Key(order, x) {
      var tail := t[1..];
      assert Ordered(order, tail) && AtLeast(order, Key(order, t[0]), tail) by {
        forall i | 0 <= i < |tail|
          ensures Key(order, t[0]) <= Key(order, tail[i])
        {
          assert tail[i] == t[i + 1];
        }
      }
      InsertOrdered(order, x, tail);
      InsertAtLeast(order, x, tail, Key(order, t[0]));
      OrderedCons(order, t[0], Insert(order, x, tail));
    } else {
      assert AtLeast(order, Key(order, x), t);
      OrderedCons(order, x, t);
    }
  }

  /** `Array.prototype.sort` with the page's comparator. The sort is
      stable, modelled here as an insertion sort. */
  function SortByPrice(s: seq<Product>, order: SortOrder): (r: seq<Product>)
    ensures multiset(r) == multiset(s)
    ensures |r| == |s|
    ensures Ordered(order, r)
    ensures order == Asc ==> forall i, j :: 0 <= i < j < |r| ==> r[i].price <= r[j].price
    ensures order == Desc ==> forall i, j :: 0 <= i < j < |r| ==> r[i].price >= r[j].price
    ensures order == Unsorted ==> r == s
  {
    if s == [] then []
    else
      assert s == [s[0]] + s[1..];
      var rest := SortByPrice(s[1..], order);
      InsertOrdered(order, s[0], rest);
      Insert(order, s[0], rest)
  }

  /** The filter of the visible list: the category is the selected one (or
      the selection is `'all'`) and the lower-cased title contains the
      lower-cased search term. */
  predicate Matches(p: Product, category: string, search: string)
  {
    (category == "all" || p.category == category) && Includes(Lower(p.title), Lower(search))
  }

  /** `filteredProducts`: exactly the products that pass the filter, ordered
      by price as selected, and in catalogue order when no sort is chosen. */
  function FilteredProducts(products: seq<Product>, category: string, search: string, order: SortOrder)
    : (r: seq<Product>)
    ensures forall i :: 0 <= i < |r| ==> r[i] in products
    ensures forall i :: 0 <= i < |r| ==> category == "all" || r[i].category == category
    ensures forall i :: 0 <= i < |r| ==> Includes(Lower(r[i].title), Lower(search))
    ensures forall i :: 0 <= i < |products| && Matches(products[i], category, search) ==> products[i] in r
    ensures forall i :: 0 <= i < |products| && Matches(products[i], category, search) ==>
      multiset(r)[products[i]] == multiset(products)[products[i]]
    ensures order == Asc ==> forall i, j :: 0 <= i < j < |r| ==> r[i].price <= r[j].price
    ensures order == Desc ==> forall i, j :: 0 <= i < j < |r| ==> r[i].price >= r[j].price
    ensures order == Unsorted ==> IsSubsequence(r, products)
  {
    var kept := Filter(products, (p: Product) => Matches(p, category, search));
    var r := SortByPrice(kept, order);
    assert forall i :: 0 <= i < |r| ==> r[i] in kept by {
      forall i | 0 <= i < |r|
        ensures r[i] in kept
      {
        assert r[i] in multiset(r);
      }
    }
    assert forall i :: 0 <= i < |kept| ==> kept[i] in r by {
      forall i | 0 <= i < |kept|
        ensures kept[i] in r
      {
        assert kept[i] in multiset(kept);
      }
    }
    r
  }

  /** With category `'all'`, an empty search and no sort, the whole
      catalogue is shown in its order. */
  lemma ShowAllByDefault(products: seq<Product>)
    ensures FilteredProducts(products, "all", "", Unsorted) == products
  {
    assert forall i :: 0 <= i < |products| ==> Matches(products[i], "all", "");
    FilterKeepsAll(products, (p: Product) => Matches(p, "all", ""));
  }

  /** The search ignores case: searching for a term and for its lower-cased
      form shows the same list. */
  lemma SearchIgnoresCase(products: seq<Product>, category: string, search: string, order: SortOrder)
    ensures FilteredProducts(products, category, search, order)
         == FilteredProducts(products, category, Lower(search), order)
  {
    LowerIdempotent(search);
    FilterCongruent(products, (p: Product) => Matches(p, category, search),
                              (p: Product) => Matches(p, category, Lower(search)));
  }

  /** The category of every product, in catalogue order. */
  function CategoriesOf(products: seq<Product>): (r: seq<string>)
    ensures |r| == |products|
    ensures forall i :: 0 <= i < |r| ==> r[i] == products[i].category
  {
    seq(|products|, i requires 0 <= i < |products| => products[i].category)
  }

  /** `Array.from(new Set(products.map(p => p.category)))`: each category
      once, and exactly the categories some product has. */
  function Categories(products: seq<Product>): (r: seq<string>)
    ensures forall i, j :: 0 <= i < j < |r| ==> r[i] != r[j]
    ensures forall i :: 0 <= i < |r| ==> exists k :: 0 <= k < |products| && products[k].category == r[i]
    ensures forall k :: 0 <= k < |products| ==> products[k].category in r
  {
    var all := CategoriesOf(products);
    var r := Distinct(all);
    assert forall i :: 0 <= i < |r| ==> exists k :: 0 <= k < |products| && products[k].category == r[i] by {
      forall i | 0 <= i < |r|
        ensures exists k :: 0 <= k < |products| && products[k].category == r[i]
      {
        var k :| 0 <= k < |all| && all[k] == r[i];
        assert products[k].category == r[i];
      }
    }
    assert forall k :: 0 <= k < |products| ==> products[k].category in r by {
      forall k | 0 <= k < |products|
        ensures products[k].category in r
      {
        assert all[k] == products[k].category;
      }
    }
    r
  }

  /** Every item with id `id` moved by `delta`, the others untouched
      (`cart.map(item => item.id === id ? {...item, quantity: ...} : item)`). */
  function Shifted(cart: seq<CartItem>, id: int, delta: int): (r: seq<CartItem>)
    ensures |r| == |cart|
    ensures forall i :: 0 <= i < |r| && cart[i].id == id ==> r[i] == cart[i].(quantity := cart[i].quantity + delta)
    ensures forall i :: 0 <= i < |r| && cart[i].id != id ==> r[i] == cart[i]
  {
    seq(|cart|, i requires 0 <= i < |cart| =>
      if cart[i].id == id then cart[i].(quantity := cart[i].quantity + delta) else cart[i])
  }

  /** Whether `handleIncrease(id)` goes ahead: a cart item and a product
      with this one id both exist, and the first such item holds less than
      that product's stock. */
  predicate CanIncrease(cart: seq<CartItem>, products: seq<Product>, id: int)
  {
    && ProductSlice.CartItemIndex(cart, id).Some?
    && ProductIndex(products, id).Some?
    && cart[ProductSlice.CartItemIndex(cart, id).value].quantity
         < products[ProductIndex(products, id).value].quantity
  }

  /** `handleIncrease(id)`: when allowed, every item with that id gains one;
      otherwise (a missing item or product, or the stock reached) the cart
      is left as it was. */
  function HandleIncrease(cart: seq<CartItem>, products: seq<Product>, id: int): (r: seq<CartItem>)
    ensures !CanIncrease(cart, products, id) ==> r == cart
    ensures |r| == |cart|
    ensures forall i :: 0 <= i < |r| && cart[i].id != id ==> r[i] == cart[i]
    ensures CanIncrease(cart, products, id) ==>
      forall i :: 0 <= i < |r| && cart[i].id == id ==> r[i] == cart[i].(quantity := cart[i].quantity + 1)
  {
    if CanIncrease(cart, products, id) then Shifted(cart, id, 1) else cart
  }

  /** The increase is capped by the stock: an item that stays within the
      stock before the click stays within it after. */
  lemma IncreaseWithinStock(cart: seq<CartItem>, products: seq<Product>, id: int)
    requires ProductIndex(products, id).Some?
    requires forall i :: 0 <= i < |cart| && cart[i].id == id ==>
               cart[i].quantity <= products[ProductIndex(products, id).value].quantity
    requires forall i, j :: 0 <= i < j < |cart| ==> cart[i].id != cart[j].id
    ensures forall i :: 0 <= i < |cart| && cart[i].id == id ==>
              HandleIncrease(cart, products, id)[i].quantity <= products[ProductIndex(products, id).value].quantity
  {
    var r := HandleIncrease(cart, products, id);
    var p := ProductIndex(products, id).value;
    if CanIncrease(cart, products, id) {
      var k := ProductSlice.CartItemIndex(cart, id).value;
      forall i | 0 <= i < |cart| && cart[i].id == id
        ensures r[i].quantity <= products[p].quantity
      {
        assert i == k;
      }
    }
  }

  /** `handleDecrease(id)`: every item with that id loses one and no item is
      removed, even at quantity one (unlike the store's reducer). */
  function HandleDecrease(cart: seq<CartItem>, id: int): (r: seq<CartItem>)
    ensures |r| == |cart|
    ensures forall i :: 0 <= i < |r| && cart[i].id == id ==> r[i] == cart[i].(quantity := cart[i].quantity - 1)
    ensures forall i :: 0 <= i < |r| && cart[i].id != id ==> r[i] == cart[i]
  {
    Shifted(cart, id, -1)
  }

  /** An increase below the stock followed by a decrease gives the cart back. */
  lemma DecreaseUndoesIncrease(cart: seq<CartItem>, products: seq<Product>, id: int)
    requires CanIncrease(cart, products, id)
    ensures HandleDecrease(HandleIncrease(cart, products, id), id) == cart
  {
    var r := HandleDecrease(HandleIncrease(cart, products, id), id);
    assert forall i :: 0 <= i < |cart| ==> r[i] == cart[i];
  }

  /** `handleRemoveFromCart(id)` filters the page's copy with the same condition
      as the store's local reducer (`ProductSlice.WithoutCartItem`); a second
      removal of the same id changes nothing. */
  lemma RemoveFromCartIdempotent(cart: seq<CartItem>, id: int)
    ensures ProductSlice.WithoutCartItem(ProductSlice.WithoutCartItem(cart, id), id)
         == ProductSlice.WithoutCartItem(cart, id)
  {
    ProductSlice.WithoutAbsentCartItem(ProductSlice.WithoutCartItem(cart, id), id);
  }

  /** At quantity one the page and the store disagree: the page keeps the
      item with quantity zero, the store's reducer drops it. */
  lemma DecreaseAtOneKeepsItem(item: CartItem)
    requires item.quantity == 1
    ensures HandleDecrease([item], item.id) == [item.(quantity := 0)]
    ensures ProductSlice.Decremented([item], item.id) == []
  {
    assert ProductSlice.CartItemIndex([item], item.id) == Some(0);
  }

  /** What "add to cart" does: warn that the product is sold out, ask the
      visitor to log in, or send the request for one unit. */
  datatype AddDecision = SoldOut | LoginRequired | Dispatch(productId: int, quantity: int)

  /** `handleAddToCart(productId)`: the stock guard comes before the login
      guard, so a visitor who is not logged in still sees "sold out". */
  function HandleAddToCart(products: seq<Product>, productId: int, loggedIn: bool): (r: AddDecision)
    ensures r == SoldOut <==>
      ProductIndex(products, productId).None? || products[ProductIndex(products, productId).value].quantity == 0
    ensures r == LoginRequired <==> r != SoldOut && !loggedIn
    ensures r.Dispatch? ==> r == Dispatch(productId, 1)
  {
    match ProductIndex(products, productId)
    case None => SoldOut
    case Some(k) =>
      if products[k].quantity == 0 then SoldOut
      else if !loggedIn then LoginRequired
      else Dispatch(productId, 1)
  }
}
