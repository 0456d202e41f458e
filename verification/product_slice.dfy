/** The browser's product store: the catalogue, the cart and the wishlist
    as last fetched, plus a request status and an error message. The
    reducers update these fields in place. */
module ProductSlice {
  import opened Lists
  import opened Records

  /** Position of the first cart item with this line id. */
  function CartItemIndex(cart: seq<CartItem>, id: int): (r: Option<nat>)
    ensures r.Some? ==> r.value < |cart| && cart[r.value].id == id
    ensures r.Some? ==> forall j :: 0 <= j < r.value ==> cart[j].id != id
    ensures r.None? <==> forall j :: 0 <= j < |cart| ==> cart[j].id != id
  {
    FindIndex(cart, (item: CartItem) => item.id == id)
  }

  /** The cart after `increaseCartItemQuantityLocal(id)`: the first item
      with that id gains one; without such an item nothing changes. */
  function Incremented(cart: seq<CartItem>, id: int): (r: seq<CartItem>)
    ensures |r| == |cart|
    ensures CartItemIndex(cart, id).None? ==> r == cart
    ensures CartItemIndex(cart, id).Some? ==>
      var k := CartItemIndex(cart, id).value;
      && r[k] == cart[k].(quantity := cart[k].quantity + 1)
      && forall j :: 0 <= j < |r| && j != k ==> r[j] == cart[j]
  {
    match CartItemIndex(cart, id)
    case None => cart
    case Some(k) => cart[k := cart[k].(quantity := cart[k].quantity + 1)]
  }

  /** The cart after `decreaseCartItemQuantityLocal(id)`: the first item
      with that id loses one while it holds more than one, and is cut out
      otherwise, so it never stays with less than one. */
  function Decremented(cart: seq<CartItem>, id: int): (r: seq<CartItem>)
    ensures CartItemIndex(cart, id).None? ==> r == cart
    ensures CartItemIndex(cart, id).Some? ==>
      var k := CartItemIndex(cart, id).value;
      if cart[k].quantity > 1 then
        && |r| == |cart|
        && r[k] == cart[k].(quantity := cart[k].quantity - 1)
        && r[k].quantity >= 1
        && forall j :: 0 <= j < |r| && j != k ==> r[j] == cart[j]
      else
        r == RemoveAt(cart, k)
  {
    match CartItemIndex(cart, id)
    case None => cart
    case Some(k) =>
      if cart[k].quantity > 1 then cart[k := cart[k].(quantity := cart[k].quantity - 1)]
      else RemoveAt(cart, k)
  }

  /** The cart without the items whose line id is `id`, the others in order. */
  function WithoutCartItem(cart: seq<CartItem>, id: int): (r: seq<CartItem>)
    ensures forall i :: 0 <= i < |r| ==> r[i] in cart && r[i].id != id
    ensures forall i :: 0 <= i < |cart| && cart[i].id != id ==> cart[i] in r
    ensures forall i :: 0 <= i < |cart| && cart[i].id != id ==>
      multiset(r)[cart[i]] == multiset(cart)[cart[i]]
    ensures IsSubsequence(r, cart)
  {
    Filter(cart, (item: CartItem) => item.id != id)
  }

  /** Removing an id that is not in the cart gives the cart back. */
  lemma WithoutAbsentCartItem(cart: seq<CartItem>, id: int)
    requires forall i :: 0 <= i < |cart| ==> cart[i].id != id
    ensures WithoutCartItem(cart, id) == cart
  {
    FilterKeepsAll(cart, (item: CartItem) => item.id != id);
  }

  /** The cart without the items whose PRODUCT id is `productId`. */
  function WithoutProductItems(cart: seq<CartItem>, productId: int): (r: seq<CartItem>)
    ensures forall i :: 0 <= i < |r| ==> r[i] in cart && r[i].productId != productId
    ensures forall i :: 0 <= i < |cart| && cart[i].productId != productId ==> cart[i] in r
    ensures forall i :: 0 <= i < |cart| && cart[i].productId != productId ==>
      multiset(r)[cart[i]] == multiset(cart)[cart[i]]
    ensures IsSubsequence(r, cart)
  {
    Filter(cart, (item: CartItem) => item.productId != productId)
  }

  /** The wishlist without the items for `productId`, the others in order. */
  function WithoutWishlistProduct(wishlist: seq<WishlistItem>, productId: int): (r: seq<WishlistItem>)
    ensures forall i :: 0 <= i < |r| ==> r[i] in wishlist && r[i].productId != productId
    ensures forall i :: 0 <= i < |wishlist| && wishlist[i].productId != productId ==> wishlist[i] in r
    ensures forall i :: 0 <= i < |wishlist| && wishlist[i].productId != productId ==>
      multiset(r)[wishlist[i]] == multiset(wishlist)[wishlist[i]]
    ensures IsSubsequence(r, wishlist)
  {
    Filter(wishlist, (item: WishlistItem) => item.productId != productId)
  }

  class ProductState {
    var products: seq<Product>
    var cart: seq<CartItem>
    var wishlist: seq<WishlistItem>
    var status: Status
    var error: Option<string>

    constructor ()
      ensures products == [] && cart == [] && wishlist == [] && status == Idle && error == None
    {
      products, cart, wishlist, status, error := [], [], [], Idle, None;
    }

    method IncreaseCartItemQuantityLocal(id: int)
      modifies this`cart
      ensures cart == Incremented(old(cart), id)
    {
      var k := CartItemIndex(cart, id);
      if k.Some? {
        var item := cart[k.value];
        cart := cart[k.value := item.(quantity := item.quantity + 1)];
      }
    }

    method DecreaseCartItemQuantityLocal(id: int)
      modifies this`cart
      ensures cart == Decremented(old(cart), id)
    {
      var k := CartItemIndex(cart, id);
      if k.Some? {
        if cart[k.value].quantity > 1 {
          var item := cart[k.value];
          cart := cart[k.value := item.(quantity := item.quantity - 1)];
        } else {
          cart := RemoveAt(cart, k.value);
        }
      }
    }

    method RemoveCartItemLocal(id: int)
      modifies this`cart
      ensures cart == WithoutCartItem(old(cart), id)
    {
      cart := WithoutCartItem(cart, id);
    }

    method RemoveFromWishlistLocal(productId: int)
      modifies this`wishlist
      ensures wishlist == WithoutWishlistProduct(old(wishlist), productId)
    {
      wishlist := WithoutWishlistProduct(wishlist, productId);
    }

    /** `fetchProducts.pending` (and `fetchProductsByCategory.pending`). */
    method ProductsPending()
      modifies this`status
      ensures status == Loading
    {
      status := Loading;
    }

    /** `fetchProducts.fulfilled` (and `fetchProductsByCategory.fulfilled`). */
    method ProductsFulfilled(payload: seq<Product>)
      modifies this`status, this`products
      ensures status == Succeeded && products == payload
    {
      status := Succeeded;
      products := payload;
    }

    /** `fetchProducts.rejected` (and `fetchProductsByCategory.rejected`). */
    method ProductsRejected(message: Option<string>)
      modifies this`status, this`error
      ensures status == Failed && error == OrNull(message)
    {
      status := Failed;
      error := OrNull(message);
    }

    /** `addToCart.fulfilled`: the cart becomes the payload; the status is
        left as it was. */
    method AddToCartFulfilled(payload: seq<CartItem>)
      modifies this`cart
      ensures cart == payload
    {
      cart := payload;
    }

    method FetchCartFulfilled(payload: seq<CartItem>)
      modifies this`cart, this`status
      ensures cart == payload && status == Succeeded
    {
      cart := payload;
      status := Succeeded;
    }

    /** `addToWishlist.fulfilled` (and `fetchWishlist.fulfilled`): the
        wishlist becomes the payload. */
    method WishlistFulfilled(payload: seq<WishlistItem>)
      modifies this`wishlist
      ensures wishlist == payload
    {
      wishlist := payload;
    }

    /** `buyProduct.fulfilled`: the whole cart is emptied. */
    method BuyProductFulfilled()
      modifies this`cart, this`status
      ensures cart == [] && status == Succeeded
    {
      cart := [];
      status := Succeeded;
    }

    method BuyProductRejected(message: Option<string>)
      modifies this`status, this`error
      ensures status == Failed
      ensures error == Some(OrElse(message, "Failed to complete purchase"))
    {
      status := Failed;
      error := Some(OrElse(message, "Failed to complete purchase"));
    }

    /** `removeFromWishlist.fulfilled`: the local filter is overwritten at
        once by the payload's `updatedWishlist`. */
    method RemoveFromWishlistFulfilled(productId: int, updatedWishlist: seq<WishlistItem>)
      modifies this`wishlist
      ensures wishlist == updatedWishlist
    {
      wishlist := WithoutWishlistProduct(wishlist, productId);
      wishlist := updatedWishlist;
    }

    /** `removeFromCart.fulfilled`: drops the items whose PRODUCT id equals
        the payload's `cartId`, not the item whose own id is `cartId`. */
    method RemoveFromCartFulfilled(cartId: int)
      modifies this`cart, this`status
      ensures cart == WithoutProductItems(old(cart), cartId) && status == Succeeded
    {
      cart := WithoutProductItems(cart, cartId);
      status := Succeeded;
    }

    method RemoveFromCartRejected(message: Option<string>)
      modifies this`status, this`error
      ensures status == Failed
      ensures error == Some(OrElse(message, "Failed to remove item from cart"))
    {
      status := Failed;
      error := Some(OrElse(message, "Failed to remove item from cart"));
    }
  }

  /** The reducer filters by product id: a payload `cartId` of 1 keeps the
      item with id 1 when it holds product 7, and drops the item with id 2,
      which holds product 1. */
  lemma RemoveFromCartComparesProductId(line1: CartItem, line2: CartItem)
    requires line1 == CartItem(1, 7, 1, 0) && line2 == CartItem(2, 1, 1, 0)
    ensures WithoutProductItems([line1, line2], 1) == [line1]
  {
    assert [line1, line2][1..] == [line2];
    assert [line2][1..] == [];
  }
}
