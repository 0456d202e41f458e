/** The browser's seller store: the seller's own products, a request status
    and an error message, updated in place by the reducers of the four
    catalogue requests. */
module SellerSlice {
  import opened Lists
  import opened Records

  /** The products without those whose id is `id`, the others in order. */
  function WithoutProduct(products: seq<Product>, id: int): (r: seq<Product>)
    ensures forall i :: 0 <= i < |r| ==> r[i] in products && r[i].id != id
    ensures forall i :: 0 <= i < |products| && products[i].id != id ==> products[i] in r
    ensures forall i :: 0 <= i < |products| && products[i].id != id ==>
      multiset(r)[products[i]] == multiset(products)[products[i]]
    ensures IsSubsequence(r, products)
  {
    Filter(products, (p: Product) => p.id != id)
  }

  /** The list with the first product whose id is `updated.id` replaced by
      `updated`; unchanged when no product has that id. */
  function ReplacedProduct(products: seq<Product>, updated: Product): (r: seq<Product>)
    ensures |r| == |products|
    ensures ProductIndex(products, updated.id).None? ==> r == products
    ensures ProductIndex(products, updated.id).Some? ==>
      var k := ProductIndex(products, updated.id).value;
      r[k] == updated && forall j :: 0 <= j < |r| && j != k ==> r[j] == products[j]
  {
    match ProductIndex(products, updated.id)
    case None => products
    case Some(k) => products[k := updated]
  }

  class SellerState {
    var products: seq<Product>
    var status: Status
    var error: Option<string>

    constructor ()
      ensures products == [] && status == Idle && error == None
    {
      products, status, error := [], Idle, None;
    }

    /** Every `.pending` case: only the status changes. */
    method Pending()
      modifies this`status
      ensures status == Loading
    {
      status := Loading;
    }

    /** Every `.rejected` case: the error becomes the message the request
        was rejected with. */
    method Rejected(payload: string)
      modifies this`status, this`error
      ensures status == Failed && error == Some(payload)
    {
      status := Failed;
      error := Some(payload);
    }

    method AddProductFulfilled(product: Product)
      modifies this`status, this`products
      ensures status == Succeeded && products == old(products) + [product]
    {
      status := Succeeded;
      products := products + [product];
    }

    method UpdateProductFulfilled(product: Product)
      modifies this`status, this`products
      ensures status == Succeeded && products == ReplacedProduct(old(products), product)
    {
      status := Succeeded;
      var k := ProductIndex(products, product.id);
      if k.Some? {
        products := products[k.value := product];
      }
    }

    method DeleteProductFulfilled(id: int)
      modifies this`status, this`products
      ensures status == Succeeded && products == WithoutProduct(old(products), id)
    {
      status := Succeeded;
      products := WithoutProduct(products, id);
    }

    method FetchSellerProductsFulfilled(payload: seq<Product>)
      modifies this`status, this`products
      ensures status == Succeeded && products == payload
    {
      status := Succeeded;
      products := payload;
    }
  }
}
