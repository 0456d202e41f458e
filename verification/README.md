# A model of the e-commerce marketplace core in Dafny

The marketplace has three kinds of account: shoppers, sellers and admins.

- **Shoppers** browse the catalogue, keep a cart and a wishlist, and buy products. Buying draws down stock.
- **Sellers** add, update and delete their own products.
- **Admins** add, edit, delete and list accounts.
- **Anyone** can register as a shopper.

The backend stores four collections: users, products, cart lines and wishlist lines. A request handler reads the collections it needs, decides, and writes back at most one collection.

The browser keeps three Redux stores:

- the catalogue, cart and wishlist;
- the admin's user list;
- the seller's product list.

The reducers of each store update the cached lists in place and set a request status and an error message. The shop page computes the visible product list, the category list and local cart edits.

This project models that core:

- **Backend collections.** They are the four `seq` fields of one `Store.Database` object. Each handler that writes is a method that `modifies` only the field it writes back; the read-only handlers (`GetCart`, `GetWishlist`, `GetProduct`, `ProductsByCategory`, `SellerProducts`, `NonAdminUsers`) are functions. Its result and the new state are tied to pure functions (`AddedToCart`, `CartWithout`, `WithoutUser`, `Purchased`, …), and lemmas state the properties of those functions.
- **Browser stores.** Each one is a class whose reducers are methods over its fields.
- **The shop page.** Its logic is pure functions over lists.

Module layout:

| file | module | models |
|---|---|---|
| `lists.dfy` | `Lists` | `Option`, `Array.prototype.filter`/`findIndex`, removal at an index, de-duplication |
| `text.dfy` | `Text` | `toLowerCase` (ASCII letters) and `String.prototype.includes` |
| `records.dfy` | `Records` | the stored records, the cached shapes, error kinds, request-field truthiness |
| `store.dfy` | `Store` | the four stored collections |
| `shopper.dfy` | `ShopperControl` | cart, wishlist, purchase and product lookup handlers |
| `seller.dfy` | `SellerControl` | the seller's catalogue handlers |
| `admin.dfy` | `AdminControl` | the admin's account handlers |
| `register.dfy` | `Register` | self-service registration |
| `product_slice.dfy` | `ProductSlice` | the product/cart/wishlist store and its reducers |
| `admin_slice.dfy` | `AdminSlice` | the admin store and its reducers |
| `seller_slice.dfy` | `SellerSlice` | the seller store and its reducers |
| `shop_page.dfy` | `ShopPage` | filtering, sorting, categories and cart handlers of the shop page |

Modelling conventions:

- **Request fields** are `Option` values. `None` means the field is absent or, for a numeric field, is not a JavaScript number. `Truthy` and `TruthyNumber` are JavaScript truthiness for a string and a number.
- **Prices and quantities** are whole numbers, with prices in cents.
- **Loose equality** (`==` between a route parameter and a stored number) is integer equality.
- **Password hashing** is a parameter `hash: string -> string` of the two handlers that hash.

Some behaviour is modelled as the code does it, not as a reader might expect:

- A `buyProduct` with a negative quantity passes the stock check and raises the stock (`ShopperControl.BuyProduct`).
- `addToCart` checks stock against the requested quantity only, never against the merged line total.
- The store's `removeFromCart.fulfilled` reducer compares the payload's `cartId` with each item's **product** id, not with the item's own id (`ProductSlice.RemoveFromCartComparesProductId`).
- The shop page's `handleIncrease` looks up both the cart item and the product with the same id.
- The shop page's `handleDecrease` can take an item to zero without removing it (`ShopPage.DecreaseAtOneKeepsItem`).
- Deleting a product does not renumber, and creating one uses `|products| + 1`, so ids can repeat (`SellerControl.AddAfterDeleteReusesId`).

## Model

| member | source | states |
|---|---|---|
| Store.Database.constructor | packages/backend/database/db.js:14-25 | every collection starts empty, as a missing or empty file reads as `[]` |
| Records.ProductIndex | packages/backend/controllers/access/shopperControl.js:39 | the position found is the first product with that id; none exactly when no product has it |
| Records.UserIndex | packages/backend/controllers/access/AdminControl.js:97 | the position found is the first user with that id; none exactly when no user has it |
| Records.OrNull | packages/frontend/src/features/slices/adminSlice.ts:193-196 | an error is recorded exactly when the message is non-empty, and it is that message |
| Records.OrElse | packages/backend/controllers/access/SellerControl.js:71-79 | `v || fallback`: the value when it is truthy, otherwise the fallback; the result is empty exactly when both are |
| Lists.Filter | packages/backend/controllers/access/shopperControl.js:83 | the result holds exactly the elements satisfying the predicate, each with as many copies as in the input, as an ordered subsequence of the input |
| Lists.FilterConcat | packages/backend/controllers/access/shopperControl.js:83 | filtering a concatenation is concatenating the filtered parts, so survivors keep their relative order |
| Lists.FindIndex | packages/backend/controllers/access/shopperControl.js:157 | the index found is the first that satisfies the predicate; none exactly when no element does |
| Lists.RemoveAt | packages/backend/controllers/access/SellerControl.js:117 | `splice(k, 1)`: one element shorter, the elements before `k` kept in place and those after it shifted down by one |
| Lists.Distinct | packages/frontend/src/pages/main/ShopPage.tsx:43 | no element repeats, and the elements are exactly those of the input |
| Text.Lower | packages/backend/controllers/access/shopperControl.js:294 | same length; each upper-case ASCII letter becomes its lower-case letter, so none is left; every other character kept |
| Text.LowerIdempotent | packages/frontend/src/pages/main/ShopPage.tsx:217 | lower-casing twice is lower-casing once |
| Text.IncludesIff | packages/frontend/src/pages/main/ShopPage.tsx:217 | `s` includes `t` exactly when `t` occurs in `s` at some position |
| ShopperControl.CartLineIndex | packages/backend/controllers/access/shopperControl.js:56 | the position found is the first line of this shopper for this product; none exactly when the shopper has no such line |
| ShopperControl.AddedToCart | packages/backend/controllers/access/shopperControl.js:56-67 | with an existing line, only that line's quantity grows by `qty` and the length is kept; otherwise the old cart is a prefix and one line `{id: n+1, userId, productId, qty}` is appended; with a positive `qty`, a cart whose quantities are all positive stays so |
| ShopperControl.AddKeepsOneLinePerProduct | packages/backend/controllers/access/shopperControl.js:56-67 | adding never creates a second line for the same shopper and product |
| ShopperControl.AddTwiceMerges | packages/backend/controllers/access/shopperControl.js:56-67 | two adds of a product the shopper has no line for give one line holding the sum |
| ShopperControl.AddToCart | packages/backend/controllers/access/shopperControl.js:16-77 | a non-numeric product id or quantity, or a quantity of at most 0, is InvalidInput; an unknown product is NotFound; stock below `qty` is InsufficientStock; every error leaves Carts unchanged; success makes Carts `AddedToCart` of the old cart |
| ShopperControl.CartWithout | packages/backend/controllers/access/shopperControl.js:83 | exactly the lines not matching both the line id and the owner survive, every copy of each, in order; a cart whose quantities are all positive stays so |
| ShopperControl.RemoveMismatchKeepsCart | packages/backend/controllers/access/shopperControl.js:83 | a wrong line id or a wrong owner leaves the cart identical |
| ShopperControl.CartWithoutConcat | packages/backend/controllers/access/shopperControl.js:83 | removal acts part by part, so survivors keep their relative order |
| ShopperControl.RemoveKeepsOneLinePerProduct | packages/backend/controllers/access/shopperControl.js:83 | removal keeps at most one line per shopper and product |
| ShopperControl.SubsequenceKeepsOneLinePerProduct | packages/backend/controllers/access/shopperControl.js:83 | any ordered subsequence of a cart with one line per pair has one line per pair |
| ShopperControl.RemoveFromCart | packages/backend/controllers/access/shopperControl.js:79-94 | always succeeds; Carts becomes `CartWithout` of the old cart |
| ShopperControl.OwnCartLines | packages/backend/controllers/access/shopperControl.js:100 | exactly the caller's lines, every copy of each, in stored order |
| ShopperControl.GetCart | packages/backend/controllers/access/shopperControl.js:96-128 | one entry per caller's line, in order; an entry has a product exactly when the product exists, and then it is that product's id, title, price, image and stock, with `totalPrice = price * quantity`; otherwise it has no total |
| ShopperControl.WishlistAppended | packages/backend/controllers/access/shopperControl.js:134-139 | the old list is a prefix, and one line `{id: n+1, userId, productId}` is appended |
| ShopperControl.AddToWishlistAllowsDuplicates | packages/backend/controllers/access/shopperControl.js:134-139 | each add gives the (shopper, product) pair one more line; duplicates are not prevented |
| ShopperControl.AddToWishlist | packages/backend/controllers/access/shopperControl.js:130-151 | the new line has id `n+1` and is returned; Wishlists becomes `WishlistAppended` of the old list |
| ShopperControl.WishlistIndex | packages/backend/controllers/access/shopperControl.js:157 | the position found is the first line matching product and shopper; none exactly when there is no such line |
| ShopperControl.CompactedWishlist | packages/backend/controllers/access/shopperControl.js:161-164 | ids become positions plus one; owner and product are kept |
| ShopperControl.RemoveFromWishlist | packages/backend/controllers/access/shopperControl.js:153-183 | no matching line is NotFound, with Wishlists unchanged; otherwise the first match is cut out and the rest renumbered |
| ShopperControl.WishlistRemovalShape | packages/backend/controllers/access/shopperControl.js:159-165 | after a removal the list is one shorter, ids run 1..n, and the lines before and after the removed one are the old ones in order |
| ShopperControl.OwnWishlistLines | packages/backend/controllers/access/shopperControl.js:189 | exactly the caller's lines, every copy of each, in stored order |
| ShopperControl.GetWishlist | packages/backend/controllers/access/shopperControl.js:185-206 | one entry per caller's line, in order; an entry has a product exactly when the product exists, with that product's id, title, price and image |
| ShopperControl.Purchased | packages/backend/controllers/access/shopperControl.js:233-236 | stock drops by the quantity bought, is clamped at zero and is never negative; no other field changes |
| ShopperControl.BuyProduct | packages/backend/controllers/access/shopperControl.js:208-249 | an unknown id is NotFound; stock below the quantity is InsufficientStock; both leave Products unchanged; otherwise only that product's position changes, to `Purchased`; non-negative stock stays non-negative |
| ShopperControl.GetProduct | packages/backend/controllers/access/shopperControl.js:265-288 | NotFound exactly when no product has the id; otherwise the first stored product with that id |
| ShopperControl.ProductsByCategory | packages/backend/controllers/access/shopperControl.js:290-313 | NotFound exactly when no product's category matches ignoring case; otherwise a non-empty list of exactly the matching products, every copy of each, in order |
| ShopperControl.CategoryIgnoresCase | packages/backend/controllers/access/shopperControl.js:294 | asking for a category or for its lower-cased form gives the same answer |
| SellerControl.OwnedIndex | packages/backend/controllers/access/SellerControl.js:60 | the position found is the first product matching both id and seller; none exactly when no product matches both |
| SellerControl.AddProduct | packages/backend/controllers/access/SellerControl.js:6-52 | a falsy title, price or category, or a missing seller, is InvalidInput with Products unchanged; otherwise the product gets id `n+1`, the seller's id and a zero rating, and is appended |
| SellerControl.Patched | packages/backend/controllers/access/SellerControl.js:71-79 | id, seller and rating are kept; title, description, category and image change only to a truthy value; price and quantity change whenever sent |
| SellerControl.EmptyPatchKeepsProduct | packages/backend/controllers/access/SellerControl.js:71-79 | sending no field leaves the product unchanged |
| SellerControl.PatchIdempotent | packages/backend/controllers/access/SellerControl.js:71-79 | sending the same update twice has the effect of sending it once |
| SellerControl.UpdateProduct | packages/backend/controllers/access/SellerControl.js:54-99 | NotFound, with Products unchanged, unless some product matches id and seller; otherwise only that position changes, to the patched product |
| SellerControl.DeleteProduct | packages/backend/controllers/access/SellerControl.js:101-134 | NotFound, with Products unchanged, unless some product matches id and seller; otherwise exactly that first match is removed and no id is renumbered |
| SellerControl.AddAfterDeleteReusesId | packages/backend/controllers/access/SellerControl.js:23-117 | in a catalogue numbered 1..n, deleting any product but the last leaves the last one holding id n, the id `AddProduct` gives the next product |
| SellerControl.SellerProducts | packages/backend/controllers/access/SellerControl.js:140 | exactly that seller's products, every copy of each, in stored order |
| SellerControl.SellerProductsConcat | packages/backend/controllers/access/SellerControl.js:140 | the seller's listing of a concatenation is the concatenation of the listings |
| AdminControl.AddUser | packages/backend/controllers/access/AdminControl.js:7-40 | the user gets id `n+1`, the hashed password and the requested role, and is appended |
| AdminControl.Survivors | packages/backend/controllers/access/AdminControl.js:47 | exactly the users with a different id, every copy of each, in order |
| AdminControl.CompactedUsers | packages/backend/controllers/access/AdminControl.js:49-52 | ids become positions plus one; every other field is kept |
| AdminControl.WithoutUser | packages/backend/controllers/access/AdminControl.js:47-52 | the survivors in order, renumbered so that ids run densely 1..n |
| AdminControl.DeleteUnknownOnlyRenumbers | packages/backend/controllers/access/AdminControl.js:47-52 | deleting an id nobody has still renumbers the list |
| AdminControl.DeleteMiddleOfThree | packages/backend/controllers/access/AdminControl.js:47-52 | deleting user 2 of users 1, 2, 3 leaves the first and the third, with the third renumbered to 2 |
| AdminControl.CompactedIdIsPosition | packages/backend/controllers/access/AdminControl.js:49-52 | in a compacted list, user `k` is found at position `k-1` |
| AdminControl.DeleteUser | packages/backend/controllers/access/AdminControl.js:42-69 | always succeeds; Users becomes `WithoutUser` of the old list |
| AdminControl.NonAdminUsers | packages/backend/controllers/access/AdminControl.js:74 | exactly the users whose role is not admin, every copy of each, in stored order |
| AdminControl.Edited | packages/backend/controllers/access/AdminControl.js:107-112 | id and password are kept; username, email and role change only to a truthy value |
| AdminControl.EditUser | packages/backend/controllers/access/AdminControl.js:92-130 | an unknown id is NotFound with Users unchanged; otherwise only the first user with that id changes, to the edited user, which is returned |
| Register.MaxId | packages/backend/controllers/authentication/register.js:30 | the result bounds every id from above and is one of them |
| Register.NextId | packages/backend/controllers/authentication/register.js:30 | 1 for no users; otherwise larger than every id in use and one more than some id |
| Register.FreshEmailKeepsDistinct | packages/backend/controllers/authentication/register.js:18-25 | appending a user whose email is unused keeps emails distinct |
| Register.NextIdKeepsDistinct | packages/backend/controllers/authentication/register.js:30-40 | appending a user numbered `NextId` keeps ids distinct |
| Register.Register | packages/backend/controllers/authentication/register.js:5-47 | a falsy username, password or email is InvalidInput; an email in use is EmailTaken; both leave Users unchanged; otherwise one shopper with id `NextId` and the hashed password is appended; distinct emails and distinct ids are preserved |
| ProductSlice.CartItemIndex | packages/frontend/src/features/slices/productSlice.ts:363 | the position found is the first item with that id; none exactly when no item has it |
| ProductSlice.Incremented | packages/frontend/src/features/slices/productSlice.ts:361-367 | the first item with that id gains one and every other position is kept; an unknown id changes nothing |
| ProductSlice.Decremented | packages/frontend/src/features/slices/productSlice.ts:368-378 | the first item with that id loses one when above one (it stays at least one), and is removed otherwise; an unknown id changes nothing |
| ProductSlice.WithoutCartItem | packages/frontend/src/features/slices/productSlice.ts:379-382 | exactly the items with a different id survive, every copy of each, in order |
| ProductSlice.WithoutAbsentCartItem | packages/frontend/src/features/slices/productSlice.ts:379-382 | removing an id that is not in the cart gives the cart back |
| ProductSlice.WithoutProductItems | packages/frontend/src/features/slices/productSlice.ts:438-441 | exactly the items whose product id differs survive, every copy of each, in order |
| ProductSlice.WithoutWishlistProduct | packages/frontend/src/features/slices/productSlice.ts:383-386 | exactly the items for other products survive, every copy of each, in order |
| ProductSlice.ProductState.constructor | packages/frontend/src/features/slices/productSlice.ts:14-20 | empty lists, idle status, no error |
| ProductSlice.ProductState.IncreaseCartItemQuantityLocal | packages/frontend/src/features/slices/productSlice.ts:361-367 | the cart becomes `Incremented` of the old cart |
| ProductSlice.ProductState.DecreaseCartItemQuantityLocal | packages/frontend/src/features/slices/productSlice.ts:368-378 | the cart becomes `Decremented` of the old cart |
| ProductSlice.ProductState.RemoveCartItemLocal | packages/frontend/src/features/slices/productSlice.ts:379-382 | the cart becomes `WithoutCartItem` of the old cart |
| ProductSlice.ProductState.RemoveFromWishlistLocal | packages/frontend/src/features/slices/productSlice.ts:383-386 | the wishlist becomes `WithoutWishlistProduct` of the old one |
| ProductSlice.ProductState.ProductsPending | packages/frontend/src/features/slices/productSlice.ts:390-392 | the status becomes loading and nothing else changes |
| ProductSlice.ProductState.ProductsFulfilled | packages/frontend/src/features/slices/productSlice.ts:393-396 | the status becomes succeeded and the catalogue becomes the payload |
| ProductSlice.ProductState.ProductsRejected | packages/frontend/src/features/slices/productSlice.ts:397-400 | the status becomes failed and the error becomes the message, or none |
| ProductSlice.ProductState.AddToCartFulfilled | packages/frontend/src/features/slices/productSlice.ts:412-414 | the cart becomes the payload and the status is untouched |
| ProductSlice.ProductState.FetchCartFulfilled | packages/frontend/src/features/slices/productSlice.ts:415-418 | the cart becomes the payload and the status becomes succeeded |
| ProductSlice.ProductState.WishlistFulfilled | packages/frontend/src/features/slices/productSlice.ts:419-424 | the wishlist becomes the payload |
| ProductSlice.ProductState.BuyProductFulfilled | packages/frontend/src/features/slices/productSlice.ts:425-429 | the whole cart is emptied and the status becomes succeeded |
| ProductSlice.ProductState.BuyProductRejected | packages/frontend/src/features/slices/productSlice.ts:430-433 | the status becomes failed; the error is the message, or "Failed to complete purchase" |
| ProductSlice.ProductState.RemoveFromWishlistFulfilled | packages/frontend/src/features/slices/productSlice.ts:434-437 | the wishlist ends as the payload's `updatedWishlist`, whatever the filter left |
| ProductSlice.ProductState.RemoveFromCartFulfilled | packages/frontend/src/features/slices/productSlice.ts:438-441 | the cart drops the items whose product id equals the payload's `cartId`; the status becomes succeeded |
| ProductSlice.ProductState.RemoveFromCartRejected | packages/frontend/src/features/slices/productSlice.ts:442-445 | the status becomes failed; the error is the message, or "Failed to remove item from cart" |
| ProductSlice.RemoveFromCartComparesProductId | packages/frontend/src/features/slices/productSlice.ts:439 | a payload `cartId` of 1 keeps the item with id 1 holding product 7 and drops the item with id 2 holding product 1 |
| AdminSlice.AccountIndex | packages/frontend/src/features/slices/adminSlice.ts:224 | the position found is the first account with that id; none exactly when no account has it |
| AdminSlice.WithoutAccount | packages/frontend/src/features/slices/adminSlice.ts:202 | exactly the accounts with a different id survive, every copy of each, in order; no renumbering |
| AdminSlice.ReplacedAccount | packages/frontend/src/features/slices/adminSlice.ts:224-227 | only the first account with the edited id is replaced, and the length is kept; an unknown id changes nothing |
| AdminSlice.AdminState.constructor | packages/frontend/src/features/slices/adminSlice.ts:14-18 | no users, idle status, no error |
| AdminSlice.AdminState.Pending | packages/frontend/src/features/slices/adminSlice.ts:186-188 | the status becomes loading and nothing else changes |
| AdminSlice.AdminState.Rejected | packages/frontend/src/features/slices/adminSlice.ts:193-196 | the status becomes failed and the error becomes the message, or none |
| AdminSlice.AdminState.AddUserFulfilled | packages/frontend/src/features/slices/adminSlice.ts:189-192 | the user is appended and the status becomes succeeded |
| AdminSlice.AdminState.DeleteUserFulfilled | packages/frontend/src/features/slices/adminSlice.ts:200-203 | the list becomes `WithoutAccount` of the request's id and the status becomes succeeded |
| AdminSlice.AdminState.GetUsersFulfilled | packages/frontend/src/features/slices/adminSlice.ts:211-214 | the list becomes the payload and the status becomes succeeded |
| AdminSlice.AdminState.EditUserFulfilled | packages/frontend/src/features/slices/adminSlice.ts:222-228 | the list becomes `ReplacedAccount` of the payload (matched by the payload's `id`) and the status becomes succeeded |
| SellerSlice.WithoutProduct | packages/frontend/src/features/slices/sellerSlice.ts:175 | exactly the products with a different id survive, every copy of each, in order |
| SellerSlice.ReplacedProduct | packages/frontend/src/features/slices/sellerSlice.ts:161-164 | only the first product with the updated id is replaced, and the length is kept; an unknown id changes nothing |
| SellerSlice.SellerState.constructor | packages/frontend/src/features/slices/sellerSlice.ts:14-18 | no products, idle status, no error |
| SellerSlice.SellerState.Pending | packages/frontend/src/features/slices/sellerSlice.ts:145-147 | the status becomes loading and nothing else changes |
| SellerSlice.SellerState.Rejected | packages/frontend/src/features/slices/sellerSlice.ts:152-155 | the status becomes failed and the error becomes the reject payload |
| SellerSlice.SellerState.AddProductFulfilled | packages/frontend/src/features/slices/sellerSlice.ts:148-151 | the product is appended and the status becomes succeeded |
| SellerSlice.SellerState.UpdateProductFulfilled | packages/frontend/src/features/slices/sellerSlice.ts:159-165 | the list becomes `ReplacedProduct` of the updated product and the status becomes succeeded |
| SellerSlice.SellerState.DeleteProductFulfilled | packages/frontend/src/features/slices/sellerSlice.ts:173-176 | the list becomes `WithoutProduct` of the id and the status becomes succeeded |
| SellerSlice.SellerState.FetchSellerProductsFulfilled | packages/frontend/src/features/slices/sellerSlice.ts:184-187 | the list becomes the payload and the status becomes succeeded |
| ShopPage.Insert | packages/frontend/src/pages/main/ShopPage.tsx:219-223 | one more element, the same multiset plus the inserted product, and the product goes first when it sorts no later than every element |
| ShopPage.InsertAtLeast | packages/frontend/src/pages/main/ShopPage.tsx:219-223 | insertion keeps a lower bound on the sort key that the inserted product also meets |
| ShopPage.OrderedCons | packages/frontend/src/pages/main/ShopPage.tsx:219-223 | a product whose key is at most every key of an ordered list can head it |
| ShopPage.InsertOrdered | packages/frontend/src/pages/main/ShopPage.tsx:219-223 | inserting into an ordered list keeps it ordered |
| ShopPage.SortByPrice | packages/frontend/src/pages/main/ShopPage.tsx:219-223 | a permutation of the input: non-decreasing in price for 'asc', non-increasing for 'desc', and the input unchanged for '' |
| ShopPage.FilteredProducts | packages/frontend/src/pages/main/ShopPage.tsx:212-224 | every product shown is in the selected category (or the selection is 'all') and has a lower-cased title containing the lower-cased search; every such catalogue product is shown as many times as the catalogue holds it; prices are ordered as selected; with no sort the catalogue order is kept |
| ShopPage.ShowAllByDefault | packages/frontend/src/pages/main/ShopPage.tsx:212-224 | category 'all', an empty search and no sort show the whole catalogue in order |
| ShopPage.SearchIgnoresCase | packages/frontend/src/pages/main/ShopPage.tsx:217 | a search term and its lower-cased form show the same list |
| ShopPage.CategoriesOf | packages/frontend/src/pages/main/ShopPage.tsx:43 | the category of each product, position by position |
| ShopPage.Categories | packages/frontend/src/pages/main/ShopPage.tsx:43-44 | no category repeats, every category listed belongs to some product, and every product's category is listed |
| ShopPage.Shifted | packages/frontend/src/pages/main/ShopPage.tsx:148-150 | every item with the id has its quantity moved by the given amount; the other items are untouched |
| ShopPage.HandleIncrease | packages/frontend/src/pages/main/ShopPage.tsx:154-169 | with no item or no product under the id, or the first item at or above that product's stock, the cart is unchanged; otherwise every item with the id gains one and no other item changes |
| ShopPage.IncreaseWithinStock | packages/frontend/src/pages/main/ShopPage.tsx:157-163 | when line ids are distinct, an item within the product's stock stays within it after an increase |
| ShopPage.HandleDecrease | packages/frontend/src/pages/main/ShopPage.tsx:146-152 | every item with the id loses one and keeps every other field, and no item is removed; the other items are untouched |
| ShopPage.DecreaseUndoesIncrease | packages/frontend/src/pages/main/ShopPage.tsx:146-169 | an increase allowed by the stock followed by a decrease gives the cart back |
| ShopPage.DecreaseAtOneKeepsItem | packages/frontend/src/pages/main/ShopPage.tsx:146-152 | at quantity one the page keeps the item with quantity zero, while the store's reducer removes it |
| ShopPage.RemoveFromCartIdempotent | packages/frontend/src/pages/main/ShopPage.tsx:139-144 | the page's filter removes every item with the line id, so a second removal changes nothing |
| ShopPage.HandleAddToCart | packages/frontend/src/pages/main/ShopPage.tsx:88-107 | "sold out" exactly when the product is missing or has stock 0; otherwise "log in" exactly when nobody is logged in; otherwise a request for one unit of that product |

## Left out

- File persistence (`readJSON`/`writeJSON` in `packages/backend/database/db.js`). Each collection is an in-memory sequence, and a missing or empty file is the initial empty state. A file that fails to parse is not modelled.
- Concurrency. Two requests that read the same file and both write it back leave only the last write. The model handles one request at a time, and it also leaves out the async sequencing of thunks and page handlers.
- Password hashing (bcrypt, with its random salt). It is the parameter `hash`. Nothing is proved about it.
- Token verification (`packages/backend/security/authentication.js`) and the routes. They are plumbing around external libraries. The caller's id is a parameter taken as the client sends it (`req.body.userId` for the shopper handlers, `req.params.sellerId` for the seller handlers); no handler compares it with the verified token, so `CartWithout`, `OwnedIndex` and the other ownership checks trust an id the client supplies.
- HTTP status codes and response bodies. Each handler answers with a `Result` whose error kind names the failure.
- The thunks of the three stores (network calls, reading the session token, role checks before the call) and the auth store, which writes browser storage.
- Floating point. `parseFloat`/`parseInt` of request strings, `NaN` (including from a missing purchase quantity) and fractional prices are not modelled; prices and quantities are integers.
- JavaScript loose equality and `parseInt` of route parameters. Both are integer equality.
- `toLowerCase` outside ASCII. Only `A`-`Z` are lower-cased.
- The shopper's `getProducts` handler, which returns the stored catalogue unchanged and has nothing to state.
- The nested product snapshot inside cached cart and wishlist items. No reducer or page handler reads it.
- A `null` product quantity in the sold-out guard of `handleAddToCart`. A purchase without a quantity stores `NaN`, which the file stores as `null`; stock is an integer in this model, a choice that goes with leaving out floating point, so that branch of the guard has no counterpart.
- `handleAddToWishlist`, `handleCheckout` and `handleCheckQuantity` on the shop page. They are sequences of network calls, toasts and refetches with no list logic beyond what the store reducers model.
- Uniqueness of cart-line and product ids. `carts.length + 1` and `products.length + 1` can collide after a removal that does not renumber. `SellerControl.AddAfterDeleteReusesId` exhibits the product case.
- ShopPage.SortByPrice and ShopPage.FilteredProducts: stability is stated only for the empty sort selection (the input order is kept). For 'asc' and 'desc' the order of equal prices is not stated, although the insertion sort keeps it.
- RemoveFromCartFulfilled: modelled as the reducer given a payload with a `cartId`. The server's answer to a cart removal carries no `cartId`, so in the running application the filter keeps every item; the request side is not part of this model.
- RemoveFromWishlistFulfilled: modelled as the reducer given a payload with an `updatedWishlist`. The server's answer to a wishlist removal has no `wishlist` field, so the real payload's list is undefined; the request side is not part of this model.
- EditUserFulfilled: modelled as the reducer given an account as payload. The real request resolves to `{message, user, status, ok}`, which has no top-level `id`, so no account is replaced; the request side is not part of this model.
