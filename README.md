# Cart store and order builder of the Omnex storefront, in Dafny

This project models the client-side cart of the Omnex Tech storefront (`js/app.js`) and proves properties of it:

- `CartManager` is the cart store. It holds an ordered list of line items keyed by product id. `addItem` merges a product into the row that has its id, or appends a new row. `removeItem` filters an id out. `updateQuantity` sets a row's quantity, clamped to at least 1. `clearCart` empties the list. Every change is written through to browser storage.
- The read-outs are reductions over the list: the total (Σ price × quantity), the item count (Σ quantity), the two-tier shipping rate (100 domestic, 500 otherwise) and the grand total.
- `OrderManager.prepareOrder` builds the order record from a cart snapshot, a shipping address and a payment transaction id.

Files:

- `wrappers.dfy`: module `Wrappers`, the `Option` type. `None` stands for JavaScript's `undefined`.
- `cart_model.dfy`: module `CartModel`. It holds the line-item type, the id lookup (`find`), the pure updates that specify each mutator (`Added`, `Removed`, `QuantityUpdated`), the read-outs and the shipping tier, and the lemmas about them.
- `cart_store.dfy`: module `CartStore`, the class `CartManager`. Its field `cart: seq<LineItem>` is reassigned by the methods. Each method's postcondition ties the new cart to the pure update of the old one. It also says the id-uniqueness and positive-quantity invariants are kept.
- `orders.dfy`: module `Orders`, the order record and `PrepareOrder`.

Modelling choices:

- Prices and quantities are integers, for example whole rupees. The source uses JavaScript floating-point numbers. This is a deliberate departure, so that the sums are exact.
- `getShippingCost` reads nothing from the cart. It is therefore the pure function `CartModel.ShippingCost`, and `prepareOrder` calls it directly instead of going through the global `cartManager`.
- The country is an `Option<string>`. Both `None` (absent) and `Some("")` count as "no country", as `!country` does in the source.
- `toLowerCase` lower-cases ASCII letters only.
- Storage is a ghost field `stored`: the value last written under `"omnex-cart"`. The constructor receives what storage held as a parameter (`None` when nothing was stored).
- Both clock reads in `prepareOrder` are parameters. `Date.now()` becomes `now: nat`, and `new Date().toISOString()` becomes `timestamp: string`.
- The mutators assume nothing about the cart. `find` picks the FIRST row with the id and `filter` drops ALL rows with it, exactly as in the source. Unique ids and positive quantities are stated as invariants that each mutator keeps.
- The source's `getTotal`, `getItemCount` and `getCart` become the class functions `GetTotal`, `GetItemCount` and `GetCart`. They return `Total(cart)`, `ItemCount(cart)` and `cart`, so the rows below state their properties on `Total` and `ItemCount`.

## Model

| member | source | states |
|---|---|---|
| `CartModel.FindIndex` | js/app.js:20 | `find` by id: None exactly when no row has the id; otherwise the index of a row with that id such that no earlier row has it |
| `CartModel.Total` | js/app.js:47-49 | the sum of price × quantity; it is non-negative when every price and quantity is |
| `CartModel.TotalAppend` | js/app.js:48 | the total of the empty cart is 0, and the total of a concatenation is the sum of the totals |
| `CartModel.TotalReplace` | js/app.js:48 | changing one row changes the total by exactly the difference of that row's old and new subtotal |
| `CartModel.ItemCount` | js/app.js:51-53 | with positive quantities, the count is at least the number of rows, and it is 0 exactly when the cart is empty |
| `CartModel.ItemCountAppend` | js/app.js:52 | the count of the empty cart is 0, and the count of a concatenation is the sum of the counts |
| `CartModel.ItemCountReplace` | js/app.js:52 | changing one row changes the count by exactly the difference of its old and new quantity |
| `CartModel.Added` | js/app.js:19-25 | an existing id: the length is kept, the first row with that id gains `q` units, every other row is unchanged. A new id: exactly one row is appended at the end with the product's id, name, price and quantity `q`, and the earlier rows keep their order. The id is present afterwards, and the item count grows by `q` |
| `CartModel.AddedKeepsUniqueIds` | js/app.js:20-24 | addItem keeps ids unique |
| `CartModel.AddedKeepsPositiveQuantities` | js/app.js:21-24 | addItem with a quantity ≥ 1 keeps every quantity ≥ 1 |
| `CartModel.TotalAdded` | js/app.js:19-25 | addItem raises the total by `q` times the row's price. A merged row keeps its own stored price, not the product's |
| `CartModel.SubtotalAddQuantity` | js/app.js:22 | incrementing a row's quantity by `q` raises its subtotal by `q` times its price |
| `CartModel.AddedTwice` | js/app.js:19-25 | adding a product with `q1` and then `q2` is the same as adding it once with `q1 + q2`. For an id not in the cart, this yields a single appended row with quantity `q1 + q2` |
| `CartModel.Removed` | js/app.js:30-31 | no row with the id remains. A row survives exactly when it was in the cart and has another id. The cart never grows. When the id is absent, the cart is unchanged |
| `CartModel.RemovedAppend` | js/app.js:31 | filtering distributes over concatenation, so the surviving rows keep their relative order |
| `CartModel.RemovedKeepsUniqueIds` | js/app.js:31 | removeItem keeps ids unique |
| `CartModel.MemberHasId` | js/app.js:31 | a row in the cart makes its id present |
| `CartModel.UniqueCons` | js/app.js:31 | putting a row with a fresh id in front of a cart with unique ids keeps the ids unique |
| `CartModel.RemovedKeepsPositiveQuantities` | js/app.js:31 | removeItem keeps every quantity ≥ 1 |
| `CartModel.RemovedFromUnique` | js/app.js:30-31 | in a cart with unique ids, removing a present id deletes exactly that one row at its index, and the count and total drop by that row's quantity and subtotal |
| `CartModel.ClampQuantity` | js/app.js:38 | `Math.max(1, q)`: the result is ≥ 1 and ≥ `q`, and it is either `q` or 1 |
| `CartModel.QuantityUpdated` | js/app.js:35-38 | the length is kept. With a matching id, the first such row gets quantity `max(1, q)` and every other row is unchanged. Without one, nothing changes. Ids, names and prices never change |
| `CartModel.QuantityUpdatedKeepsUniqueIds` | js/app.js:36-38 | updateQuantity keeps ids unique |
| `CartModel.QuantityUpdatedKeepsPositiveQuantities` | js/app.js:38 | for any `q`, even a non-positive one, updateQuantity keeps every quantity ≥ 1 |
| `CartModel.ItemCountQuantityUpdated` | js/app.js:35-38 | the count moves from the row's old quantity to `max(1, q)` |
| `CartModel.ToLowerAscii` | js/app.js:58 | lower-casing keeps the length and maps each character through ASCII lower-casing |
| `CartModel.ToLowerAsciiIdempotent` | js/app.js:58 | lower-casing twice is the same as lower-casing once |
| `CartModel.ShippingCost` | js/app.js:55-59 | the result is 100 or 500. It is 100 exactly when the country is absent, empty, or lower-cases to "india" |
| `CartModel.ShippingCostIgnoresCase` | js/app.js:58 | the tier depends only on the lower-cased country name |
| `CartModel.ShippingCostExamples` | js/app.js:55-59 | an absent country, "India" and "INDIA" cost 100; "USA" costs 500 |
| `CartStore.CartManager.constructor` | js/app.js:4-12 | starts from the persisted cart when storage holds one, otherwise from the empty cart |
| `CartStore.CartManager.SaveCart` | js/app.js:14-17 | storage then holds the current cart, and the cart is untouched |
| `CartStore.CartManager.AddItem` | js/app.js:19-28 | the new cart is `Added(old cart, product, quantity)`, with `quantity` defaulting to 1, and it is persisted. The count grows by `quantity` and the total by `quantity` times the row's price. Unique ids are kept, and so are positive quantities when `quantity` ≥ 1 |
| `CartStore.CartManager.RemoveItem` | js/app.js:30-33 | the new cart is `Removed(old cart, id)`, and it is persisted. It is unchanged when the id is absent. Unique ids are kept, and so are positive quantities |
| `CartStore.CartManager.UpdateQuantity` | js/app.js:35-41 | the new cart is `QuantityUpdated(old cart, id, quantity)`. It is persisted only when the id was present; otherwise neither the cart nor storage changes. Unique ids are kept, and so are positive quantities |
| `CartStore.CartManager.ClearCart` | js/app.js:65-68 | the cart becomes empty and the empty cart is persisted. The total and item count are then 0 |
| `CartStore.CartManager.GetGrandTotal` | js/app.js:61-63 | the grand total exceeds the cart total by exactly the shipping cost for the country, so by 100 or 500 |
| `Orders.DigitChar` | js/app.js:123 | the character for a digit below 10 is a decimal digit that denotes it |
| `Orders.Decimal` | js/app.js:123 | the decimal rendering of the clock reading is non-empty, made of digits only, and has no leading zero |
| `Orders.DecimalRoundTrip` | js/app.js:123 | reading the rendered digits back gives the number |
| `Orders.OrderId` | js/app.js:123 | the id is "ORD-" followed by digits that denote the clock reading |
| `Orders.OrderIdInjective` | js/app.js:123 | orders prepared at different milliseconds get different ids |
| `Orders.OrderItems` | js/app.js:125-131 | one order entry per cart row |
| `Orders.SumSubtotalsIsTotal` | js/app.js:119-132 | the entry subtotals add up to the cart total |
| `Orders.PrepareOrder` | js/app.js:118-143 | the subtotal is the cart total. The shipping cost is the tier for the address country, and the total is subtotal + shipping cost. The items match the cart in length and order, with id, name, price and quantity copied and their subtotal equal to price × quantity; the item subtotals add up to the subtotal. The region is "India" exactly when the country is exactly "India", and "International" otherwise. The payment is "UPI/QR", the given transaction id, and "pending". The shipping field is the address, and the id and timestamp come from the clock parameters |
| `Orders.IndiaRegionShipsDomestic` | js/app.js:120-134 | a region of "India" always comes with the domestic rate |
| `Orders.RegionAndShippingDisagree` | js/app.js:120-134 | the converse fails. A country of "INDIA", or no country at all, gives region "International" but the domestic rate, because the region test is case-sensitive and the shipping test is not |
| `Orders.IndiaOrderTotal` | js/app.js:118-142 | an order to "India" pays subtotal + 100 and has region "India" |

## Left out

- Extra product fields beyond id, name and price: `{ ...product, quantity }` copies every field of the product. They are not modelled.
- Aliasing: the source's rows are shared objects, and `getCart` hands out the live array. The model works on values instead. A caller that mutates the returned array or its rows is not modelled.
- `loadCart` parse failures: malformed stored JSON makes `JSON.parse` throw. Stored data is given to the constructor already parsed.
- JSON serialisation in `saveCart`, and everything else about `localStorage`: storage is the ghost snapshot `stored`.
- `updateCartBadge` and `showNotification`: DOM effects. Their calls in the constructor and the mutators are omitted, and they have no state here.
- `addItem` does not validate `quantity`, so a zero or negative quantity can leave a row at 0 or below. The model keeps this. Positivity is proved only for quantities ≥ 1.
- Floating-point arithmetic: totals are exact integers here. In the source they are double-precision sums.
- `toLowerCase` beyond ASCII: the model lower-cases A–Z only and leaves every other character as it is.
- `ProductManager.loadProducts` and `getProduct`: network fetches of the catalogue.
- `CheckoutManager.saveAddress` and `getAddress`: `localStorage` I/O.
- `OrderManager.submitOrder`: an HTTP POST with logging.
- `prepareOrder` with a `null` address: it would throw a `TypeError` when reading `address.country`. Here the address is always a value.
- Non-string countries such as `0` or `null`: only absent or string countries are modelled.
- Construction of the global singletons, and the `DOMContentLoaded` wiring: page-level glue.
