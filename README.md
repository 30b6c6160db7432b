# LegoLand storefront state model

A Dafny model of the state logic of a browser-only storefront (`js/app.js`).
The storefront keeps four slots in the browser's key-value storage: the
product catalog, the cart, the session user and the order list. Every page
reads some slots, changes an in-memory copy, and writes the slots back.

The model keeps that shape:

- `Storage` is the store as an abstract map from the four keys to typed values.
  It has `getStored` (`Stored`, which falls back when a key is absent),
  `setStored` (`Put`), the typed readers and `ensureData`.
- `CartEngine` holds the cart rules over sequences of lines:
  - add with merge-or-append and a price snapshot;
  - remove by filtering;
  - set a quantity with a floor of 1;
  - the badge count and the cart total.
- `OrderEngine` builds an order at checkout, including the acting user. It also
  holds the admin's status update, which matches `String(order.id)` through
  `DecimalString`.
- `Forms` holds the records built from submitted forms: a new catalog product
  from the admin's product form and the session user from the login form.
- `Views` holds the data each renderer derives: product detail, latest order,
  the profile's last three own orders, and the admin analytics.
- `Storefront.Shop` is a class that owns the store. It has one method per handler
  (`ensureData`, `addToCart`, remove, quantity, checkout, status, admin product,
  login). Each method reads, mutates a local copy and writes back in the source's
  order. Its `ensures` give the whole new store in terms of the old one.
- `JsArray` models the Array built-ins the code uses: `find`/`findIndex`,
  `filter`, `reduce` as a left-fold sum, and `slice(-n)`.

Money is in integer cents (54.99 is 5499), and ratings are in tenths of a star.
The class invariant `Shop.Valid()` has two parts:
- every slot holds its own kind of value;
- every cart line has quantity at least 1, and no two lines share an id.

Every handler keeps it.

The functions that define the operations have no `ensures` of their own; the
lemmas below state what they do:
- `Storage.Stored` models js/app.js:79-82.
- `CartEngine.AddToCart`, `RemoveLine`, `SetQuantity`, `CartTotal` and `BadgeCount`
  model js/app.js:141-160, 433, 443-445, 194/293 and 116.
- `OrderEngine.ActingUser`, `NewOrder` and `UpdateStatus` model js/app.js:283-298
  and 410-412.
- `Forms.NewProduct` models js/app.js:390-400 and `Forms.LoginUser`
  models js/app.js:420-424.
- `Views.LatestOrder` models js/app.js:311-313.

## Model

| member | source | states |
|---|---|---|
| `Storage.KeyNamesDistinct` | js/app.js:1-6 | the four slots are stored under four distinct names |
| `Storage.Put` | js/app.js:84-86 | writing a key adds it, keeps every other key's value, and keeps the store well typed when the value has the key's kind |
| `Storage.StoredAfterPut` | js/app.js:79-86 | reading a key after writing it returns the written value whatever the fallback; other keys read as before |
| `Storage.Products` | js/app.js:100 | the stored catalog, or `[]` when the slot is absent |
| `Storage.Cart` | js/app.js:103 | the stored cart, or `[]` when the slot is absent |
| `Storage.CurrentUser` | js/app.js:106 | the stored user, or none exactly when the user slot is absent |
| `Storage.Orders` | js/app.js:109 | the stored orders, or `[]` when the slot is absent |
| `Storage.EnsureData` | js/app.js:88-98 | only absent product, cart and order slots are written (demo catalog, `[]`, `[]`); present slots keep their values; the user slot is neither created nor removed |
| `Storage.EnsureDataIdempotent` | js/app.js:88-98 | seeding twice gives the same store as seeding once |
| `Storage.EnsureDataReads` | js/app.js:88-98 | after seeding, the catalog reads as before or as the six demo products; cart, orders and user read as before |
| `Entities.FindProduct` | js/app.js:143 | the index of the first catalog product with the id, or none when no product has it |
| `Entities.DecimalString` | js/app.js:391 | `String(n)`: a non-empty string of decimal digits, one digit exactly for n < 10 |
| `Entities.DecimalStringInjective` | js/app.js:410 | two numbers print the same exactly when they are equal |
| `JsArray.FindIndex` | js/app.js:146 | `find` returns the first element satisfying the predicate, or none when no element does |
| `JsArray.Filter` | js/app.js:433 | `filter` keeps exactly the elements satisfying the predicate |
| `JsArray.FilterConcat` | js/app.js:433 | filtering a concatenation is the concatenation of the filtered parts, so order is preserved |
| `JsArray.SumConcat` | js/app.js:116 | a `reduce` sum over a concatenation is the sum of the parts |
| `JsArray.SumUpdate` | js/app.js:148 | replacing one element changes the sum by exactly the change of that term |
| `JsArray.TakeLast` | js/app.js:249 | `slice(-n)` for n of at least 1 is the suffix of length min(n, length) |
| `CartEngine.FindLine` | js/app.js:146 | the index of the first cart line with the id, or none when no line has it |
| `CartEngine.ClampQuantity` | js/app.js:445 | `Math.max(1, value)`: at least 1, the value itself when it is at least 1, else 1 |
| `CartEngine.AddUnknownProduct` | js/app.js:141-144 | an id missing from the catalog leaves the cart unchanged |
| `CartEngine.AddExistingLine` | js/app.js:146-148 | for an id already in the cart, the first such line gains exactly one unit and keeps its price snapshot, name and image; all other lines are unchanged |
| `CartEngine.AddNewLine` | js/app.js:149-157 | for a catalog id not in the cart, one line is appended with the product's id, name, current price and image and quantity 1; the earlier lines are unchanged |
| `CartEngine.AddTwice` | js/app.js:141-157 | adding a product twice to a cart without its line gives one line of quantity 2 at the product's price |
| `CartEngine.AddKeepsValid` | js/app.js:141-157 | adding keeps every quantity at least 1 and every line id unique |
| `CartEngine.AddRaisesBadgeByOne` | js/app.js:141-159 | a successful add raises the badge count by exactly 1 |
| `CartEngine.AddRaisesTotalByOnePrice` | js/app.js:146-157 | a successful add raises the cart total by the line's snapshot price, or by the product's current price for a new line |
| `CartEngine.RemoveLineContents` | js/app.js:430-434 | after removal no line has the id, and every line with another id is still present |
| `CartEngine.RemoveLineKeepsOrder` | js/app.js:433 | removal works part by part, so the remaining lines keep their relative order |
| `CartEngine.RemoveAbsentLine` | js/app.js:433 | removing an id no line has leaves the cart unchanged |
| `CartEngine.RemoveKeepsValid` | js/app.js:433 | removal keeps quantities at least 1 and ids unique |
| `CartEngine.RemoveLowersSums` | js/app.js:433-436 | with unique ids, removing a line lowers the badge by its quantity and the total by its price times quantity |
| `CartEngine.SetQuantityChangesOneLine` | js/app.js:440-446 | only the first line with the id changes, only in its quantity, to max(1, value), so it is never below 1; all other lines are unchanged |
| `CartEngine.SetQuantityAbsentLine` | js/app.js:443-444 | an id no line has leaves the cart unchanged |
| `CartEngine.SetQuantityKeepsValid` | js/app.js:445 | setting a quantity keeps quantities at least 1 and ids unique |
| `CartEngine.BadgeCountBounds` | js/app.js:116 | when every quantity is at least 1, the badge is at least the number of lines, and it is 0 exactly for the empty cart |
| `OrderEngine.OrderId` | js/app.js:291 | `Math.floor(Math.random() * 90000 + 10000)` is a five-digit id between 10000 and 99999 |
| `OrderEngine.NewOrderSnapshotsCart` | js/app.js:290-298 | the order's items are the cart, its total is the sum of price × quantity, its status is "Processing" (one of the selector's choices), its shipping is the form, and its email is the stored user's or the form's |
| `OrderEngine.ActingUserChoice` | js/app.js:283-287 | the acting user is the stored user when there is one, else a "shopper" with the form's full name and email |
| `OrderEngine.FindOrder` | js/app.js:410 | the first order whose printed id equals the selector, or none when no order's does |
| `OrderEngine.FindOrderById` | js/app.js:410 | the selector `String(id)` finds an order exactly when one has that id, and finds the first such order |
| `OrderEngine.UpdateStatusChangesOneField` | js/app.js:409-414 | only the first matching order changes, and only its status, to whatever value was chosen |
| `OrderEngine.UpdateStatusNoMatch` | js/app.js:410-411 | a selector matching no order leaves the orders unchanged |
| `OrderEngine.UpdateStatusKeepsTotals` | js/app.js:409-414 | a status change keeps every order's items and total, and so the revenue |
| `Forms.NewProductId` | js/app.js:390-391 | an admin product id is "ll-" followed by digits, never equal to a demo product's id, and equal to another admin product's id only when the two timestamps are equal |
| `Views.ProductDetail` | js/app.js:198-208 | the first product with the id, or not found exactly when no product has that id |
| `Views.LatestOrderIsLastAppended` | js/app.js:311-316 | the confirmation shows the order appended last, and nothing when there are no orders |
| `Views.RecentOrders` | js/app.js:238-249 | at most 3 orders, each one the user's and held in storage |
| `Views.ProfileView` | js/app.js:228-249 | a sign-in prompt exactly when there is no user, else the user and their recent orders |
| `Views.RecentOrdersAreLastThreeOwn` | js/app.js:238-249 | the profile lists the last min(3, n) of the user's n orders, in storage order |
| `Views.RecentOrdersOfOwnHistory` | js/app.js:248-249 | when every order is the user's, the profile shows exactly the last three, or all of them when there are fewer |
| `Views.RecentOrdersEndWithNewest` | js/app.js:238-249 | an order just appended for an email is the last one that email's profile lists |
| `Views.AdminAnalytics` | js/app.js:373-380 | the order count, revenue as the sum of order totals, and the average basket: 0 with no orders, else revenue / count rounded down to a cent |
| `Views.RevenueAfterAppend` | js/app.js:374 | appending an order raises revenue by exactly its total and the count by 1 |
| `Views.AnalyticsOfThreeOrders` | js/app.js:374-380 | totals 10, 20 and 30 give revenue 60 and average basket 20 |
| `Storefront.Shop.SetStored` | js/app.js:84-86 | the store afterwards is the old store with that key set to that value |
| `Storefront.Shop.EnsureData` | js/app.js:88-98 | the store becomes the seeded store; the user slot is present exactly when it was before |
| `Storefront.Shop.AddToCart` | js/app.js:141-160 | nothing is written for an unknown product id; otherwise only the cart slot is rewritten, to the merged-or-appended cart |
| `Storefront.Shop.RemoveFromCart` | js/app.js:430-438 | only the cart slot is rewritten, to the old cart without the id's lines |
| `Storefront.Shop.ChangeQuantity` | js/app.js:440-450 | nothing is written when no line has the id; otherwise only the cart slot is rewritten, with that line's quantity clamped |
| `Storefront.Shop.Checkout` | js/app.js:273-306 | rejects an empty cart and writes nothing. Otherwise it stores the acting user and appends exactly one order, last. The order's items are the old cart, its total is their sum, its status is "Processing" and its email is the acting user's. The cart is emptied and the catalog is unchanged |
| `Storefront.Shop.SetOrderStatus` | js/app.js:406-415 | nothing is written when no order matches; otherwise only the orders slot is rewritten, with the first match's status changed |
| `Storefront.Shop.AddProduct` | js/app.js:386-404 | the catalog is saved with exactly one new product appended last; other slots are unchanged |
| `Storefront.Shop.Login` | js/app.js:417-427 | the session user becomes the submitted name, email and role; other slots are unchanged |
| `Storefront.RocketScenario` | js/app.js:273-306 | seeding a fresh store, adding the rocket twice and checking out gives one order of 109.98 in "Processing" with one line of quantity 2 |

## Left out

- Rendering: HTML template strings, `innerHTML`/`textContent` and `querySelector` are not modelled. Each renderer is reduced to the data it derives. `renderProductCards`, `renderCart` and `renderCheckoutSummary` show the catalog in storage order and the cart lines with `CartTotal`, so they have no model of their own.
- `formatPrice`/`toFixed` and floating-point prices are left out. Money is integer cents and ratings are tenths, so 54.99 + 54.99 is exactly 10998.
- `localStorage` and JSON serialization are left out; the store is an abstract map. The empty-string case of `raw ? … : fallback` cannot occur, because `setStored` always writes a JSON text, so only an absent key falls back. The model holds only well-typed slots. A stored text that is corrupt or of another shape is not modelled: the code does not recover from it, since `JSON.parse` would throw.
- `Math.random`, `new Date().toISOString()` and `Date.now()` are parameters: a real in [0, 1), a timestamp string and a natural number. Real arithmetic stands in for the floating-point computation of the order id.
- `FormData` parsing is left out; forms are maps from field name to string. A field the form lacks reads as the empty string, where JavaScript would give `undefined`.
- `Number()` coercion is left out. Quantity, price and stock are integer inputs, so NaN and fractional quantities are not modelled.
- Browser plumbing is left out: `alert`, navigation through `window.location`, `preventDefault`/`reset`, the `closest(...)` target checks, `updateCartBadge`'s DOM part, `handleAddButtons` dispatch and the listener wiring in `initPage`.
- Views.AdminAnalytics: the average basket is rounded down to a whole cent. The page divides floats and then rounds with `toFixed(2)`.
- The race between browser tabs is left out. Each "read slot, change, write slot" runs as one step; the store has no concurrent writers.
- The code does less than a reader might expect, and the model follows the code:
  - `getStored` has no recovery from unparseable data.
  - Order statuses are any string, not a fixed enumeration.
  - Product ids are not checked for uniqueness.
  - Order ids may collide.
