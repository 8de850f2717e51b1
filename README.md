# Cart store of the storefront, in Dafny

This project models the client-side cart store of the storefront
(`src/utils/cartUtils.js`). It also proves properties of that model.

The store keeps an ordered list of line items
`{id, name, image, price, description, quantity}` under one fixed
local-storage key, `cloudmart_cart`. Every change is a read, a modify, a save
and a `cartUpdated` notification. The operations are:

- `addToCart` raises the quantity of the existing line by one, or appends a new line with quantity 1.
- `removeFromCart` filters out the lines with an id.
- `updateCartItemQuantity` sets a quantity. It ignores values below 1 and ids that no line has.
- `clearCart` saves the empty list.
- `getCartItemsCount` and `getCartTotal` are folds over the list.

Layout:

- `cart_lines.dfy`, module `CartLines`: the `Product` and `LineItem` datatypes. It also holds the pure list transformations each operation applies (`FindLine`, `AddLine`, `RemoveLines`, `UpdateQuantity`), the invariants `IdsDistinct` and `QuantitiesPositive` (together `WellFormed`), and the lemmas about them.
- `cart_totals.dfy`, module `CartTotals`: the source's two `reduce` calls written as accumulator folds (`ReduceCount`, `ReduceTotal`). It also holds the sums `Count` and `Total`, which are proved equal to those folds, and how each operation changes them.
- `cart_utils.dfy`, module `CartUtils`: class `CartStore`. The field `stored` is the value under the storage key; `None` means the key is absent. The field `notifications` counts the `cartUpdated` events dispatched. There is one method per exported function. Two client methods replay a session that adds, updates, removes and clears.

Modelling choices:

- Ids are `int`. The source compares them with `===` / `!==`.
- Prices are integer cents, not floating-point numbers.
- Quantities are `int`.
- The methods accept any stored list, because the source does not check what it reads back. Each mutating method promises that a well-formed list stays well-formed.
- The source's `find`, `filter` and `reduce` are library calls, not hand-written loops. They are modelled as recursive functions: `find` picks the first match, `filter` removes every match.

Two behaviours of the code that a reader might not expect, both kept in the model:

- `removeFromCart` with an absent id still saves the list and sends a notification. The list itself is unchanged.
- A stored value that is not valid JSON is not turned into an empty cart. `JSON.parse` would throw. The model only has "absent" (empty list) and "a list".

## Model

| member | source | states |
|---|---|---|
| CartLines.FindLine | src/utils/cartUtils.js:18 | the result is None exactly when no line has the id; otherwise it is the position of the first line with that id |
| CartLines.AddLine | src/utils/cartUtils.js:16-24 | with the id absent, the result is the list with the product's line (quantity 1) appended; with the id present, it has the same length, the first matching line gains exactly one unit, and every other line is unchanged |
| CartLines.AddAbsentAppends | src/utils/cartUtils.js:22-23 | adding a new product appends exactly one line at the end, built from the product's own fields with quantity 1; the earlier prefix is unchanged |
| CartLines.AddPresentIncrements | src/utils/cartUtils.js:18-21 | in a cart with distinct ids, adding a product that is present raises that line's quantity by 1 and keeps its snapshot fields; length, order, the other lines and the set of ids are unchanged |
| CartLines.AddPreservesWellFormed | src/utils/cartUtils.js:18-24 | adding keeps "no two lines share an id" and "every quantity at least 1" |
| CartLines.RemoveLines | src/utils/cartUtils.js:32 | the ids of the result are exactly the old ids minus the removed id, and the result is no longer than the input |
| CartLines.RemoveMultiplicities | src/utils/cartUtils.js:32 | every line with the id is gone, and every other line occurs exactly as often as before |
| CartLines.RemoveAbsentUnchanged | src/utils/cartUtils.js:30-34 | removing an id that no line has returns the list unchanged |
| CartLines.RemoveDistributes | src/utils/cartUtils.js:32 | removal distributes over concatenation, so kept lines keep their relative order |
| CartLines.RemoveSingle | src/utils/cartUtils.js:32 | a single line is kept exactly when its id differs from the removed id |
| CartLines.RemoveIdempotent | src/utils/cartUtils.js:30-34 | removing the same id twice gives the same list as removing it once |
| CartLines.RemoveKeepsOriginals | src/utils/cartUtils.js:32 | every line that removal keeps comes from the original list and has a different id |
| CartLines.RemovePreservesWellFormed | src/utils/cartUtils.js:30-34 | removal keeps both cart invariants |
| CartLines.UpdateQuantity | src/utils/cartUtils.js:37-46 | nothing is produced (no save) exactly when the quantity is below 1 or no line has the id; otherwise the length is the same, the first matching line gets exactly the new quantity, and every other line is unchanged |
| CartLines.UpdateBelowOneRejected | src/utils/cartUtils.js:38 | a quantity below 1 is rejected for every cart and id |
| CartLines.UpdateSetsLine | src/utils/cartUtils.js:41-45 | in a cart with distinct ids, an update with quantity at least 1 and a present id sets that line's quantity and changes nothing else |
| CartLines.UpdatePreservesWellFormed | src/utils/cartUtils.js:37-46 | an accepted update keeps both cart invariants |
| CartTotals.Count | src/utils/cartUtils.js:50-53 | the recursive sum of quantities equals the left-to-right `reduce` that starts at 0 and adds each line's quantity to the running total (`ReduceCount`) |
| CartTotals.Total | src/utils/cartUtils.js:56-62 | the recursive sum of price times quantity equals the left-to-right `reduce` that starts at 0 and adds each line's price times quantity (`ReduceTotal`) |
| CartTotals.ReduceShift | src/utils/cartUtils.js:50-62 | a running total started at any accumulator ends exactly that accumulator above one started at 0, for both folds |
| CartTotals.AggregatesAppend | src/utils/cartUtils.js:50-62 | count and total each split over concatenation |
| CartTotals.AggregatesReplace | src/utils/cartUtils.js:50-62 | replacing one line changes count and total by exactly that line's difference |
| CartTotals.EmptyAggregates | src/utils/cartUtils.js:52-60 | count and total of the empty cart are 0 (the folds start at 0) |
| CartTotals.CountBounds | src/utils/cartUtils.js:50-53 | with positive quantities, the count is at least the number of lines, and it is 0 exactly when the cart is empty |
| CartTotals.TotalNonNegative | src/utils/cartUtils.js:56-62 | with non-negative prices and positive quantities, the total is non-negative |
| CartTotals.AddAggregates | src/utils/cartUtils.js:16-27 | an add raises the count by exactly 1; it raises the total by the existing line's snapshot price, or the new product's price |
| CartTotals.RemoveAggregates | src/utils/cartUtils.js:30-34 | in a cart with distinct ids, a removal lowers count and total by exactly the removed line's quantity and price share, and by 0 if the id is absent |
| CartTotals.UpdateAggregates | src/utils/cartUtils.js:37-47 | an accepted update replaces the matching line's units by the new quantity in both the count and the total |
| CartUtils.CartStore.constructor | src/utils/cartUtils.js:4-6 | a store starts with what the profile already holds under the key, and with no notifications sent |
| CartUtils.CartStore.GetCartItems | src/utils/cartUtils.js:4-7 | reading with nothing stored gives the empty list; otherwise it gives exactly the stored list |
| CartUtils.CartStore.SaveCartItems | src/utils/cartUtils.js:10-13 | a save stores exactly the given list (a later read returns it in the same order) and sends exactly one notification |
| CartUtils.CartStore.AddToCart | src/utils/cartUtils.js:16-27 | the new contents are the add transformation of the old contents; the list is saved; exactly one notification is sent; the count rises by 1; well-formedness is kept |
| CartUtils.CartStore.RemoveFromCart | src/utils/cartUtils.js:30-34 | the new contents are the old ones without the id's lines; the list is saved and notified even when the id is absent, and then the contents are unchanged; well-formedness is kept |
| CartUtils.CartStore.UpdateCartItemQuantity | src/utils/cartUtils.js:37-47 | with quantity below 1, or no matching id, the stored value and the notification count are untouched; otherwise the updated list is stored with exactly one notification; well-formedness is kept |
| CartUtils.CartStore.GetCartItemsCount | src/utils/cartUtils.js:50-53 | the result is the sum of quantities of the current contents, and with positive quantities it is at least the number of lines |
| CartUtils.CartStore.GetCartTotal | src/utils/cartUtils.js:56-62 | the result is the sum of price times quantity over the current contents |
| CartUtils.CartStore.ClearCart | src/utils/cartUtils.js:65-66 | the empty list is stored with one notification; afterwards count and total are 0 |
| CartUtils.AddScenario | src/utils/cartUtils.js:16-27 | on a fresh profile, adding products 1, 2, 1 leaves lines [1 with quantity 2, 2 with quantity 1]; count is 3 and total is 25 |
| CartUtils.UpdateScenario | src/utils/cartUtils.js:37-69 | from that cart: a quantity of 0 is ignored; setting product 2's quantity to 5 makes the total 45; removing 1 and then clearing leaves the empty list, after exactly three notifications |

## Left out

- Local storage, `JSON.stringify`/`JSON.parse` and `window.dispatchEvent` are not modelled as such. They become the `stored` field and the `notifications` counter. Serialization is taken to round-trip exactly.
- A stored empty string is treated like an absent key. Both read as the empty list. Corrupt stored text, on which `JSON.parse` throws, is not modelled.
- Observers subscribing to `cartUpdated`, and what they do on it, are not modelled (for example the header badge). Only the number of dispatches is kept.
- Floating-point prices, and the `toFixed` formatting in the cart page, are not modelled. Prices are integer cents and quantities are mathematical integers. JavaScript's number coercions are not modelled either (for example a string quantity making `+= 1` concatenate).
- The spread `{ ...product, quantity: 1 }` copies every own field of the product object the catalog fetched. `Product` keeps only the five fields the product card declares (`id`, `name`, `image`, `price`, `description`). Any further fields the catalog sends are carried along by the source and not modelled.
- Concurrent writers to the same key from other tabs are not modelled. The model is single-threaded: each operation runs to completion.
- The React components, the order submission, the chat widgets, the search filter and the inline list updates in the admin, orders and support pages are not modelled. They are rendering or network code outside the cart store.
