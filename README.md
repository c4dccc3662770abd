# Cart view model of CartContainer

This project models the state logic of the shopping cart's `CartContainer` component.
The component turns a raw cart from the commerce backend into a view model. The view model
is an id-keyed map of lines (`cartData`), a running `totalPrice`, a running `totalQuantity`
and a dirty flag (`cartUpdated`). The component then applies the shopper's local edits to
that model: +1 and -1 clicks, and deletes. When the shopper presses "Update Cart", it projects
every tracked line to an `{id, quantity}` payload for `saveNewCart`.

Layout:

- `cart_view.dfy`, module `CartView`. It holds the value types: raw cart, line, state and
  payload entry. It defines each transition as a function on values: `Normalized`,
  `QuantityChanged`, `LineDeleted` and `Commit`, plus `Apply` and `ApplyAll` for sequences of
  edits. The lemmas state what the component promises about these transitions.
- `cart_container.dfy`, module `CartContainer`. `BuildLines` is the `forEach` loop of
  `computeAndUpdateState`. Class `CartModel` has the component's state fields. Its handler
  methods update those fields in place. Each method's postcondition ties the new state to the
  matching `CartView` function of the old state.

Modelling decisions:

- Prices and quantities are unbounded integers. A variant's price and the cart's `totalPrice`
  are taken to be integral already, so `parseInt` is the identity. The line total computed at
  normalization, `quantity * price`, then equals `quantity * productPrice`.
- A JavaScript object enumerates string keys in the order they were first inserted. The model
  keeps that order explicitly in `order`. If a later raw item repeats an id, it overwrites the
  map entry (`LineMap`) but keeps the key's original position (`FirstOccurrence`).
- `totalQuantity` is accumulated over all raw items, including repeated ids. So the invariant
  "`totalQuantity` is the sum of the line quantities" (`Balanced`) is proved for carts whose
  line ids are distinct. `RepeatedIdUnbalances` shows that it fails otherwise. For any cart,
  repeated ids included, the edits keep the line totals consistent (`Priced`) and leave both
  differences unchanged: `QuantityDrift` (running quantity minus the line sum) and `PriceGap`.
- `totalPrice` is never recomputed from the lines. The backend's cart total need not equal the
  sum of the line totals. What the edits preserve is the difference `PriceGap` between the two.
- Before the first normalization, `cartData` and the totals are undefined in the component.
  The model gives them as an empty map and zeros. `componentDidMount` runs
  `computeAndUpdateState` on the initial cart, which is `CartModel.Normalize`.
- An edit of an id that is not in `cartData` throws in the component before `setState` runs.
  So no state changes. The model returns `UnknownLine` and leaves the state as it was. It does
  not require the id to be present.
- The code does not validate raw carts. The model's raw line item always has a variant and a
  whole-number price, so malformed items cannot be written down; see "## Left out".
- A decrement below zero is allowed, as in the code. `QuantityChanged` has no floor.

## Model

| member | source | states |
|---|---|---|
| CartContainer.BuildLines | src/components/presentational/CartContainer.js:20-33 | the loop builds exactly the id-keyed map of `LineMap` (later items overwrite), the first-insertion key order, and the sum of all raw quantities |
| CartContainer.CartModel.constructor | src/components/presentational/CartContainer.js:8-13 | a new component has no lines, zero totals and `cartUpdated` false |
| CartContainer.CartModel.Normalize | src/components/presentational/CartContainer.js:19-41 | the whole state becomes `Normalized(cart)`, independent of the previous state; the object stays well formed |
| CartContainer.CartModel.ReceiveCart | src/components/presentational/CartContainer.js:43-45 | a new cart from outside fully replaces map, order and totals and resets `cartUpdated`, discarding pending edits |
| CartContainer.CartModel.ChangeQuantity | src/components/presentational/CartContainer.js:47-67 | on a tracked id the new state is `QuantityChanged` of the old; on an untracked id it reports `UnknownLine` and nothing changes |
| CartContainer.CartModel.DeleteLine | src/components/presentational/CartContainer.js:69-87 | on a tracked id the new state is `LineDeleted` of the old; on an untracked id it reports `UnknownLine` and nothing changes |
| CartContainer.CartModel.UpdateCart | src/components/presentational/CartContainer.js:89-95 | returns the payload `Commit` of the current state, one `{id, quantity}` entry per tracked line in map order, and changes nothing |
| CartView.Normalized | src/components/presentational/CartContainer.js:19-41 | the state a raw cart normalizes to: its order has no repeats and names exactly the map's keys, its `totalPrice` is the cart's own total, and it is not marked updated |
| CartView.QuantityChanged | src/components/presentational/CartContainer.js:47-66 | the state after a ±1 click: same keys and order, the line's quantity moved by one, its total consistent with its price, other lines unchanged, marked updated |
| CartView.LineDeleted | src/components/presentational/CartContainer.js:69-86 | the state after a delete: same keys and order, the line kept with quantity 0 and a consistent total, other lines unchanged, marked updated |
| CartView.Commit | src/components/presentational/CartContainer.js:89-93 | the payload of a well-formed state: one entry per tracked line, in map order, carrying that line's id and quantity |
| CartView.LineMapKeys | src/components/presentational/CartContainer.js:22-24 | `cartData` has a key for exactly the ids that the raw line items mention |
| CartView.LineMapLines | src/components/presentational/CartContainer.js:24-32 | every stored line carries its own id as `lineItemId`, and its total is quantity × unit price |
| CartView.LineMapLast | src/components/presentational/CartContainer.js:24-32 | the line stored under an id is built from the last raw item with that id: quantity, variant id, price, image and title |
| CartView.FirstOccurrenceKeys | src/components/presentational/CartContainer.js:22-24 | the recorded order names every map key once and nothing else |
| CartView.FirstOccurrenceDistinct | src/components/presentational/CartContainer.js:22-24 | with distinct ids the recorded order is the raw items' ids in input order |
| CartView.NormalizedWellFormed | src/components/presentational/CartContainer.js:19-41 | a normalized cart, repeated ids or not, is well formed, every line total is quantity × price, and its keys are exactly the raw line item ids |
| CartView.NormalizedQuantity | src/components/presentational/CartContainer.js:21-23 | with distinct ids the accumulated `totalQuantity` equals the sum of the stored line quantities |
| CartView.NormalizedBalanced | src/components/presentational/CartContainer.js:19-41 | with distinct ids normalization yields the bookkeeping invariant, `totalPrice` equal to the cart's total, `cartUpdated` false, and each input item's line under its id |
| CartView.RepeatedIdUnbalances | src/components/presentational/CartContainer.js:22-32 | two raw items with one id: the map keeps one line, `totalQuantity` counts both, and the invariant fails |
| CartView.QuantityChangedEffect | src/components/presentational/CartContainer.js:47-66 | the line's quantity moves by ±1 with no floor; its total becomes new quantity × price; its other fields stay; totals move by ±1 and ±price; `cartUpdated` set; other lines and the key set unchanged |
| CartView.QuantityChangedBalanced | src/components/presentational/CartContainer.js:56-63 | on a well-formed state with consistent line totals, a quantity change keeps them consistent and leaves `totalQuantity − Σ quantities` and `totalPrice − Σ line totals` unchanged, so it preserves `totalQuantity == Σ quantities` |
| CartView.IncrementDecrement | src/components/presentational/CartContainer.js:50-63 | +1 then −1, or −1 then +1, on a consistent line restores the state except that `cartUpdated` is set |
| CartView.LineDeletedEffect | src/components/presentational/CartContainer.js:69-86 | the line stays with quantity 0 and total 0; totals drop by its old quantity and old quantity × price; `cartUpdated` set; other lines unchanged |
| CartView.LineDeletedBalanced | src/components/presentational/CartContainer.js:75-83 | on a well-formed state with consistent line totals, a delete keeps them consistent and leaves `totalQuantity − Σ quantities` and `totalPrice − Σ line totals` unchanged, so it preserves `totalQuantity == Σ quantities` |
| CartView.LineDeletedIdempotent | src/components/presentational/CartContainer.js:75-83 | deleting a line twice gives the same state as deleting it once |
| CartView.LineDeletedAbsorbsChange | src/components/presentational/CartContainer.js:47-86 | a delete after a ±1 change of the same line gives the same state as the delete alone |
| CartView.ReplaceLineBalanced | src/components/presentational/CartContainer.js:53-86 | replacing a tracked line by a consistent line with the same id, with both totals moved by the differences, keeps the line totals consistent and both differences unchanged |
| CartView.ApplyBalanced | src/components/presentational/CartContainer.js:47-86 | any single edit, including one of an untracked id, keeps the line totals consistent and leaves the quantity drift and the price gap unchanged |
| CartView.EditsKeepBalance | src/components/presentational/CartContainer.js:47-86 | after any sequence of edits the line totals are still consistent, `totalQuantity − Σ quantities` and `totalPrice − Σ line totals` are what they were, and a balanced state stays balanced; holds for repeated-id carts too |
| CartView.EditsMarkUpdated | src/components/presentational/CartContainer.js:55-77 | after any sequence of edits the tracked ids are the same, and `cartUpdated` holds exactly when it held before or some edit named a tracked line |
| CartView.ProjectAt | src/components/presentational/CartContainer.js:90-93 | the projection has one entry per id, in order, with that line's `lineItemId` and quantity |
| CartView.ProjectQuantity | src/components/presentational/CartContainer.js:90-93 | the projected quantities add up to the sum of the line quantities |
| CartView.CommitComplete | src/components/presentational/CartContainer.js:89-93 | the payload has exactly one `{id, quantity}` per tracked line, zeroed lines included, in map order, with no repeated id |
| CartView.CommitQuantity | src/components/presentational/CartContainer.js:89-93 | under the invariant the payload's quantities add up to `totalQuantity` |
| CartView.CommitNormalized | src/components/presentational/CartContainer.js:19-41 | committing a freshly normalized cart with distinct ids echoes the raw ids and quantities in input order |
| CartView.ExampleNormalized | src/components/presentational/CartContainer.js:19-41 | the two-line cart (A: 2 × 10, B: 1 × 5, total 25) normalizes to quantity 3, price 25, line totals 20 and 5, clean, order [A, B] |
| CartView.ExampleIncrement | src/components/presentational/CartContainer.js:47-66 | then +1 on A gives A = 3 with total 30, price 35, quantity 4, updated |
| CartView.ExampleDelete | src/components/presentational/CartContainer.js:69-86 | then deleting B zeroes it and gives price 30, quantity 3 |
| CartView.ExampleCommit | src/components/presentational/CartContainer.js:89-93 | then the commit payload is [A: 3, B: 0] |

## Left out

- Rendering (`render` and its JSX, including the empty-cart message) is UI output, not cart state.
- `propTypes` and `defaultProps` are framework metadata and do not touch cart state.
- The call to `saveNewCart` belongs to an external collaborator. Only the payload it receives is modelled.
- Malformed raw line items are not modelled. A line item without a variant makes `item.variant.id` throw at line 26, so normalization stops before `setState` and the state stays as it was. A line item without a price is not rejected: `productPrice` and `productTotalPrice` become NaN (lines 28 and 31). An edit of that line then makes `totalPrice` NaN, while `totalQuantity` stays a number, because it moves by the quantity alone. The model's raw item always has a variant and a whole-number price, so neither path can occur in it.
- String-encoded prices are not modelled: `parseInt` truncation of decimal strings and the implicit string-to-number coercion in `item.quantity * item.variant.price` are left out, because prices are taken as integers.
- JavaScript enumerates integer-like object keys before other keys, in ascending order. The model uses first-insertion order for every key, so it assumes line ids are not integer-like.
- React's lifecycle and the batching and asynchrony of `setState` are left out. Each handler is one atomic transition.
- `src/pages/Checkout.js` is a static list of form fields rendered through UI components, with no cart logic.
