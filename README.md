# Shopping cart: store and totals

This project models the shopping cart of a plant shop's web front end, and proves properties of that model. The model has two parts.

- **The cart store** (module `CartSlice`, from `src/CartSlice.jsx`). The store holds an ordered sequence of line items, keyed by `name`. Four reducers change it:
  - `addItem` inserts a new item with quantity 1, or adds 1 to the quantity of the item with that name.
  - `removeItem` filters out the item of that name.
  - `updateQuantity` removes the item when the requested quantity is ≤ 0. Otherwise it sets the quantity to `max(1, floor(q))`.
  - `clearCart` empties the cart.

  A payload that fails a reducer's guard leaves the items unchanged. The one exception is `updateQuantity` called with no payload object at all, which throws (see below). Each reducer is modelled twice:
  - as a pure function of the old items (`Added`, `Removed`, `Updated`, with `Reduce` dispatching on an `Action`), about which the invariants are proved;
  - as a method of the class `Cart`, whose `items` field it updates in place. Each method is proved to yield exactly what its function describes. The `find` lookup is a loop (`Cart.Find`).
- **The cart view's logic** (module `CartItem`, from `src/CartItem.jsx`). This covers:
  - the three read-only totals: per-row subtotal, total amount and total count;
  - the three row buttons, "+", "−" and "remove". Each decides which reducer to dispatch.

  The totals are left folds from 0, written as in the source. They are tied by lemmas to independent reference sums (`SumOfCosts`, `SumOfCounts`, `QuantitySum`). The buttons are methods that call the `Cart` methods. Their effect is proved end to end on a rendered row (`View` of a stored item).

## Abstractions

- **Costs.** A cost is the abstract value `Cost`.
  - `Falsy` is a cost that fails the JS test `!item.cost`: missing, `null`, `false`, `0`, `NaN` or `""`.
  - `Given(cents)` is a truthy cost. `cents` is its `parseFloat` result in integer cents, and `None` when the parse is `NaN`.
  - Arithmetic is on integers, so totals are exact.
- **Loosely shaped objects.** The JS objects that reach a reducer or a handler are modelled as `Entry`: `Null`, or `Present(name, cost, quantity)`.
  - A name of `""` stands for every missing or falsy name.
  - A quantity of `None` stands for one that is missing or not a number.
- **Stored items.** The store holds `LineItem(name, cost, quantity)` with an integer quantity.
- **The `updateQuantity` argument.** The requested quantity is an `Option<real>`. `None` means `typeof quantity !== 'number'`.

## Where the code and the design description differ

The model follows the code in each case below.

- The design describes a cost as always readable as a non-negative number. The code does not enforce this:
  - `addItem` stores any truthy cost, including one that does not parse, such as `"abc"`. The totals then count that cost as 0 (`UnpricedAddsNothing`).
  - A negative parsed cost is not rejected.
- The design says `remove` drops "the" item of that name. The code filters out every item of that name. The two agree on a cart with unique names (`WithoutUniqueAt`).
- Adding an item whose name is already present charges the stored item's cost, not the cost in the new payload (`AmountAfterAdd`). Repeated adds of one name keep the first payload's cost (`RepeatedAdd`).
- The design says no operation throws. `updateQuantity` destructures its payload (src/CartSlice.jsx:42) before its guard (src/CartSlice.jsx:43), so a missing or `null` payload raises a `TypeError` out of the dispatch instead of being a no-op. The model's `SetQuantity(key, amount)` always carries a payload, so this throw is not represented.

## Model

| member | source | states |
|---|---|---|
| `CartSlice.IndexOf` | src/CartSlice.jsx:16-18 | The index found is the first item with that name. It is `None` exactly when no item has that name. |
| `CartSlice.Cart.Find` | src/CartSlice.jsx:16-18 | The linear search returns exactly the first-match index `IndexOf`. |
| `CartSlice.OrOne` | src/CartSlice.jsx:30 | Defaulting a falsy numeric quantity: the result is 1 for a zero quantity and equals the quantity whenever it is non-zero, so it is never 0. |
| `CartSlice.Clamp` | src/CartSlice.jsx:54 | `max(1, floor(q))` is at least 1. It is the floor of q when q ≥ 1, and 1 when q < 1 (so 2.7 gives 2 and 0.4 gives 1). |
| `CartSlice.Without` | src/CartSlice.jsx:39 | After filtering, no item of that name is left, every item kept was in the input, and every item of another name is kept. The filter is the identity when the name is absent. |
| `CartSlice.WithoutAppend` | src/CartSlice.jsx:39 | The filter distributes over concatenation, so the items it keeps stay in their original order. |
| `CartSlice.WithoutUniqueAt` | src/CartSlice.jsx:39 | With unique names, filtering out the name of item k removes exactly position k. |
| `CartSlice.Accepted` | src/CartSlice.jsx:11 | `addItem`'s guard: the payload is present and its name and cost are truthy. It has no contract of its own; `Added`'s first clause and `ReduceKeepsNamedAndPriced` describe what it admits. |
| `CartSlice.Added` | src/CartSlice.jsx:9-32 | A payload that is null, or whose name or cost is falsy, leaves the items unchanged. A new name appends exactly one item with quantity 1 and keeps every earlier item. A present name adds 1 to the found item's quantity, counting a falsy quantity as 1; the length and every other item are unchanged. |
| `CartSlice.Removed` | src/CartSlice.jsx:33-40 | A falsy or absent name is a no-op. Otherwise no entry of that name remains, and the result is the filter. |
| `CartSlice.Updated` | src/CartSlice.jsx:41-57 | A falsy name, a non-numeric quantity or an absent name is a no-op. With q ≤ 0 no entry of that name remains. With q > 0 only the found item changes: its quantity becomes `Clamp(q)`, and the length and every other item are unchanged. |
| `CartSlice.Reduce` | src/CartSlice.jsx:8-61 | The slice's reducer, dispatching one action to `Added`, `Removed`, `Updated` or the empty cart. It has no contract of its own; `ReduceKeepsWellFormed` and the contracts of the three reducer functions describe it. |
| `CartSlice.ReduceKeepsUnique` | src/CartSlice.jsx:16-31 | If names are unique before any reducer runs, they are unique after it. |
| `CartSlice.ReduceKeepsPositive` | src/CartSlice.jsx:9-60 | Every reducer keeps every quantity ≥ 1. |
| `CartSlice.ReduceKeepsNamedAndPriced` | src/CartSlice.jsx:11-27 | Every reducer keeps every stored name and cost truthy. |
| `CartSlice.ReduceKeepsWellFormed` | src/CartSlice.jsx:8-61 | Every reducer keeps the whole store invariant: unique names, quantities ≥ 1, truthy names and costs. |
| `CartSlice.RunKeepsWellFormed` | src/CartSlice.jsx:5-61 | Any sequence of dispatched actions keeps the invariant, so every state reachable from the empty initial state satisfies it. |
| `CartSlice.RepeatedAddAt` | src/CartSlice.jsx:16-31 | Any number of accepted adds whose name `find` lands on at position k only raise the quantity at k, by exactly the number of adds. Every other item is unchanged. |
| `CartSlice.RepeatedAdd` | src/CartSlice.jsx:16-31 | n ≥ 1 accepted adds sharing one name, possibly with different costs, on any cart without that name: exactly one entry is appended, with the first payload's cost and quantity n. Every earlier item stays as it was. |
| `CartSlice.Cart.constructor` | src/CartSlice.jsx:5-7 | The initial state is the empty item sequence, which satisfies the invariant. |
| `CartSlice.Cart.AddItem` | src/CartSlice.jsx:9-32 | The in-place update yields `Added` of the old items and keeps the invariant. |
| `CartSlice.Cart.RemoveItem` | src/CartSlice.jsx:33-40 | The field reassignment yields `Removed` of the old items and keeps the invariant. |
| `CartSlice.Cart.UpdateQuantity` | src/CartSlice.jsx:41-57 | The update yields `Updated` of the old items and keeps the invariant. |
| `CartSlice.Cart.ClearCart` | src/CartSlice.jsx:58-60 | The items always become the empty sequence. |
| `CartItem.QuantityOrOne` | src/CartItem.jsx:85 | `typeof item.quantity === 'number' ? item.quantity : 1`, the default also used at src/CartItem.jsx:20, 34, 53 and 62. It has no contract of its own; `CostOfRow`, `TotalCountIsSumOfCounts` and the button actions' contracts state its effect. |
| `CartItem.TotalCost` | src/CartItem.jsx:79-91 | calculateTotalCost in cents. It has no contract of its own; `CostOfRow` describes it. |
| `CartItem.AmountStep` | src/CartItem.jsx:15-22 | The callback calculateTotalAmount hands to `reduce`. It has no contract of its own; `TotalAmountIsSumOfCosts` and `UnpricedAddsNothing` describe the fold it drives. |
| `CartItem.AmountFrom` | src/CartItem.jsx:15-23 | The left fold of `AmountStep` from an accumulator. It has no contract of its own; `AmountFromIsSumOfCosts` proves it equals the accumulator plus the per-row subtotals. |
| `CartItem.TotalAmount` | src/CartItem.jsx:13-27 | calculateTotalAmount in cents: the fold from 0. It has no contract of its own; `TotalAmountIsSumOfCosts`, `UnpricedAddsNothing` and `AmountAfterAdd` describe it. |
| `CartItem.TotalAmountIsSumOfCosts` | src/CartItem.jsx:13-27 | The total amount equals the sum of the per-row subtotals. The empty cart gives 0. |
| `CartItem.CostOfRow` | src/CartItem.jsx:79-91 | A row's subtotal is its parsed cost times its quantity, with 1 for a missing quantity. It is 0 when the row is null or its cost is falsy or unparseable, and it equals that row's share of the total amount. |
| `CartItem.UnpricedAddsNothing` | src/CartItem.jsx:15-19 | A null row, a row with a falsy cost, or a row whose cost parses to NaN adds nothing to the total amount, wherever it stands. |
| `CartItem.AmountAfterAdd` | src/CartItem.jsx:15-22 | An accepted `addItem` raises the total amount by one unit's price. For a new name that is the payload's price; for a present name it is the stored item's price. |
| `CartItem.CountStep` | src/CartItem.jsx:32-35 | The callback calculateTotalCount hands to `reduce`. It has no contract of its own; `TotalCountIsSumOfCounts` describes the fold it drives. |
| `CartItem.CountFrom` | src/CartItem.jsx:32-36 | The left fold of `CountStep` from an accumulator. It has no contract of its own; `CountFromIsSumOfCounts` proves it equals the accumulator plus the rows' counts. |
| `CartItem.TotalCount` | src/CartItem.jsx:30-41 | calculateTotalCount: the fold from 0. It has no contract of its own; `TotalCountIsSumOfCounts`, `CountAtLeastRows` and `CountAfterAdd` describe it. |
| `CartItem.TotalCountIsSumOfCounts` | src/CartItem.jsx:30-41 | The total count is the sum of the quantities of the non-null rows, with 1 for a missing quantity. The empty cart gives 0. |
| `CartItem.CountAtLeastRows` | src/CartItem.jsx:30-36 | When every quantity is ≥ 1, the count is at least the number of rows. |
| `CartItem.CountAfterAdd` | src/CartItem.jsx:30-36 | An accepted `addItem` raises the total count by exactly one. |
| `CartItem.IncrementAction` | src/CartItem.jsx:48-55 | "+" dispatches nothing exactly when the item or its name is missing. Otherwise it dispatches `updateQuantity` for that name, requesting the current quantity (1 when it is not a number) plus 1. |
| `CartItem.DecrementAction` | src/CartItem.jsx:57-68 | "−" dispatches nothing exactly when the item or its name is missing. When the current quantity (1 when it is not a number) is ≤ 1 it dispatches `removeItem` of that name. Otherwise it dispatches `updateQuantity` for that name, requesting the current quantity minus 1. |
| `CartItem.RemoveAction` | src/CartItem.jsx:70-76 | "remove" dispatches nothing exactly when the item or its name is missing. Otherwise it dispatches `removeItem` of that name. |
| `CartItem.HandleIncrement` | src/CartItem.jsx:48-55 | The handler leaves the cart as its dispatched action leaves it, and keeps the invariant. |
| `CartItem.HandleDecrement` | src/CartItem.jsx:57-68 | The handler leaves the cart as its dispatched action leaves it, and keeps the invariant. |
| `CartItem.HandleRemove` | src/CartItem.jsx:70-76 | The handler leaves the cart as its dispatched action leaves it, and keeps the invariant. |
| `CartItem.IncrementAddsOne` | src/CartItem.jsx:53-54 | "+" on a rendered row of a well-formed cart raises that item's quantity by exactly 1 and changes nothing else. |
| `CartItem.DecrementLowersOrRemoves` | src/CartItem.jsx:62-67 | "−" on a rendered row lowers its quantity by exactly 1 when it is above 1. Otherwise it removes exactly that row. |
| `CartItem.RemoveLeavesNoEntry` | src/CartItem.jsx:75 | "remove" with a named item leaves no entry with that name and keeps every item of another name. |
| `CartItem.RemoveErasesRow` | src/CartItem.jsx:70-76 | "remove" on a rendered row of a well-formed cart takes out exactly that row. |
| `CartItem.IncrementRaisesCount` | src/CartItem.jsx:48-55 | "+" on a rendered row raises the total count by exactly one. |
| `CartItem.DecrementLowersCount` | src/CartItem.jsx:57-68 | "−" on a rendered row lowers the total count by exactly one, whether it lowers the quantity or removes the row. |
| `CartItem.Examples` | src/CartItem.jsx:13-41 | Worked cases: a $10.00 item twice and a $5 item once total 2500 cents; rows of quantity 3 and 1 plus a bare object count 5; the empty cart totals 0. |

## Left out

- JSX rendering, CSS, the empty-cart view, the inline unit-price display (src/CartItem.jsx:98-190) and `PropTypes`. All of this is presentation.
- Redux plumbing (`createSlice`, `useSelector`, `useDispatch`, action creators). Dispatching is a direct call of a `Cart` method.
- The checkout message with its `setTimeout`, and the continue-shopping callback. These are timer and UI effects.
- `console.error` logging, treated as a no-op.
- Float parsing and formatting:
  - `parseFloat` and `.replace('$', '')` are replaced by the abstract `Cost`.
  - `toFixed(2)` is not modelled: totals are integer cents, not two-decimal strings, and float rounding is not modelled.
  - Turning a numeric cost into a `"$"`-prefixed string (src/CartSlice.jsx:24) is the identity on the parsed value.
- JS exceptions: the `try`/`catch` fallbacks.
- `NaN` or `Infinity` passed as the `updateQuantity` quantity. Neither throws: both pass the `typeof` guard (src/CartSlice.jsx:43). `NaN <= 0` is false, so `Math.max(1, Math.floor(NaN))` stores `NaN` (src/CartSlice.jsx:50, 54), and `Infinity` is stored as `Infinity`. The model's `SetQuantity` amount is a finite real, so it cannot express either. A stored `NaN` breaks the quantity ≥ 1 invariant, so `ReduceKeepsPositive`, `ReduceKeepsWellFormed`, `RunKeepsWellFormed` and `Cart.UpdateQuantity`'s preservation clause hold for the real code only for finite quantities. A stored `Infinity` also makes the count lemmas (`IncrementRaisesCount`, `DecrementLowersCount`) fail.
- The `TypeError` thrown by `updateQuantity` when its payload is missing or `null` (src/CartSlice.jsx:42). `SetQuantity` cannot express a missing payload, so the model does not represent this throw.
- Quantities are JS doubles; the model's quantities are unbounded integers. The sums `(existing.quantity || 1) + 1` (src/CartSlice.jsx:30), `currentQuantity + 1` (src/CartItem.jsx:54) and the count fold (src/CartItem.jsx:35), and the difference `currentQuantity - 1` (src/CartItem.jsx:64), are exact only while the values stay below 2^53. For example, after `updateQuantity` stores 2^53, a "+" leaves it at 2^53. After it stores 2^53 + 2, a "−" requests 2^53 + 1, which rounds to 2^53, so the quantity drops by 2. `IncrementAddsOne`, `DecrementLowersOrRemoves`, `IncrementRaisesCount`, `DecrementLowersCount`, `CountAfterAdd`, `RepeatedAddAt` and `RepeatedAdd` therefore hold for the real code only below that bound.
- Display metadata and other payload fields:
  - `image` and `description`, including the default description at src/CartSlice.jsx:25;
  - any other field copied by the object spread.

  A `LineItem` holds only a name, a cost and a quantity.
- Names that are not strings. Fractional or non-integer quantities in rendered rows: the store only ever holds integer quantities.
- Object identity. Items are values, so the in-place `existing.quantity = ...` is an update at the index `find` returns. Aliasing between the view's row objects and the store's is not modelled.
