# Canteen cart store, modelled in Dafny

This project models the client-side shopping cart of the campus canteen
storefront: the store created in `src/store/useCartStore.ts`. The store holds
an insertion-ordered list of line items, the id of the one canteen the cart
belongs to (or none), and three derived money fields: `subtotal`, `tax` (5%
GST) and `total`. It has four commands:

- `addItem` rejects an item from another canteen. Otherwise it merges the item
  by id: a held id gets one more unit, a new id is appended with quantity 1.
- `removeItem` filters out the id.
- `updateQuantity` sets the quantity of that id, with no lower bound.
- `clearCart` resets the store.

Every accepted mutation recomputes the three money fields by a full reduction
over the list.

The model has three modules, one file each:

- `cart_items.dfy` (`CartItems`) holds the `CartItem` record and the pure list
  operations the commands are built from: `Find` (`items.find`), `IncrementId`
  and `SetQty` (the two `items.map`s), `RemoveId` (`items.filter`) and
  `Subtotal` (the left `reduce`). Lemmas cover pricing, order and unique ids.
- `cart_state.dfy` (`CartState`) holds the whole store as a `State` value and
  each command as a transition function: `Add`, `Remove`, `UpdateQuantity`,
  `Clear`. It defines the invariants `Consistent` and `SingleCanteen` and
  proves what each command does to them. `Consistent` says the totals match
  the items, ids are unique, and a canteen is set exactly when there are
  lines. `SingleCanteen` says every line belongs to the cart's canteen.
- `cart_store.dfy` (`CartStore`) holds the class `Cart`. Its five fields are
  the store's five fields, and its methods `AddItem`, `RemoveItem`,
  `UpdateQuantity` and `ClearCart` follow the closures statement by statement.
  Each method's `ensures` ties the new fields to the transition function
  applied to the old fields, so every lemma of `CartState` holds of the object.
  `TwoAddsThenConflict` is a client that walks through a session using only
  the contracts: add an item twice, have an item from another canteen
  rejected, clear twice.

Decisions about the source's JavaScript semantics:

- **Money is exact.** `price` is a `real` and `quantity` an `int`. The tax is
  `subtotal * 0.05` in exact reals, and the total is `subtotal + tax`.
- **Truthiness of the canteen id.** The guard `canteenId && canteenId !==
  item.canteen_id` treats the empty string like `null`. `CartState.Rejects`
  models this exactly. As a result, a cart whose canteen id is `""` accepts an
  item from any canteen and ends up mixing canteens
  (`CartState.EmptyCanteenAdmitsMix`). The single-canteen invariant is
  therefore proved for every add except that one case
  (`CartState.AddSingleCanteen`).
- **`existing` is an object.** `items.find` returns an object, which is always
  truthy, so the merge branch is taken exactly when some line has the id.
- **`removeItem` re-derives the canteen.** It sets `canteenId` to the first
  remaining line's canteen. Under `SingleCanteen` that is the old canteen
  (`CartState.RemoveSingleCanteen`). The model keeps the re-derivation as
  written.

Three behaviours of the code may surprise a reader, and the model keeps them
as written:

- `removeItem` removes every line with the id, not just one. The two agree
  when ids are unique, which `Consistent` guarantees.
- Neither `price >= 0` nor `quantity >= 1` is enforced: `updateQuantity`
  accepts any integer.
- Removing an absent id is a no-op for every one-canteen cart
  (`CartState.RemoveAbsentNoOp`). In a mixed cart, which only the empty-string
  case above can produce, the lines and the totals are kept
  (`CartState.RemoveAbsentKeepsLines`), and `canteenId` changes exactly when
  it differs from the first line's canteen (`CartState.RemoveAbsentNoOpIff`).

## Model

| member | source | states |
|---|---|---|
| `CartItems.LineTotal` | src/store/useCartStore.ts:56 | the amount one line contributes: its price times its quantity |
| `CartItems.Subtotal` | src/store/useCartStore.ts:55-58 | the subtotal: 0 for no lines, otherwise the subtotal of all lines but the last plus the last line's total, which is the left-to-right reduction |
| `CartItems.Tax` | src/store/useCartStore.ts:59 | the 5% GST on a subtotal |
| `CartItems.Total` | src/store/useCartStore.ts:60 | the amount charged: the subtotal plus its tax |
| `CartItems.Find` | src/store/useCartStore.ts:45 | the result is present exactly when some line has the id, and then it is the first such line |
| `CartItems.IncrementId` | src/store/useCartStore.ts:48-50 | same length; a line with the id gets quantity + 1 with every other field kept, and every other line is unchanged |
| `CartItems.SetQty` | src/store/useCartStore.ts:90-92 | same length; a line with the id gets the given quantity (any integer) with every other field kept, and every other line is unchanged |
| `CartItems.RemoveId` | src/store/useCartStore.ts:72 | the result is no longer than the list and holds exactly the lines whose id differs |
| `CartItems.SubtotalAppend` | src/store/useCartStore.ts:55-58 | the reduction over a concatenation is the sum of the two reductions |
| `CartItems.SubtotalReplace` | src/store/useCartStore.ts:55-58 | replacing one line changes the subtotal by the new line total minus the old one |
| `CartItems.SubtotalDrop` | src/store/useCartStore.ts:73-76 | dropping one line lowers the subtotal by exactly that line's `price * quantity` |
| `CartItems.LineTotalIncrement` | src/store/useCartStore.ts:56 | one more unit adds exactly the price to `price * quantity` |
| `CartItems.SubtotalBump` | src/store/useCartStore.ts:49-58 | one more unit on one line adds exactly that line's price to the subtotal |
| `CartItems.IncrementAt` | src/store/useCartStore.ts:47-50 | with unique ids, the keyed map changes exactly the one line with the id, raising its quantity by 1 |
| `CartItems.SubtotalIncrement` | src/store/useCartStore.ts:47-58 | with unique ids, the recomputed subtotal after the keyed increment is the old one plus the stored price of that line |
| `CartItems.SetQtyAt` | src/store/useCartStore.ts:89-92 | with unique ids, the keyed map changes exactly the one line with the id, to the given quantity |
| `CartItems.RemoveIdAppend` | src/store/useCartStore.ts:72 | the filter distributes over concatenation, so surviving lines keep their order |
| `CartItems.RemoveAbsent` | src/store/useCartStore.ts:72 | filtering an id no line has returns the list unchanged |
| `CartItems.RemoveAt` | src/store/useCartStore.ts:72 | with unique ids, removing a held id drops exactly its line and keeps the rest in order |
| `CartItems.AppendKeepsUnique` | src/store/useCartStore.ts:51-53 | appending a line with a new id keeps ids unique |
| `CartItems.RemoveKeepsUnique` | src/store/useCartStore.ts:72 | the filter keeps ids unique |
| `CartState.Rejects` | src/store/useCartStore.ts:40 | the guard: a cart refuses an item exactly when its canteen id is set, not the empty string, and differs from the item's canteen |
| `CartState.Priced` | src/store/useCartStore.ts:55-60 | a state holding the given lines and canteen whose subtotal, tax and total are recomputed from those lines |
| `CartState.Merged` | src/store/useCartStore.ts:45-53 | the lines after an accepted add: a held id gets one more unit, otherwise the item is appended with quantity 1 |
| `CartState.Add` | src/store/useCartStore.ts:36-69 | `addItem`: a rejected item leaves the state as it is; otherwise the merged lines, priced, in the item's canteen |
| `CartState.Remove` | src/store/useCartStore.ts:71-87 | `removeItem`: the lines without the id, priced, with the canteen of the first remaining line or none |
| `CartState.UpdateQuantity` | src/store/useCartStore.ts:89-101 | `updateQuantity`: the lines with the id's quantity set, priced, in the same canteen |
| `CartState.Clear` | src/store/useCartStore.ts:103-104 | `clearCart`: the initial state, whatever the state before |
| `CartState.AddConsistent` | src/store/useCartStore.ts:36-69 | `addItem` keeps the totals matching the items, ids unique, and the canteen set exactly when there are lines |
| `CartState.AddExisting` | src/store/useCartStore.ts:45-68 | adding a held id raises exactly that line's quantity by 1, keeps its stored name, price and other fields, raises the subtotal by the stored price and sets the canteen to the item's |
| `CartState.AddNew` | src/store/useCartStore.ts:51-68 | adding a new id appends the item with quantity 1 whatever quantity was passed, grows the list by one, raises the subtotal by the item's price and sets the canteen to the item's |
| `CartState.MergedInCanteen` | src/store/useCartStore.ts:45-53 | merging an item into lines of its own canteen gives lines of that canteen only |
| `CartState.AddSingleCanteen` | src/store/useCartStore.ts:39-64 | `addItem` keeps every line in the cart's canteen unless the cart's canteen id is the empty string and the item is from another canteen |
| `CartState.EmptyCanteenAdmitsMix` | src/store/useCartStore.ts:40 | because `""` is falsy, a cart in canteen `""` accepts an item from another canteen and then mixes two canteens |
| `CartState.AddTwiceThenConflict` | src/store/useCartStore.ts:36-69 | from the empty cart, one add gives one line of quantity 1 priced at the item's price, a second add gives quantity 2 and twice the price, and an add from another canteen then leaves the state unchanged |
| `CartState.AddSameCanteen` | src/store/useCartStore.ts:39-64 | an add into an empty cart or from the cart's own canteen is accepted, keeps both invariants and leaves the cart in that canteen |
| `CartState.TallyExisting` | src/store/useCartStore.ts:45-50 | an accepted add of a held id keeps every line's quantity equal to the number of times its id was added |
| `CartState.TallyNew` | src/store/useCartStore.ts:51-53 | an accepted add of a new id keeps every line's quantity equal to the number of times its id was added |
| `CartState.OneCanteenAdds` | src/store/useCartStore.ts:36-69 | from the empty cart, adds from one canteen are never rejected and keep both invariants, with the cart in that canteen |
| `CartState.OneCanteenTallies` | src/store/useCartStore.ts:36-69 | from the empty cart, after adds from one canteen, every added id has a line and every line's quantity is the number of times its id was added |
| `CartState.RemoveConsistent` | src/store/useCartStore.ts:71-87 | `removeItem` keeps the `Consistent` invariant and leaves no line with the id |
| `CartState.RemoveExisting` | src/store/useCartStore.ts:72-78 | removing a held id drops exactly its line, keeps the others in order, and lowers the subtotal by that line's total |
| `CartState.RemoveSingleCanteen` | src/store/useCartStore.ts:85 | for a one-canteen cart, the re-derived canteen is the old one when lines remain, none exactly when none remain, and the cart stays in one canteen |
| `CartState.RemoveAbsentKeepsLines` | src/store/useCartStore.ts:71-84 | for any consistent cart, even one mixing canteens, removing an id no line has keeps the lines, the subtotal, the tax and the total |
| `CartState.RemoveAbsentNoOpIff` | src/store/useCartStore.ts:71-87 | for any consistent cart, removing an id no line has leaves the whole state unchanged exactly when the cart is empty or its canteen is the first line's canteen, because line 85 re-derives the canteen from the first line |
| `CartState.RemoveAbsentNoOp` | src/store/useCartStore.ts:71-87 | for a one-canteen cart, removing an id no line has leaves the whole state unchanged |
| `CartState.UpdateConsistent` | src/store/useCartStore.ts:89-101 | `updateQuantity` keeps both invariants: ids, canteens and length are untouched, and the totals are recomputed |
| `CartState.UpdateExisting` | src/store/useCartStore.ts:89-98 | setting a held id's quantity changes exactly that line, and the subtotal moves by the new line total minus the old one, for any integer quantity |
| `CartState.UpdateAbsentNoOp` | src/store/useCartStore.ts:89-101 | setting the quantity of an id no line has leaves the whole state unchanged |
| `CartState.ClearResets` | src/store/useCartStore.ts:103-104 | clearing yields the initial state from any state, is idempotent, and restores both invariants |
| `CartStore.Cart.constructor` | src/store/useCartStore.ts:30-34 | the new store is empty with no canteen and zero totals, and satisfies both invariants |
| `CartStore.Cart.SetPriced` | src/store/useCartStore.ts:55-60 | the money fields are recomputed from the new list: `subtotal` is the reduction, `tax` is 5% of it, `total` is their sum |
| `CartStore.Cart.AddItem` | src/store/useCartStore.ts:36-69 | returns false and changes nothing on a conflicting canteen, otherwise performs the keyed merge and sets the canteen to the item's; keeps `Consistent`, and keeps `SingleCanteen` except in the empty-string case |
| `CartStore.Cart.RemoveItem` | src/store/useCartStore.ts:71-87 | performs the filter and the re-derivation of the canteen; keeps both invariants; for a one-canteen cart the canteen is unchanged while lines remain; an absent id keeps the lines and totals, and for a one-canteen cart changes nothing |
| `CartStore.Cart.UpdateQuantity` | src/store/useCartStore.ts:89-101 | sets the quantity without a bound, keeps the length and the canteen, keeps both invariants, and changes nothing for an absent id |
| `CartStore.Cart.ClearCart` | src/store/useCartStore.ts:103-104 | resets to the initial state unconditionally, so twice is the same as once |
| `CartStore.TwoAddsThenConflict` | src/store/useCartStore.ts:36-69 | a client of the store's contracts: after one add of a 100.0 item the store holds one line of quantity 1 with subtotal 100.0, tax 5.0 and total 105.0, after a second add quantity 2 with 200.0, 10.0 and 210.0, an add from another canteen is refused and changes nothing, and two clears give the initial state (lines 103-104) |

## Left out

- Persistence: the `persist` middleware and its `localStorage` key (src/store/useCartStore.ts:106-108) are browser storage I/O. The model starts from the initial state at src/store/useCartStore.ts:30-34; rehydrating arbitrary stored state is not modelled.
- The `alert` on a conflicting canteen (src/store/useCartStore.ts:41) is a UI side effect. It is modelled as `AddItem` returning false with the state unchanged.
- IEEE-754 rounding of `price * quantity`, of the sum and of `* 0.05`: money is modelled as exact reals, so the model does not claim bit-exact equality with JavaScript numbers.
- `NaN` quantities (the cart page passes `parseInt` of an input field to `updateQuantity`): quantities are integers.
- Zustand's subscription and re-render notification after `set`: not modelled. `set` is modelled as assigning the named fields.
- String comparison is modelled as equality of `seq<char>`. JavaScript compares UTF-16 code units; the difference does not matter for the equality tests used here.
- src/context/ModalContext.tsx, src/store/useUserStore.ts, src/store/useAuth.ts, src/lib/supabaseAdmin.ts and the page components are not part of this model. They hold a single boolean, a single profile assignment, external authentication callbacks and markup, with no cart logic.
