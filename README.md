# Shopping-cart state container

A Dafny model of the cart hook of a React Native storefront
(`src/hooks/cart.tsx`). The cart is an ordered list of line items
(`Product`: id, title, image URL, price, quantity). Three operations
replace that list with an updated copy:

- `addToCart(product)` appends the product with quantity 1 when its id
  is not yet in the cart, and otherwise increments that id;
- `increment(id)` finds the first line item with the id by a linear scan
  and raises its quantity by one;
- `decrement(id)` finds it the same way and lowers its quantity by one.

An absent id makes the last two do nothing. `useCart()` hands out the
provider's context and throws when there is no provider.

The files:

- `wrappers.dfy` (module `Wrappers`): the `Option` and `Result` datatypes.
- `cart.dfy` (module `Cart`) holds the rest:
  - the line-item datatypes;
  - the two lookups `FindIndex` (JavaScript `findIndex`) and `Find`
    (JavaScript `find`);
  - the specification functions `Incremented`, `Decremented` and
    `AddedToCart`, which say what each operation does to the list;
  - lemmas relating the operations;
  - the class `CartStore`, whose `products` field is the hook's state. Its
    methods follow the hook step by step: look up the index, copy the
    list, update one element, replace the state. Each method is proved to
    leave exactly the list its specification function describes;
  - `UseCart`.

The model follows the code where the code and the cart's design
description disagree. The design says an item whose quantity would reach
0 is removed. The code never removes an item: `decrement` lowers the
quantity at line 77 with no lower bound, so a quantity can be 0 or
negative. `Decremented` and `DecrementKeepsItem` state this behaviour. The
example session at the end of `cart.dfy` (`ExampleSession`) decrements a
quantity-1 item to quantity 0, and the item stays in the cart.

The design also says ids are unique. The code does not enforce that, but
it keeps it: `DistinctIds` is preserved by every operation.

## Model

| member | source | states |
|---|---|---|
| `Cart.FindIndex` | src/hooks/cart.tsx:41-43 | the result is -1 exactly when no line item has the id; otherwise it is the index of the first line item with that id |
| `Cart.Find` | src/hooks/cart.tsx:56-58 | nothing is found exactly when no line item has the id; otherwise the result is the first line item with that id (the one at `FindIndex`) |
| `Cart.FindIndexFollowsIds` | src/hooks/cart.tsx:41-43 | the lookup depends only on the ids and their positions, not on the other fields |
| `Cart.Incremented` | src/hooks/cart.tsx:39-52 | same length; every item keeps id, title, image URL and price; every item except the first match is unchanged; the first match's quantity goes up by exactly 1; an absent id leaves the list equal; distinct ids stay distinct |
| `Cart.Decremented` | src/hooks/cart.tsx:69-82 | same length, so no item is removed; every item keeps its descriptor fields; every item except the first match is unchanged; the first match's quantity goes down by exactly 1 with no floor; an absent id leaves the list equal; distinct ids stay distinct |
| `Cart.AddedToCart` | src/hooks/cart.tsx:54-67 | a new id: length grows by 1, the earlier items are unchanged and in order, and the last item is the product with quantity 1; a present id: the result equals `Incremented` and the length is unchanged; the id is present afterwards; distinct ids stay distinct |
| `Cart.DecrementUndoesIncrement` | src/hooks/cart.tsx:39-82 | decrementing an id after incrementing it gives back the original list, whether the id is present or absent |
| `Cart.IncrementUndoesDecrement` | src/hooks/cart.tsx:39-82 | incrementing an id after decrementing it gives back the original list, whether the id is present or absent |
| `Cart.DecrementKeepsItem` | src/hooks/cart.tsx:75-78 | after a decrement the id is still found at the same index, with quantity one lower, whatever the quantity was before |
| `Cart.AddedToCartFinds` | src/hooks/cart.tsx:56-63 | after `addToCart`, the id is found at its old index when it was present, and at the end (index = old length) when it was new |
| `Cart.CartStore.constructor` | src/hooks/cart.tsx:29 | the cart starts empty |
| `Cart.CartStore.Increment` | src/hooks/cart.tsx:39-52 | the new `products` is `Incremented` of the old list; the length is unchanged; distinct ids stay distinct |
| `Cart.CartStore.AddToCart` | src/hooks/cart.tsx:54-67 | the new `products` is `AddedToCart` of the old list (the present-id case goes through `Increment`, as the source does); the id is present afterwards; distinct ids stay distinct |
| `Cart.CartStore.Decrement` | src/hooks/cart.tsx:69-82 | the new `products` is `Decremented` of the old list; the length is unchanged; distinct ids stay distinct |
| `Cart.UseCart` | src/hooks/cart.tsx:92-100 | fails, with the source's error message, exactly when there is no provider context; otherwise returns the context unchanged |

## Left out

- The React wiring (`createContext`, the provider's rendering, the
  `useCallback`/`useMemo` dependency lists, `useEffect`): it has no logic
  of its own. `UseCart` takes the context as an `Option` parameter.
- Persistence: `loadProducts` is an empty placeholder and nothing is ever
  written to device storage. So there is no load, save or serialisation
  behaviour, and no round-trip property, to model.
- Stale snapshots: each callback closes over the `products` of its render,
  so quick successive calls can lose an update. The model runs each
  operation atomically on the current list.
- Aliasing: `[...products]` copies only the array, and the quantity is
  changed on the shared element object. The model treats line items as
  values, so an old snapshot is not seen to change.
- The asynchronous form of the callbacks: none of them awaits anything, so
  each one's state update is modelled as completing within the call.
- Number representation: `price` is a `real` that no operation reads.
  `quantity` is an unbounded integer; JavaScript numbers are exact only up
  to 2^53, a limit a cart quantity does not reach.
- Inputs with extra fields: `{ ...product, quantity: 1 }` copies every
  field the caller passes. The model's `NewProduct` holds exactly the
  fields the hook's type declares.
