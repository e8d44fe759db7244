# Shopping-cart reducer

A model of the cart state kept by the marketplace app's cart provider
(`src/hooks/cart.tsx`). The cart is an ordered list of lines. Each `Product`
line has an id, a title, an image URL, a price and a quantity. There are three
operations:

- **addToCart** looks up the first line with the item's id. If there is none,
  it appends the item with quantity 1. Otherwise it raises that line's
  quantity by one, in place.
- **increment** raises the quantity of the line with the id by one. It does
  nothing when the id is absent.
- **decrement** lowers the quantity by one when that quantity is above zero.
  It does nothing when the id is absent or the quantity is zero. A line at
  zero stays in the cart.

`cart.dfy` holds two modules:

- `Cart` has the line records and the list logic as pure functions.
  - `Find` is the `find` lookup. It gives the position of the first match.
  - `Replace` is the position-preserving `map`.
  - `AddToCart`, `Increment` and `Decrement` are the three updates.
  - The lemmas state what each update does in a cart that keeps its
    invariant: at most one line per id and no negative quantity.
  - `TotalQuantity` sums the quantities. The lemmas show that each update
    changes that sum by the one unit it adds or removes.
- `CartStore` has the class `Store`. It holds the provider's `products`
  state, starts empty, and replaces that state on every call, as
  `setProducts` does.

The functions follow the code also when ids are duplicated: every line with a
matching id is replaced by a copy of the first match. The exact single-line
statements (`AddToCartPresent`, `IncrementPresent`, `DecrementPresent`)
assume unique ids. The invariant gives that, and the constructor and all
three operations keep it.

## Model

| member | source | states |
|---|---|---|
| `Cart.Find` | src/hooks/cart.tsx:43 | None exactly when no line has the id; otherwise the position of a line with the id that no earlier line shares |
| `Cart.Replace` | src/hooks/cart.tsx:53-56 | same length; each position holds the replacement when its id matches and the old line otherwise |
| `Cart.NewProduct` | src/hooks/cart.tsx:46 | the appended line carries the item's id, title, image URL and price, with quantity 1 |
| `Cart.AddToCart` | src/hooks/cart.tsx:41-62 | a new id appends exactly one line at the end, with the item's id, title, image URL and price and quantity 1, and earlier lines unchanged; a present id keeps the length, and every line with that id becomes the first such line with quantity one higher; ids at every old position are kept; lines with other ids are unchanged |
| `Cart.Increment` | src/hooks/cart.tsx:64-79 | a missing id leaves the list unchanged; a present id keeps the length, and every line with that id becomes the first such line with quantity one higher; ids at every position are kept; lines with other ids are unchanged |
| `Cart.Decrement` | src/hooks/cart.tsx:81-96 | a missing id, or a first match at quantity zero or below, leaves the list unchanged; otherwise every line with that id becomes the first such line with quantity one lower; length and ids at every position are kept, so no line is removed; lines with other ids are unchanged; a changed line never has a negative quantity |
| `Cart.AddToCartKeepsValid` | src/hooks/cart.tsx:43-56 | addToCart keeps the invariant: ids stay unique, because it appends only when the lookup fails, and quantities stay non-negative |
| `Cart.IncrementKeepsValid` | src/hooks/cart.tsx:66-73 | increment keeps unique ids and non-negative quantities |
| `Cart.DecrementKeepsValid` | src/hooks/cart.tsx:83-90 | decrement keeps unique ids and non-negative quantities; its guard stops any quantity going below zero |
| `Cart.FindUnique` | src/hooks/cart.tsx:43 | with unique ids, the lookup finds exactly the line carrying the id |
| `Cart.AddToCartPresent` | src/hooks/cart.tsx:43-56 | with unique ids, adding a present id equals the old list with only that position's quantity raised by one |
| `Cart.IncrementPresent` | src/hooks/cart.tsx:66-74 | with unique ids, increment equals the old list with only that position's quantity raised by one; title, image, price and order kept |
| `Cart.DecrementPresent` | src/hooks/cart.tsx:83-91 | with unique ids, decrement lowers only that position's quantity by one when it is above zero, and leaves the list unchanged at zero |
| `Cart.DecrementUndoesIncrement` | src/hooks/cart.tsx:64-96 | in a valid cart, decrement after increment on the same id gives back the original list |
| `Cart.AddToCartAddsOneUnit` | src/hooks/cart.tsx:43-56 | with unique ids, every addToCart raises the cart's total quantity by exactly one, whether it appends a line at quantity 1 or raises an existing line |
| `Cart.IncrementAddsOneUnit` | src/hooks/cart.tsx:66-73 | with unique ids, increment raises the total quantity by one when the id is present and leaves it unchanged otherwise |
| `Cart.DecrementRemovesOneUnit` | src/hooks/cart.tsx:83-90 | with unique ids, decrement lowers the total quantity by one when the line with the id has a quantity above zero and leaves it unchanged otherwise |
| `Cart.AddThenDecrementScenario` | src/hooks/cart.tsx:41-96 | from an empty cart, add A twice to get one line at quantity 2, then decrement twice to reach quantity 0 with the line still present |
| `CartStore.Store.constructor` | src/hooks/cart.tsx:28 | the provider starts with an empty cart, which satisfies the invariant |
| `CartStore.Store.AddToCart` | src/hooks/cart.tsx:41-62 | the new state is addToCart of the old state; the invariant is preserved |
| `CartStore.Store.Increment` | src/hooks/cart.tsx:64-79 | the new state is increment of the old state; the invariant is preserved |
| `CartStore.Store.Decrement` | src/hooks/cart.tsx:81-96 | the new state is decrement of the old state; the invariant is preserved |

## Left out

- Loading the cart from device storage (src/hooks/cart.tsx:30-39). This is asynchronous device I/O plus JSON parsing. The model starts from the empty cart. A loaded list would not be known to satisfy the invariant, so the store methods promise `old(Valid()) ==> Valid()` rather than requiring it.
- Writing the cart to device storage after each call (src/hooks/cart.tsx:59, 76, 93). This is device I/O and JSON serialisation. Note that the code writes the `products` captured before the update, so the stored copy lags one call behind. The model does not capture that lag.
- React plumbing: the context, the `useState` scheduling, `useCallback`, `useMemo` and the Provider element (src/hooks/cart.tsx:25-28, 98-103). The model assumes calls run one after another. So the list that `find` reads is the same list that the state updater receives.
- Overlapping asynchronous calls with stale closures. This is concurrency, which is out of scope.
- `useCart` failing outside a provider (src/hooks/cart.tsx:106-113). This is a lookup in the React tree with no list logic.
- `price` is an opaque type that supports only equality. The code only copies it, so the model states nothing about its JavaScript floating-point value.
- `quantity` is an unbounded `int`. JavaScript numbers lose integer precision above 2^53, which the model does not capture.
- The JavaScript spread `{ ...product, quantity: 1 }` copies any extra fields a caller adds to the item. The model's `Item` has only the four declared fields.
