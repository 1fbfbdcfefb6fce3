# RocketShoes cart, modelled in Dafny

This project models the cart store of the RocketShoes storefront
(`CartProvider` in `src/hooks/useCart.tsx`). The cart is a sequence of product
entries in display order. Three handlers change it: `addProduct`,
`removeProduct` and `updateProductAmount`. Each committed change replaces the
`cart` state and overwrites the `'@RocketShoes:cart'` entry of local storage.

The model has three modules:

- `CartRules` (`cart_rules.dfy`) holds the values: `Product`, the reply of a
  service call (`Fetch`: it threw, or it resolved with data), the handler
  `Outcome`s, and each handler as a pure function from the current cart and the
  service replies to an outcome and the next cart. `Find` and `Without` model
  `cart.find` and `cart.filter`.
- `CartProperties` (`cart_properties.dfy`) proves what the handlers promise about
  those functions. This covers appending, incrementing, out-of-stock refusals,
  removal and setting amounts. It also proves that distinct ids stay distinct,
  that amounts stay positive, that add-then-remove is an inverse, and that
  update is idempotent.
- `UseCart` (`use_cart.dfy`) holds the imperative store. `CartProvider` has two
  fields: `cart`, a sequence of references to `ProductRecord` objects, and
  `stored`, the value the storage entry parses to. Its three methods are proved
  against the `CartRules` functions. The `map` callbacks change the records'
  `amount` in place. The storage writes of the increment and set-amount paths
  serialise the array the handler captured before the `map` (lines 55 and 112),
  and the model does the same. The methods still prove that storage equals the
  new cart: `map` returns the same records, so the old and new arrays share
  them. `Valid()` is the store's invariant: no record appears twice.
  `Persisted()` says that storage holds the cart's current image. Every handler
  keeps it as long as its storage write succeeds.

Service replies are parameters. A rejected request is `Threw`. For
`addProduct`, the catalog reply is `Fetch<Option<Product>>`, where a falsy body
is `None`. The stock reply is `Fetch<StockBody>`, and the body has three cases:

- `NullBody`: reading `amount` throws.
- `MissingAmount`: `amount` reads as undefined, so every comparison with it is false.
- `Stock(amount)`: an ordinary stock record.

A null body therefore leads to the generic error only on the paths that read
`stock.amount` (lines 45, 60 and 103). A missing amount leads to the
out-of-stock toast.

Each `CartProvider` method also takes `storageAccepts`, which says whether
`localStorage.setItem` succeeds. The call throws when storage is over quota or
blocked. A refused write comes after `setCart`, and, on the increment and
set-amount paths, after the `map` has changed the records. The new cart is
therefore kept, storage is left stale, and the handler shows its generic error.
`UseCart.Reported` gives that outcome.

Toasts are outcome values: `OutOfStock`, `AddFailed`, `RemoveFailed` and
`UpdateFailed`. A silent return is `NoOp`.

Id uniqueness is not part of `Valid()`, because the source does not guarantee
it. A new entry takes its id from the catalog reply (`...product`), not from the
requested id. `AddKeepsIdsDistinct` therefore assumes that the catalog answers
for the id that was asked (`Answers`).

## Model

| member | source | states |
|---|---|---|
| `CartRules.Find` | src/hooks/useCart.tsx:42 | `find` returns nothing exactly when no entry has the id; otherwise it returns an entry with that id that comes before every other one |
| `CartRules.Without` | src/hooks/useCart.tsx:83 | the filtered cart holds exactly the entries whose id differs, and is no longer than the cart |
| `CartRules.AddProduct` | src/hooks/useCart.tsx:35-78 | addProduct fails exactly when a request threw, or when the catalog reply is non-empty and the stock body is null. It is a silent no-op exactly when the catalog reply is empty and the stock request resolved. It succeeds exactly when the stock amount exceeds the amount already in the cart (0 if absent). It is out of stock exactly when the amount is missing or does not exceed that. Every other outcome leaves the cart as it was. Success grows the cart by one only for a new id, and, when the catalog answers for the id asked, the product is then in the cart |
| `CartRules.RemoveProduct` | src/hooks/useCart.tsx:80-93 | removeProduct succeeds exactly when the id is present. After success the cart is strictly shorter and has no entry with that id. Otherwise it reports the removal error and leaves the cart unchanged |
| `CartRules.UpdateProductAmount` | src/hooks/useCart.tsx:95-121 | The outcome is completely characterised: the error exactly when the stock request threw or a positive amount meets a null stock body, no report for amount <= 0, success exactly when 0 < amount <= stock amount, and out-of-stock exactly when the amount is positive and the stock amount is missing or smaller. Every outcome but success leaves the cart unchanged, and the length never changes |
| `CartProperties.FindDistinct` | src/hooks/useCart.tsx:42 | in a cart with distinct ids, `find` returns the one entry with that id |
| `CartProperties.AddNewAppends` | src/hooks/useCart.tsx:59-69 | an id not in the cart with stock > 0 appends the catalog reply, whatever id it carries, as exactly one entry with amount 1 at the end; all earlier entries are unchanged |
| `CartProperties.AddExistingIncrements` | src/hooks/useCart.tsx:42-54 | in a cart with distinct ids, an id already present, with stock above its amount, is raised by exactly 1 and stays at most the stock. Length, order and every other entry are unchanged |
| `CartProperties.AddExistingOutOfStock` | src/hooks/useCart.tsx:44-57 | in a cart with distinct ids, an id already present whose stock does not exceed its amount yields OutOfStock and leaves the cart unchanged |
| `CartProperties.AddNewOutOfStock` | src/hooks/useCart.tsx:59-72 | an id not in the cart with stock <= 0 yields OutOfStock for any catalog reply and leaves the cart unchanged |
| `CartProperties.MissingAmountIsOutOfStock` | src/hooks/useCart.tsx:45-71 | a stock body without an amount makes a non-empty addProduct and a positive update report out of stock, with the cart unchanged |
| `CartProperties.NullStockBody` | src/hooks/useCart.tsx:41-119 | a null stock body gives the generic error only where `stock.amount` is read (a non-empty catalog reply, a positive update); elsewhere the handler returns silently |
| `CartProperties.AddKeepsIdsDistinct` | src/hooks/useCart.tsx:42-66 | distinct ids stay distinct across addProduct when the catalog answers for the id asked |
| `CartProperties.WithoutAbsent` | src/hooks/useCart.tsx:83 | filtering out an absent id returns the cart unchanged |
| `CartProperties.WithoutConcat` | src/hooks/useCart.tsx:83 | filtering distributes over concatenation, so the relative order is kept |
| `CartProperties.RemovePresent` | src/hooks/useCart.tsx:82-86 | in a cart with distinct ids, removing the id of entry k gives exactly the cart without entry k, others in their order |
| `CartProperties.RemoveAbsent` | src/hooks/useCart.tsx:82-89 | removing an absent id yields the removal error and leaves the cart unchanged |
| `CartProperties.WithoutKeepsIdsDistinct` | src/hooks/useCart.tsx:83 | distinct ids stay distinct across removeProduct |
| `CartProperties.AddNewThenRemove` | src/hooks/useCart.tsx:59-86 | adding a new product and then removing it gives back the original cart |
| `CartProperties.RemoveTwice` | src/hooks/useCart.tsx:82-88 | a second removal of the same id yields the removal error and changes nothing |
| `CartProperties.UpdateWithinStock` | src/hooks/useCart.tsx:102-111 | with 0 < amount <= stock the update succeeds; every entry with the id gets exactly that amount and all other entries are unchanged |
| `CartProperties.UpdateAbsent` | src/hooks/useCart.tsx:104-110 | an id not in the cart leaves it unchanged, whatever the outcome |
| `CartProperties.UpdateNonPositive` | src/hooks/useCart.tsx:100-117 | once the stock has arrived, amount <= 0 is a silent no-op on an unchanged cart |
| `CartProperties.UpdateIdempotent` | src/hooks/useCart.tsx:104-110 | setting the same amount twice leaves the same cart as setting it once |
| `CartProperties.UpdateKeepsIdsDistinct` | src/hooks/useCart.tsx:104-110 | distinct ids stay distinct across updateProductAmount |
| `CartProperties.StepsKeepAmountsPositive` | src/hooks/useCart.tsx:35-121 | if every entry holds at least one unit, it still does after any of the three handlers |
| `CartProperties.ScenarioIncrement` | src/hooks/useCart.tsx:42-55 | [{id 1, amount 1}] with stock 5: addProduct(1) gives [{id 1, amount 2}] |
| `CartProperties.ScenarioNoStock` | src/hooks/useCart.tsx:59-71 | [] with stock 0: addProduct(2) yields OutOfStock and the cart stays [] |
| `UseCart.Kept` | src/hooks/useCart.tsx:83 | the filtered array holds only records of the array without the id, and no record twice if the array had none twice |
| `UseCart.KeptSnapshot` | src/hooks/useCart.tsx:83-86 | the image of the filtered records is the filtered image of the records |
| `UseCart.MapIncrement` | src/hooks/useCart.tsx:46-52 | the `map` gives back an array of the same records in the same order, and the records with the id have their amount raised by one in place. Every other record is unchanged |
| `UseCart.MapSetAmount` | src/hooks/useCart.tsx:104-110 | the `map` gives back an array of the same records in the same order, and the records with the id have their amount set to the given value in place. Every other record is unchanged |
| `UseCart.Reported` | src/hooks/useCart.tsx:68-77 | a handler reports success exactly when its rule committed a change and storage accepted the write; a refused write turns that success, and nothing else, into the handler's generic error |
| `UseCart.CartProvider.constructor` | src/hooks/useCart.tsx:25-33 | the initial cart is the stored cart if the key is present, else empty, held in fresh records; no record is shared and storage mirrors the cart |
| `UseCart.CartProvider.AddProduct` | src/hooks/useCart.tsx:35-78 | the new cart is that of `CartRules.AddProduct`, and the outcome is its outcome, with success turned into the generic error when the write is refused. After success storage equals the new cart, even though line 55 writes the captured array. Otherwise storage is unchanged, and the cart is unchanged unless the rule committed. An accepted write keeps storage mirroring the cart. The cart holds only records it held before (the map at :46-52 keeps them) and the one fresh entry of :61-66 |
| `UseCart.CartProvider.RemoveProduct` | src/hooks/useCart.tsx:80-93 | the new cart is that of `CartRules.RemoveProduct`, and the outcome is its outcome, with success turned into the removal error when the write at :86 is refused. After success storage equals the new cart. Otherwise storage is unchanged, and the cart is unchanged unless the rule committed. An accepted write keeps storage mirroring the cart. The cart holds only records it held before (the filter at :83 keeps them) |
| `UseCart.CartProvider.UpdateProductAmount` | src/hooks/useCart.tsx:95-121 | the new cart is that of `CartRules.UpdateProductAmount`, and the outcome is its outcome, with success turned into the generic error when the write is refused. After success storage equals the new cart, even though line 112 writes the captured array. Otherwise storage is unchanged, and the cart is unchanged unless the rule committed. An accepted write keeps storage mirroring the cart. The cart holds only records it held before (the map at :104-110 keeps them) |
| `UseCart.Reload` | src/hooks/useCart.tsx:25-33 | while storage mirrors the cart, a provider initialised from what another left in storage shows the same cart |

## Left out

- React plumbing (`createContext`, `useContext`, the provider element, `useCart`, lines 1-22 and 123-136): UI wiring with no cart rule in it.
- The HTTP requests to `products/{id}` and `stock/{id}`: their replies are parameters of the handlers. A rejected request is `Threw`. A stock body is `NullBody` (null or undefined), `MissingAmount` (no `amount` field) or `Stock(amount)`. An `amount` of another type, such as a numeric string that JavaScript coerces in comparisons, is not modelled.
- Toast notifications: represented by the outcome value; the message text is not modelled.
- JSON serialisation: storage holds the parsed value directly, so `JSON.stringify` and `JSON.parse` are the identity on `Product` values. A stored string that fails to parse at start-up throws in the source; that case is not modelled.
- Asynchrony: each handler runs to completion before the next starts. Lost updates between concurrent handlers (each reads the cart captured at render time) are not modelled.
- Number semantics: ids, amounts and stock are unbounded integers. Fractional, NaN or out-of-range JavaScript numbers are not modelled.
- Storage failures beyond `setItem` throwing: the write is modelled as accepted or refused (`storageAccepts`). A refused write keeps the new cart and leaves storage stale, as in the source. Partial writes and storage changed by another tab are not modelled.
- `CartProperties.AddKeepsIdsDistinct`: holds only when the catalog reply carries the requested id, because the source appends the catalog's product as it comes.
