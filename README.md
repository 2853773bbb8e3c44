# Storefront persisted state, in Dafny

This project models the client-side state layer of a small React storefront.
Four stores each keep an in-memory list and mirror it to browser `localStorage`:

- **Identity store** (`AuthContext`): the session, the credential registry and the route gate `ProtectedRoute`.
- **Catalogue** (`ProductContext`): the admin-editable product list, stored under `ecomProducts`.
- **Cart** (`CartContext`): one record per identity, under `ecomCartItems_<email or guest>`.
- **Order ledger** (`OrderContext`): one history per identity, under `ecomOrderHistory_<email or guest>`, plus an admin view across all identities.

On top of the cart sits the **Buy Now** flow. The product card saves the cart to `sessionStorage` under `originalCartBackup_<identity>` and replaces it with a single line. The checkout page buys that line and then restores the backup.

Each store is a class. Its fields are the in-memory state and its typed slice of storage. Its `Valid()` says the persistence effect has run, so the record equals the list. Methods state the new state as functions of the old one. The list computations (`map`, `filter`, spread, `reduce`, `find`) are pure functions. Lemmas prove what the stores promise about them:

- one line per product id;
- totals;
- "nothing else changes";
- idempotent delete;
- id uniqueness;
- the admin view restricted to one identity being exactly that identity's history.

`Storefront.Shop` composes the stores the way `src/main.jsx` nests the providers. The cart and the ledger both follow the identity `user?.email || 'guest'`.

Modelling conventions:

- Money is integer cents. Dates are integer milliseconds.
- Order ids, product ids and timestamps are supplied by the caller.
- Each storage slice is a `map` from key to a typed value. A record that does not parse is absent. The exception is `ecomUser`, whose unreadable case resets the whole session.

Three behaviours of the code are modelled as written:

- **The cart is carried across identity changes.** In `CartContext.jsx` the save effect (lines 27-30) is declared before the reload effect (lines 33-35). When the identity changes, the save effect writes the list still in memory under the new identity's key. The reload effect then reads that same record back. So after login, register or logout the new identity sees the previous identity's lines, and its own stored cart is overwritten. `Cart.CartStore.SwitchIdentity` and `Storefront.Shop.Login`/`Register`/`Logout` state this. The comment at line 32 describes the reload as re-initialising the cart for the user. The order ledger has no save effect, so its reload does switch to the new identity's history.
- **Arriving at checkout with an empty cart loses the backup.** The first render (`Checkout.jsx:228`, `246-248`) sees `originalCart` still null and renders the redirect before the mount effect has read the backup, and leaving runs the cleanup that removes it (`Checkout.CheckoutPage.Open`).
- **Leaving checkout loses the cart that Buy Now replaced.** The unmount cleanup (`Checkout.jsx:240-242`) only removes the backup. The cart keeps the single Buy Now line (`Checkout.BuyNowThenLeave`).

## Model

| member | source | states |
|---|---|---|
| Keys.StripPrefix | src/context/OrderContext.jsx:50-51 | removing the prefix from a key that starts with it gives the identity back, so prefix + identity rebuilds the key |
| Keys.PrefixedInjective | src/context/OrderContext.jsx:11 | two identities never share a prefixed storage key, and a prefixed key strips back to its identity |
| Auth.ScopeId | src/context/CartContext.jsx:21 | the scoping identity is never empty: the email when a user with a non-empty email is present, otherwise `guest` |
| Auth.Matches | src/context/AuthContext.jsx:67 | an entry matches iff it is the record of exactly this email and password, whatever its role and name |
| Auth.EmailTaken | src/context/AuthContext.jsx:84 | an email is taken iff some registered entry carries it |
| Auth.FindCredential | src/context/AuthContext.jsx:67 | nothing is found iff no entry matches email and password exactly; otherwise the result is the first matching entry |
| Auth.InitialRegistry | src/context/AuthContext.jsx:14-23 | the registry is the stored list, or the seeded defaults when the record is absent or unreadable |
| Auth.DefaultRegistry | src/context/AuthContext.jsx:8-11 | the seeded registry holds two users, an admin then a client, with distinct emails |
| Auth.InitialSession | src/context/AuthContext.jsx:25-39 | authenticated iff the token is a non-empty string; role is the stored role or `client`; an unreadable user record gives the signed-out session; a readable record restores exactly its profile, and no record gives no user |
| Auth.PersistSession | src/context/AuthContext.jsx:47-57 | an authenticated session writes the simulated token, its role and its user; otherwise all three keys are removed |
| Auth.SessionRoundTrip | src/context/AuthContext.jsx:25-57 | a fresh start rebuilds exactly the last mirrored session iff that session is authenticated with a role, or is the signed-out one |
| Auth.Gate | src/context/AuthContext.jsx:128-145 | unauthenticated goes to login; authenticated with `allowedRoles` not listing the role goes home; otherwise the page renders; each iff |
| Auth.AdminGate | src/App.jsx:33-34 | the admin routes render iff the session is authenticated with role `admin` |
| Auth.IdentityStore.constructor | src/context/AuthContext.jsx:41-62 | state is read from storage and both effects mirror it back |
| Auth.IdentityStore.Login | src/context/AuthContext.jsx:65-81 | succeeds iff some entry matches exactly; the session then carries that entry's role and profile; a failure changes neither session nor keys; the registry never changes |
| Auth.IdentityStore.Register | src/context/AuthContext.jsx:83-102 | succeeds iff the email is not taken; appends exactly one client entry and signs it in; a failure changes nothing; unique emails stay unique |
| Auth.IdentityStore.Logout | src/context/AuthContext.jsx:104-107 | the session becomes signed out (role `client`, no user) and the session keys are removed |
| Catalogue.InitialProducts | src/context/ProductContext.jsx:14-23 | the catalogue is the stored list, or the three defaults |
| Catalogue.DefaultCatalogue | src/context/ProductContext.jsx:7-11 | the defaults have distinct ids and none is sold out |
| Catalogue.Prepend | src/context/ProductContext.jsx:39-47 | one product in front, with the fresh id and `soldOut` false over the supplied fields, the old list after it; unique ids stay unique for a fresh id |
| Catalogue.Update | src/context/ProductContext.jsx:49-53 | same length and order; exactly the entries with the update's id are replaced |
| Catalogue.UpdateUnknown | src/context/ProductContext.jsx:50-52 | an update for an absent id leaves the list unchanged |
| Catalogue.UpdateKeepsIds | src/context/ProductContext.jsx:49-53 | an update keeps every id in place, so unique ids stay unique |
| Catalogue.Delete | src/context/ProductContext.jsx:55-57 | keeps exactly the products with another id; none with the deleted id remains |
| Catalogue.DeleteAbsent | src/context/ProductContext.jsx:56 | deleting an absent id changes nothing |
| Catalogue.DeleteConcat | src/context/ProductContext.jsx:56 | the survivors keep their order: delete distributes over concatenation |
| Catalogue.DeleteKeepsIdsUnique | src/context/ProductContext.jsx:55-57 | deleting from a list with unique ids leaves unique ids |
| Catalogue.ProductStore.constructor | src/context/ProductContext.jsx:25-35 | the list starts as the initial catalogue and the record mirrors it |
| Catalogue.ProductStore.AddProduct | src/context/ProductContext.jsx:39-47 | the list becomes the prepended list, the record follows, unique ids stay unique for a fresh id |
| Catalogue.ProductStore.UpdateProduct | src/context/ProductContext.jsx:49-53 | the list becomes the updated list, unchanged for an unknown id, ids stay unique, the record follows |
| Catalogue.ProductStore.DeleteProduct | src/context/ProductContext.jsx:55-57 | the list loses that id, unchanged when absent, ids stay unique, the record follows |
| Cart.CartKeyInjective | src/context/CartContext.jsx:11 | two identities never share a cart record key |
| Cart.LineFor | src/context/CartContext.jsx:40 | finds a line with the id iff the cart has one, and then the first such line |
| Cart.TotalQuantity | src/context/CartContext.jsx:82 | an empty cart totals 0; with positive quantities every line adds at least one unit |
| Cart.TotalCost | src/context/CartContext.jsx:83 | an empty cart costs 0; a single line costs its price times its quantity |
| Cart.TotalCostNonNegative | src/context/CartContext.jsx:83 | with non-negative prices and quantities the cost is never negative |
| Cart.Increment | src/context/CartContext.jsx:44-46 | same length and products; the lines with the id grow by q, every other line is unchanged |
| Cart.AddLine | src/context/CartContext.jsx:39-50 | an existing id grows in place with the length unchanged; a new id appends exactly `{...product, quantity}`; the id is then present; one line per id and positive quantities are preserved |
| Cart.SetQuantity | src/context/CartContext.jsx:64-66 | same length and products; the matching line's quantity is n verbatim, the rest untouched |
| Cart.SetQuantityAbsent | src/context/CartContext.jsx:64-66 | setting the quantity of an absent id changes nothing |
| Cart.RemoveId | src/context/CartContext.jsx:71 | keeps exactly the lines with another id; none with the removed id remains |
| Cart.RemovedLabel | src/context/CartContext.jsx:70-72 | the notice names the removed product, or reads `Item` when there is none or its name is empty |
| Cart.InitialCart | src/context/CartContext.jsx:8-17 | the record under the identity's key, or an empty cart for no identity or no readable record |
| Cart.TotalsConcat | src/context/CartContext.jsx:82-83 | both totals are sums over the lines: they add up over concatenation |
| Cart.IncrementTotals | src/context/CartContext.jsx:40-46 | incrementing a present id raises total quantity, cost and that id's quantity by the increment; other ids are unaffected |
| Cart.AddLineTotals | src/context/CartContext.jsx:39-50 | adding raises the total quantity and that product's quantity by `quantity`, the cost by `quantity` times the line's unit price, and leaves other products alone |
| Cart.AddRepeatedlyQuantity | src/context/CartContext.jsx:39-50 | after any sequence of adds of one product there is one line per id, and that product's quantity grew by the sum added |
| Cart.RepeatedAddsMakeOneLine | src/context/CartContext.jsx:39-50 | repeated adds of a new product leave a single line for it whose quantity is the sum of the added quantities |
| Cart.RemoveIdTotals | src/context/CartContext.jsx:69-73 | removal takes exactly that id's quantity out of the total and leaves other ids alone |
| Cart.RemoveAbsent | src/context/CartContext.jsx:71 | removing an absent id changes nothing |
| Cart.RemoveConcat | src/context/CartContext.jsx:71 | the remaining lines keep their order: removal distributes over concatenation |
| Cart.RemoveKeepsInvariants | src/context/CartContext.jsx:69-73 | removal preserves one line per id and positive quantities |
| Cart.SetQuantityTotals | src/context/CartContext.jsx:64-66 | setting a quantity keeps one line per id, keeps quantities positive for a positive n, and moves the total by n minus the id's old quantity |
| Cart.CartStore.constructor | src/context/CartContext.jsx:19-35 | the cart starts as the identity's record and the save effect writes it back |
| Cart.CartStore.SetCartItems | src/context/CartContext.jsx:24-30 | the list becomes the given lines and only the current identity's record changes, to the same lines |
| Cart.CartStore.AddToCart | src/context/CartContext.jsx:39-52 | the list becomes `AddLine` of the old one; only the identity's record follows |
| Cart.CartStore.RemoveFromCart | src/context/CartContext.jsx:69-73 | the list loses every line with the id; the notice is the removed product's label; only the identity's record follows |
| Cart.CartStore.UpdateQuantity | src/context/CartContext.jsx:54-67 | rejected with no change iff n is negative; 0 is exactly a removal; positive n sets the quantity verbatim, a no-op for an absent id |
| Cart.CartStore.ClearCart | src/context/CartContext.jsx:75-78 | the cart and the identity's record become empty |
| Cart.CartStore.SwitchIdentity | src/context/CartContext.jsx:27-35 | on a new identity the list in memory is unchanged and is written over the new identity's record; every other record is untouched |
| Orders.OrderKeyInjective | src/context/OrderContext.jsx:11 | distinct identities have distinct history keys |
| Orders.OrdersOf | src/context/OrderContext.jsx:8-17 | an empty id or a missing or unreadable record gives no orders; otherwise the stored history |
| Orders.SaveOrders | src/context/OrderContext.jsx:20-27 | an empty id writes nothing; otherwise that identity's history becomes the list and every other identity's is unchanged |
| Orders.FindOrder | src/context/OrderContext.jsx:94 | nothing iff no order has the id; otherwise the first order with that id |
| Orders.RemoveOrder | src/context/OrderContext.jsx:104 | keeps exactly the orders with another id; none with the removed id remains |
| Orders.RemoveOrderAbsent | src/context/OrderContext.jsx:103-106 | removing an absent id changes nothing |
| Orders.RemoveOrderConcat | src/context/OrderContext.jsx:104 | the remaining orders keep their order |
| Orders.DeleteTwice | src/context/OrderContext.jsx:97-120 | a second delete of the same order for the same identity leaves storage unchanged |
| Orders.PlacedOrderIsFound | src/context/OrderContext.jsx:69-95 | after an order is put in front of an identity's history, looking its id up for that identity finds it |
| Orders.TagAll | src/context/OrderContext.jsx:54-57 | every order, in order, tagged with the owner |
| Orders.Contribution | src/context/OrderContext.jsx:50-58 | a key adds nothing unless it is a stored history key; then it adds every order of that record, each tagged with the identity whose key it is |
| Orders.Gather | src/context/OrderContext.jsx:48-62 | every gathered order sits in the stored record of its owner's key, that key enumerated; every order of every enumerated history key is gathered |
| Orders.InsertByDate | src/context/OrderContext.jsx:63 | inserting adds exactly one order: the result is a permutation of the list plus it |
| Orders.InsertKeepsSorted | src/context/OrderContext.jsx:63 | inserting into a list sorted newest first keeps it sorted |
| Orders.SortByDateDesc | src/context/OrderContext.jsx:63 | the sort is a permutation of its input, sorted newest first |
| Orders.OwnedByConcat | src/context/OrderContext.jsx:54 | keeping one owner's orders distributes over concatenation |
| Orders.OwnedByTagAll | src/context/OrderContext.jsx:54-57 | from one identity's tagged orders, an owner keeps all of them if it is that identity and none otherwise |
| Orders.OwnedByInsert | src/context/OrderContext.jsx:63 | on a sorted list, keeping one owner's orders commutes with the stable insertion |
| Orders.OwnedBySort | src/context/OrderContext.jsx:63 | keeping one owner's orders commutes with the stable date sort |
| Orders.OwnedByGather | src/context/OrderContext.jsx:48-62 | with each key enumerated once, one owner's gathered orders are exactly its own tagged record |
| Orders.AdminViewOfOneIdentity | src/context/OrderContext.jsx:45-64 | the admin view restricted to one identity is that identity's history, tagged and sorted newest first |
| Orders.OrderLedger.constructor | src/context/OrderContext.jsx:29-41 | the visible history is the current identity's stored history |
| Orders.OrderLedger.GetOrderById | src/context/OrderContext.jsx:92-95 | a found order has the id and belongs to that identity's history; nothing iff no order there has the id |
| Orders.OrderLedger.PlaceOrder | src/context/OrderContext.jsx:69-90 | returns the new id; exactly one order goes in front of the target identity's history; every other identity is untouched; lookup then finds it; the visible history changes only for the current identity |
| Orders.OrderLedger.DeleteOrder | src/context/OrderContext.jsx:97-120 | refused iff the identity is empty, and then nothing changes; otherwise every order with the id leaves that identity's history only; the visible history follows only for the current identity |
| Orders.OrderLedger.GetAllOrders | src/context/OrderContext.jsx:45-64 | every order under every history key, tagged with its owner, as a sorted permutation; for each identity, its part is exactly its own history sorted |
| Orders.OrderLedger.SwitchIdentity | src/context/OrderContext.jsx:36-41 | after an identity change the visible history is the new identity's; storage is untouched |
| Storefront.BackupKey | src/components/ProductCard.jsx:133-134 | the backup key is the backup prefix followed by the identity, which the key's suffix gives back |
| Storefront.BackupKeyInjective | src/components/ProductCard.jsx:133-134 | two identities never share a backup key |
| Storefront.Shop.UserId | src/context/OrderContext.jsx:31 | every scoped store uses one non-empty identity derived from the session |
| Storefront.Shop.constructor | src/main.jsx:17-30 | every store starts from its records, and the cart and the ledger are scoped to the session's identity; the cart's save effect writes only the identity's record, every other cart record is as stored |
| Storefront.Shop.Rescope | src/context/CartContext.jsx:27-35 | after a session change the cart keeps its list and writes it over the new identity's record, and the ledger shows the new identity's history |
| Storefront.Shop.Login | src/context/AuthContext.jsx:65-81 | succeeds iff some entry matches; the session then carries the first match's role and profile; a failure changes no session, cart record or history; the cart in memory is carried over and written over a new identity's record, nothing is written when the identity stays; the ledger shows the identity's orders |
| Storefront.Shop.Register | src/context/AuthContext.jsx:83-102 | succeeds iff the email is not taken; then exactly one client entry is appended and signed in, and a non-empty email becomes the identity; unique emails stay unique; a failure changes no registry, session, cart record or history; the cart is carried over to a new identity and nothing is written when the identity stays; the ledger shows the identity's orders |
| Storefront.Shop.Logout | src/context/AuthContext.jsx:104-107 | the registry is unchanged; the session is signed out and the identity is `guest`; the guest inherits the cart in memory, written over its record unless the identity was already `guest`, and sees the guest's order history |
| ProductCard.BuyNowLine | src/components/ProductCard.jsx:132 | the Buy Now line is the product with quantity 1, costing the product's price |
| ProductCard.HandleAddToCart | src/components/ProductCard.jsx:115-122 | signed out: redirected and no cart change; signed in: exactly `addToCart(product, 1)` |
| ProductCard.HandleBuyNow | src/components/ProductCard.jsx:124-156 | signed out: redirected, no backup, no cart change; signed in: the old cart is backed up under the identity's key and the cart becomes the single Buy Now line |
| Checkout.ShippingComplete | src/pages/Checkout.jsx:264 | the form passes iff none of the shipping values is empty |
| Checkout.ItemsToPurchase | src/pages/Checkout.jsx:251 | the cart has priority when it has lines; otherwise the backup; it buys nothing but the cart or the backup, and nothing only with an empty cart |
| Checkout.MustRedirect | src/pages/Checkout.jsx:246-248 | a redirect means there is nothing to buy; without a redirect there is something to buy unless the backup is an empty list |
| Checkout.CheckoutOrder | src/pages/Checkout.jsx:251-252 | the order buys the cart when it has lines, otherwise the backup, for the sum of price times quantity |
| Checkout.BuyNowCheckoutBuysOneLine | src/pages/Checkout.jsx:246-252 | right after Buy Now the page does not redirect and buys the one line at the product's price |
| Checkout.CheckoutPage.Open | src/pages/Checkout.jsx:228-248 | the mount effect reads the current identity's backup; the first render redirects iff the cart is empty, whatever the backup, and the backup is then removed; otherwise storage is untouched |
| Checkout.CheckoutPage.Submit | src/pages/Checkout.jsx:246-295 | redirect iff the first render redirected, or the cart is empty with no backup; rejected iff a shipping field is empty, with no order and no cart change; otherwise one order for the current identity, found by its id, then the cart is the backup or empty and the backup is removed |
| Checkout.CheckoutPage.Leave | src/pages/Checkout.jsx:239-242 | leaving removes the backup and changes no cart |
| Checkout.BuyNowThenCheckout | src/pages/Checkout.jsx:275-286 | Buy Now then a completed checkout records one order for the single line at its price and leaves the cart, in memory and in storage, as it was |
| Checkout.BuyNowThenLeave | src/pages/Checkout.jsx:239-242 | Buy Now then leaving checkout removes the backup, and the cart keeps only the Buy Now line |

## Left out

- Rendering, routing (`navigate`, `<Navigate>`), toasts and console logging are left out. Handlers return an outcome value instead.
- JSON serialisation and the `localStorage`/`sessionStorage` APIs are left out. Each store owns a typed map, and a record that does not parse is absent. A record that parses to a value of the wrong shape (such as `null` where a list is expected) is not modelled.
- Storage writes never fail in the model. The error paths for a failing write are not modelled: the `catch` in `handleBuyNow` and in `saveOrdersByUserId`.
- The clock and `Math.random()` are left out. The order id `ORD-<now>-<random>`, the ISO date, and the product id `Date.now()` are caller-supplied parameters, and dates compare as integers.
- Floating point is left out. Prices and totals are integer cents, so no rounding is modelled. `parseInt` returning NaN for an empty quantity field is not modelled either.
- Catalogue.Update: assumes the merged entry `{...p, ...upd, price: parseFloat(upd.price)}` is `upd` itself. Its only caller, the admin edit form (`src/pages/AdminDashboard.jsx`), passes every product field with a numeric price, and the float parse is left out with floating point.
- React scheduling is left out, apart from the cart's save-then-reload ordering, which is modelled. Effects and state updates are atomic steps, and the 2-second payment delay in `handleSubmit` is one atomic step. StrictMode's double running of effects in development is not modelled.
- Checkout.CheckoutPage.Submit: requires the session identity to still be the one the page was opened for. Changing identity while the checkout page stays mounted is not modelled.
- The checkout form's prefilling from the user's name and email and its field-by-field editing are left out. A submit takes the final shipping details.
- `getAllOrders` takes the order in which `localStorage` enumerates its keys as a parameter. The proof that each identity's part of the view is its own history needs each key to appear once and every stored history key to be among them.
- Orders.AdminViewOfOneIdentity: stated for non-empty identities only. A record stored under the bare prefix `ecomOrderHistory_` is tagged with the empty owner, but the empty identity reads no history.
- The password-length rule of the registration page (`src/pages/Register.jsx`) and the sold-out filter of the home page (`src/pages/Home.jsx`) are page glue and are not part of this model. The live Buy Now does no sold-out check.
- Plaintext password storage is a security concern, not a behaviour, and is not modelled.
