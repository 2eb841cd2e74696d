# Orders, cart and ledger: a Dafny model

This project models four pieces of sequential logic from a TypeScript
repository of exercises:

- **Order creation** (`CreateOrderService.execute`). It checks that the
  customer exists. It then looks up all requested products in one batch call
  and rejects the request when that call returns nothing. It reports the
  first requested id that was not found, then the first line that asks for
  more than the stock. On success it prices every line from the catalog and
  computes each line's remaining stock. Last, it makes two mutations in this
  order: a stock update, then the creation of the order.
  - `Orders.Execute` is the validation and computation, as a pure function
    over the customer directory and the product table.
  - `Orders.Process` is the part of `Execute` that runs after the lookup.
  - `Orders.Store` is a class holding the customers, the product table and
    the order list. Its `CreateOrder` method applies a successful plan
    through the two repository methods. A ghost `effects` log records the
    order in which those two methods were called.
- **Cart list operations** (`addToCart`, `increment`, `decrement`). Each one
  maps the old cart, an ordered sequence of lines, to the new cart.
  `Cart.AddToCart` is a function because the source builds its result with
  `map` and spread. `Cart.Increment` and `Cart.Decrement` are loop methods
  because the source's filter callbacks update each line one at a time.
- **Cart aggregates** (`totalItensInCart` and the sum inside `cartTotal`).
  These are folds over the cart. `Folds` models JavaScript's
  `reduce((a, b) => a + b)` with and without a seed.
- **Transaction ledger** (`TransactionsRepository`). This is a class with an
  append-only `seq` of transactions. Its balance is a pure function.

Prices, stock quantities and transaction values are unbounded integers
(cents for money) in place of JavaScript numbers.

The model follows the code in these details:

- `InsufficientStock` carries the quantity the offending line *requested*
  (`CreateOrderService.ts` line 66). The error message reads as if it named
  the stock that is not available, but it does not carry the catalog's
  remaining stock.
- Availability is checked per line against the stock the lookup returned.
  Duplicate ids are not aggregated, so two lines of 3 against a stock of 5
  both pass. `Orders.DuplicateOversell` shows this case.
- Nothing rejects an empty request or a non-positive quantity before the
  pipeline runs. An empty request finds no products and fails with
  `NoProductsFound`. A negative quantity passes the stock check and
  *raises* the stock.
- The code classifies no persistence failure and has no rollback. The
  collaborators here never fail.

`findAllById`, `updateQuantity` and `ordersRepository.create` are not shown
in the source, so they are modelled as operations on tables:

- The lookup returns the catalog rows whose ids were requested, each once,
  in order of first request.
- The stock update writes the new quantities in order, so for an id that
  appears twice the later write stands.
- Order creation appends the order to the order list.

## Model

| member | source | states |
|---|---|---|
| `Orders.FindCustomer` | 08-typeorm-relations/src/modules/orders/services/CreateOrderService.ts:34 | the customer is found exactly when its id is in the directory, and it is that entry |
| `Orders.FindAllById` | 08-typeorm-relations/src/modules/orders/services/CreateOrderService.ts:40 | every found product is the catalog's row for its id; a requested id is found exactly when the catalog has it; a request with no catalog id finds nothing |
| `Orders.AddRowCovers` | 08-typeorm-relations/src/modules/orders/services/CreateOrderService.ts:40 | one more requested line keeps the found rows catalog rows and finds the new id exactly when the catalog has it |
| `Orders.AddRowExact` | 08-typeorm-relations/src/modules/orders/services/CreateOrderService.ts:40 | one more requested line keeps the found rows to requested ids, each once |
| `Orders.FirstRequestOrder` | 08-typeorm-relations/src/modules/orders/services/CreateOrderService.ts:40 | a request for a, b, a finds the row for a, then the row for b: order of first request, each once |
| `Orders.FindAllByIdExact` | 08-typeorm-relations/src/modules/orders/services/CreateOrderService.ts:40 | every found product's id was requested, and no id is found twice |
| `Orders.Ids` | 08-typeorm-relations/src/modules/orders/services/CreateOrderService.ts:46 | the ids of the found products, position by position |
| `Orders.Lookup` | 08-typeorm-relations/src/modules/orders/services/CreateOrderService.ts:60 | `filter(p => p.id === id)[0]` is one of the found products, with that id |
| `Orders.LookupIsFirst` | 08-typeorm-relations/src/modules/orders/services/CreateOrderService.ts:60 | the lookup's answer is the first found product with that id: no earlier product has it |
| `Orders.Missing` | 08-typeorm-relations/src/modules/orders/services/CreateOrderService.ts:48-50 | the not-found filter is empty exactly when every requested id was found |
| `Orders.MissingHead` | 08-typeorm-relations/src/modules/orders/services/CreateOrderService.ts:48-56 | the head of the not-found filter is the first missing line in request order |
| `Orders.Short` | 08-typeorm-relations/src/modules/orders/services/CreateOrderService.ts:58-62 | the shortage filter is empty exactly when every line's found stock is at least its requested quantity |
| `Orders.ShortHead` | 08-typeorm-relations/src/modules/orders/services/CreateOrderService.ts:58-68 | the head of the shortage filter is the first short line in request order |
| `Orders.PricedLines` | 08-typeorm-relations/src/modules/orders/services/CreateOrderService.ts:70-74 | one order line per requested line, in order, with the requested id and quantity and the found product's price |
| `Orders.Remaining` | 08-typeorm-relations/src/modules/orders/services/CreateOrderService.ts:76-81 | one update per requested line: the found stock minus that line's quantity, each from the stock originally found |
| `Orders.Process` | 08-typeorm-relations/src/modules/orders/services/CreateOrderService.ts:40-81 | succeeds exactly when something was found, every id was found and every line fits; a plan names the customer and has no negative stock update; a failure here is never CustomerNotFound |
| `Orders.Execute` | 08-typeorm-relations/src/modules/orders/services/CreateOrderService.ts:33-81 | an unknown customer gives CustomerNotFound, and no other failure is CustomerNotFound; a plan names the customer found under the requested id, has one order line and one stock update per requested line, and no negative stock update |
| `Orders.UnknownCustomerRejected` | 08-typeorm-relations/src/modules/orders/services/CreateOrderService.ts:34-38 | an unknown customer gives CustomerNotFound, with no plan and so no mutation |
| `Orders.NoProductsIff` | 08-typeorm-relations/src/modules/orders/services/CreateOrderService.ts:40-44 | for a known customer, NoProductsFound is raised exactly when no requested id is in the catalog, including for an empty request |
| `Orders.FirstUnknownRejected` | 08-typeorm-relations/src/modules/orders/services/CreateOrderService.ts:46-56 | when something was found, the error names the first requested id the catalog lacks |
| `Orders.FirstShortageRejected` | 08-typeorm-relations/src/modules/orders/services/CreateOrderService.ts:58-68 | the error names the first line whose stock is strictly below its request, with the requested quantity; equality passes |
| `Orders.FirstShortIsFirstShortage` | 08-typeorm-relations/src/modules/orders/services/CreateOrderService.ts:58-62 | when every id is in the catalog, every line is found, and the first line short of the catalog's stock is the first line short of the found stock |
| `Orders.SucceedsIff` | 08-typeorm-relations/src/modules/orders/services/CreateOrderService.ts:33-81 | execute succeeds exactly when the customer exists, the request is non-empty, every id is in the catalog and every line fits its stock |
| `Orders.SuccessPlan` | 08-typeorm-relations/src/modules/orders/services/CreateOrderService.ts:70-81 | on success the plan names the found customer; its lines match the request in length and order with catalog prices; each stock update is catalog stock minus requested quantity, never negative |
| `Orders.FirstUnknownExists` | 08-typeorm-relations/src/modules/orders/services/CreateOrderService.ts:48-56 | a request with an id the catalog lacks has a first such line |
| `Orders.FirstShortageExists` | 08-typeorm-relations/src/modules/orders/services/CreateOrderService.ts:58-68 | a request that does not fit the stock has a first short line |
| `Orders.Rejections` | 08-typeorm-relations/src/modules/orders/services/CreateOrderService.ts:33-68 | every failure is exactly one of the four rejections, in pipeline order, with its payload |
| `Orders.SetQuantity` | 08-typeorm-relations/src/modules/orders/services/CreateOrderService.ts:83 | one update sets that product's quantity, keeps its price and leaves all other rows alone |
| `Orders.ApplyUpdates` | 08-typeorm-relations/src/modules/orders/services/CreateOrderService.ts:83 | the stock update keeps the set of products and every price |
| `Orders.ApplyKeepsNonNegative` | 08-typeorm-relations/src/modules/orders/services/CreateOrderService.ts:76-83 | writing non-negative quantities keeps every stock non-negative |
| `Orders.ApplyUntouched` | 08-typeorm-relations/src/modules/orders/services/CreateOrderService.ts:83 | a product that no update names keeps its row |
| `Orders.ApplyLastWins` | 08-typeorm-relations/src/modules/orders/services/CreateOrderService.ts:83 | the last update naming a product decides its quantity |
| `Orders.StockAfterOrder` | 08-typeorm-relations/src/modules/orders/services/CreateOrderService.ts:76-83 | with no id requested twice, a successful order lowers each requested product's stock by exactly its requested quantity and keeps its price |
| `Orders.UntouchedAfterOrder` | 08-typeorm-relations/src/modules/orders/services/CreateOrderService.ts:76-83 | a successful order leaves every product it does not name as it was |
| `Orders.SuccessUpdates` | 08-typeorm-relations/src/modules/orders/services/CreateOrderService.ts:76-81 | on success every id is in the catalog and there is one stock update per line: that line's id with catalog stock minus requested quantity |
| `Orders.ApplyPlanned` | 08-typeorm-relations/src/modules/orders/services/CreateOrderService.ts:76-83 | writing, for distinct ids, catalog stock minus the requested quantity sets each named product to exactly that, with its price |
| `Orders.DuplicateOversell` | 08-typeorm-relations/src/modules/orders/services/CreateOrderService.ts:58-81 | two lines of 3 against a stock of 5 both pass: 6 units are ordered and the stock ends at 2 |
| `Orders.ShortLineScenario` | 08-typeorm-relations/src/modules/orders/services/CreateOrderService.ts:58-68 | one short line rejects the whole request with InsufficientStock of the short product and the requested quantity 1 |
| `Orders.SingleLineScenario` | 08-typeorm-relations/src/modules/orders/services/CreateOrderService.ts:70-83 | 2 units of a product with stock q give one order line at the catalog price, and the stock becomes q - 2 |
| `Orders.RepeatedOrder` | 08-typeorm-relations/src/modules/orders/services/CreateOrderService.ts:83-90 | the same request made twice creates two orders and takes the stock down twice |
| `Orders.Store.constructor` | 08-typeorm-relations/src/modules/orders/services/CreateOrderService.ts:22-31 | the service starts from the given directory and product table, with no orders and no mutations |
| `Orders.Store.UpdateQuantity` | 08-typeorm-relations/src/modules/orders/services/CreateOrderService.ts:83 | the product table becomes the old one with the updates applied; orders unchanged; the call is logged |
| `Orders.Store.CreateOrderRecord` | 08-typeorm-relations/src/modules/orders/services/CreateOrderService.ts:85-88 | appends and returns the order for the customer and lines; products unchanged; the call is logged |
| `Orders.Store.CreateOrder` | 08-typeorm-relations/src/modules/orders/services/CreateOrderService.ts:33-91 | on a rejection returns it and changes nothing; on success updates stock, then creates the order for the found customer, returns it, and keeps non-negative stock non-negative |
| `Cart.WithQuantity` | 07-fundamentos-react-native/src/hooks/cart.tsx:52-53 | the line carries all of the item's fields and the given quantity |
| `Cart.Find` | 07-fundamentos-react-native/src/hooks/cart.tsx:45 | `find` gives a line exactly when some line has the id, and that line is in the cart with the id |
| `Cart.FindIsFirst` | 07-fundamentos-react-native/src/hooks/cart.tsx:45 | `find` gives the first line with the id |
| `Cart.IncrementLine` | 07-fundamentos-react-native/src/hooks/cart.tsx:69-74 | only the quantity may change, and it goes up by 1 exactly when the id matches |
| `Cart.DecrementLine` | 07-fundamentos-react-native/src/hooks/cart.tsx:84-91 | only the quantity may change; it goes down by 1 exactly when the id matches and it is above 1, so a quantity of at least 1 stays at least 1 |
| `Cart.Merge` | 07-fundamentos-react-native/src/hooks/cart.tsx:49-56 | same length; each line with the item's id is rebuilt from the item with quantity + 1; others are kept |
| `Cart.AddToCart` | 07-fundamentos-react-native/src/hooks/cart.tsx:45-59 | a new id is appended at the end with quantity 1 and earlier lines kept; an existing id keeps the length and every matching line gets quantity + 1 and the item's fields; other ids are untouched; the ids afterwards are the old ones plus the item's |
| `Cart.Incremented` | 07-fundamentos-react-native/src/hooks/cart.tsx:69-75 | the cart after increment, line by line through the filter callback |
| `Cart.Decremented` | 07-fundamentos-react-native/src/hooks/cart.tsx:84-93 | the cart after decrement, line by line through the filter callback |
| `Cart.Increment` | 07-fundamentos-react-native/src/hooks/cart.tsx:67-75 | no line is removed; matching lines gain 1 and others are unchanged; an id not in the cart leaves the cart as it was |
| `Cart.Decrement` | 07-fundamentos-react-native/src/hooks/cart.tsx:82-93 | no line is removed; a matching line loses 1 only when above 1, so 1 stays 1; others are unchanged; an id not in the cart leaves the cart as it was |
| `Cart.AddKeepsDistinct` | 07-fundamentos-react-native/src/hooks/cart.tsx:45-59 | adding keeps the cart at one line per id |
| `Folds.ReduceAdd` | 04-fundamentos-node/src/repositories/TransactionsRepository.ts:33 | the seeded reduce with + is the seed plus the sum |
| `Folds.ReduceAddNoSeed` | 07-fundamentos-react-native/src/components/FloatingCart/index.tsx:29-31 | the seedless reduce of a non-empty list agrees with the reduce seeded at 0 and with the sum |
| `FloatingCart.Quantities` | 07-fundamentos-react-native/src/components/FloatingCart/index.tsx:28 | the quantities of the lines, position by position |
| `FloatingCart.QuantitiesSum` | 07-fundamentos-react-native/src/components/FloatingCart/index.tsx:27-31 | the sum of the mapped quantities is the sum of the line quantities |
| `FloatingCart.TotalItemsInCart` | 07-fundamentos-react-native/src/components/FloatingCart/index.tsx:24-34 | 0 for an empty cart and the sum of all line quantities otherwise, so one total function of the cart |
| `FloatingCart.ReduceTotal` | 07-fundamentos-react-native/src/components/FloatingCart/index.tsx:37-39 | the reduce with price × quantity is the seed plus the cart's value |
| `FloatingCart.CartTotal` | 07-fundamentos-react-native/src/components/FloatingCart/index.tsx:36-40 | the unformatted total is the sum of price × quantity, 0 for an empty cart |
| `FloatingCart.AddToCartCount` | 07-fundamentos-react-native/src/hooks/cart.tsx:45-59 | addToCart raises the item count by the number of matching lines, or by 1 for a new id |
| `FloatingCart.AddToCartAddsOne` | 07-fundamentos-react-native/src/hooks/cart.tsx:45-59 | on a cart with one line per id, addToCart raises the item count by exactly 1 |
| `FloatingCart.IncrementCount` | 07-fundamentos-react-native/src/hooks/cart.tsx:69-75 | increment raises the item count by the number of matching lines and the total by their prices |
| `FloatingCart.DecrementCount` | 07-fundamentos-react-native/src/hooks/cart.tsx:84-93 | decrement lowers the item count by the number of matching lines above 1 |
| `Transactions.ValuesOf` | 04-fundamentos-node/src/repositories/TransactionsRepository.ts:29-32 | each transaction's value if it is of the given kind, else 0, position by position |
| `Transactions.ValuesSum` | 04-fundamentos-node/src/repositories/TransactionsRepository.ts:29-39 | the sum of the mapped values is the filtered sum of that kind |
| `Transactions.BalanceOf` | 04-fundamentos-node/src/repositories/TransactionsRepository.ts:28-44 | income is the sum of income values, outcome the sum of outcome values, total is income − outcome |
| `Transactions.EmptyBalance` | 04-fundamentos-node/src/repositories/TransactionsRepository.ts:28-44 | an empty ledger gives all zeros |
| `Transactions.AppendBalance` | 04-fundamentos-node/src/repositories/TransactionsRepository.ts:29-41 | appending an income of v raises income and total by v with outcome unchanged; an outcome of v raises outcome by v and lowers total by v |
| `Transactions.TransactionsRepository.constructor` | 04-fundamentos-node/src/repositories/TransactionsRepository.ts:20-22 | a new repository holds no transactions |
| `Transactions.TransactionsRepository.All` | 04-fundamentos-node/src/repositories/TransactionsRepository.ts:24-26 | returns the stored transactions, in insertion order |
| `Transactions.TransactionsRepository.GetBalance` | 04-fundamentos-node/src/repositories/TransactionsRepository.ts:28-44 | the balance of the stored transactions; as a function it reads and cannot modify them |
| `Transactions.TransactionsRepository.Create` | 04-fundamentos-node/src/repositories/TransactionsRepository.ts:46-51 | appends exactly one transaction at the end, returns it, earlier ones unchanged |
| `Transactions.LedgerExample` | 04-fundamentos-node/src/repositories/TransactionsRepository.ts:24-51 | two creates are listed in creation order and balance to income − outcome |

## Left out

- Persisting the cart is left out because it is I/O with asynchronous
  timing. That covers the load from storage and the writes after each
  operation, including the writes that save the array as it was before the
  update.
- React context and hooks plumbing, navigation and rendering are left out
  because they are UI.
- `formatValue` and currency formatting are left out because their source is
  not part of this model.
- Floating-point arithmetic is left out: money and quantities are integers.
- Dependency injection, the ORM entities and the real repositories are left
  out. The three repositories are modelled as tables.
- The order id the order repository assigns is left out because its
  implementation is not shown.
- The `Transaction` constructor's internals, such as id generation, are left
  out because they are not shown. A transaction is its title, value and
  kind.
- Concurrency is left out. So is atomicity between the stock update and
  order creation, and so are failures of either call: no handling for them
  exists in the service.
- Error message strings are left out. The error variants carry their payload
  fields instead.
- Cart.Increment: the source changes the line objects in place, and those
  objects are shared with the previous state array. That aliasing is not
  modelled: the method builds a new sequence of line values.
- Cart.Decrement: the in-place mutation of shared line objects is modelled by
  value, the same as for increment.
- Transactions.TransactionsRepository.All: the source hands out its internal
  array itself, so a caller could mutate it. The model returns the sequence
  as a value.
- Orders.Store.UpdateQuantity: the write order for an id named twice
  (the later write stands) is an assumption. The real repository is not
  part of this model.
