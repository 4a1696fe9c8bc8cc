# BCIT-Store order processing, modelled in Dafny

BCIT-Store is a small inventory and order service. Products have a name, a price and a
quantity in stock. A customer order lists products with requested quantities. Processing an
order walks the order/product association rows in stored order. Each row of that order is
granted the smaller of its request and the stock still left. The reduced stock is written
back to the products, and the order is marked completed, exactly once.

The model lifts the request handlers of `app.py` out of the web framework and the ORM. The
database is the state of one `Store` object:

- `products`: a map from product name to price and quantity;
- `orders`: a map from order id to customer name, address and completed flag;
- `lines`: a sequence of association rows (order id, product name, quantity).

Each handler becomes a method that checks its input and updates those fields.

- `records.dfy` (`Records`): the table rows, the request values the handlers look at, and
  the ASCII case mapping used on names and on the process token.
- `reconcile.dfy` (`Reconcile`): the allocation loop of the process-order handler. It is
  specified by the function `Allocate`, implemented over an array copy of the rows by
  `ReconcileRows`, and has lemmas for what it grants, conservation and bounds.
- `database.dfy` (`Database`): the whole database as a value `Db`, the invariant `Sound`,
  the process-order handler as the function `Process`, order listing (`Listed`), and the
  rows a new order adds (`NewLines`), with their lemmas: idempotence, the state after a
  successful process, and the read-back of a created order.
- `app.dfy` (`App`): the class `Store` with one method per handler. Each method is proved
  against the functions above and keeps `Sound`.

Three behaviours of the code are easy to misread. The model follows the code in each:

- The fulfilled quantity of each row is computed on an in-memory copy only
  (app.py:185-198). It is never written back, so after processing the association rows
  still hold the requested quantities. `Database.ProcessedState` and
  `Database.WidgetScenario` state this.
- Product names are stored exactly as given on creation (app.py:49). Only lookups
  lower-case the requested name (app.py:23, 65, 96).
- Order creation accepts a quantity of 0 (app.py:137), although its error message asks for
  a quantity greater than 0.

The table definitions (`models.py`) are not part of this model. These facts about them are
assumed:

- a product's name is the key of the products table;
- `completed` is false for a new order;
- association rows may repeat an (order, product) pair;
- order ids are handed out by a counter, `nextId`, starting at 1 (the core never deletes an
  order).

## Model

| member | source | states |
|---|---|---|
| `Reconcile.ReconcileRows` | app.py:185-198 | The loop over the row copy leaves the array equal to `Allocate(rows, stock, id).lines`. It leaves the running stock equal to `Allocate(rows, stock, id).stock`. |
| `Reconcile.AllocatedLine` | app.py:193-198 | Take a row of the processed order whose product is in the inventory. Its fulfilled quantity is `min(request, stock left by the rows before it)`. Any other row keeps its quantity. |
| `Reconcile.StockBounds` | app.py:196-198 | Start from non-negative stock and non-negative requests. Every product's running stock then stays between 0 and its starting quantity. |
| `Reconcile.StockConservation` | app.py:196-198 | A product's starting stock minus its final running stock equals the sum of the quantities granted to the processed order's rows for that product. |
| `Reconcile.UnnamedStockUnchanged` | app.py:194-195 | A product that no row of the processed order names keeps its stock. Rows of other orders and rows naming absent products take nothing. |
| `Reconcile.EnoughStock` | app.py:193-198 | Suppose the stock covers every product's total request. Then every row is granted in full, and each stock drops by exactly the total requested. |
| `Reconcile.StockRunsOut` | app.py:193-198 | Suppose the order asks in total for at least a product's stock. Then that product's running stock ends at exactly 0. |
| `Reconcile.SequentialAllocationExample` | app.py:193-198 | With 5 in stock, two rows of 4 are granted 4 and then 1, and the stock ends at 0. |
| `Database.AllocateKeepsRowKeys` | app.py:185-198 | The allocation changes only quantities. Every row keeps its order id and product name. |
| `Database.ProcessedState` | app.py:182-211 | After a successful process, the order is completed and no other order changes. Every product holds its running-stock value, never below 0 or above its old quantity. That value dropped by exactly what was granted. Prices, association rows and products the order does not name are unchanged. |
| `Database.ProcessKeepsSound` | app.py:164-211 | Processing keeps prices, stock and row quantities non-negative, and keeps order ids and row references consistent. |
| `Database.ProcessIdempotent` | app.py:178-179 | Once the token is accepted, a second process of the same order answers "already processed". It leaves the state exactly as the first call left it. |
| `Database.ListedAppend` | app.py:107-115 | Listing an order's rows distributes over appended rows. |
| `Database.ListedMembers` | app.py:109-115 | An entry is listed exactly when some row of that order carries that product name and quantity. |
| `Database.ListedOtherOrders` | app.py:109-110 | Rows of other orders are never listed. |
| `Database.CreatedOrderReadsBack` | app.py:150-157 | Append a new order's rows under an id no earlier row uses. Reading that order back lists exactly its items, in input order. |
| `Database.WidgetScenario` | app.py:164-213 | A widget has 10 in stock and an order asks for 15. Processing grants 10 and leaves the widget at 0. The stored row still says 15. A second call answers "already processed". |
| `Records.TrueTokenCases` | app.py:175-176 | The accepted process tokens are exactly the sixteen case variants of "true". |
| `App.FirstMissingKey` | app.py:32-34 | It returns no key exactly when every required key is present. Otherwise it returns the first required key that is missing. |
| `App.ParseAmounts` | app.py:36-46 | It yields a price and a quantity exactly when both conversions succeed and neither value is negative. These are the converted values. |
| `App.CheckItems` | app.py:132-138 | It finds no error exactly when every item names a stored product and has a non-negative int quantity. Otherwise it returns the error of the first failing item, and an unknown name is reported before a bad quantity. |
| `App.Store.GetProduct` | app.py:21-25 | It returns the product stored under the lower-case name. |
| `App.Store.CreateProduct` | app.py:28-55 | A missing key is rejected with the first missing key. A failed conversion or a negative value is rejected. Otherwise the product is stored under its name. Products change only on success, and other tables never change. |
| `App.Store.UpdateProduct` | app.py:76-102 | A missing key or a bad value is rejected, as in creation. Otherwise the product under the lower-case name gets the new price and quantity. Nothing else changes. |
| `App.Store.DeleteProduct` | app.py:58-72 | Suppose the lower-case name is not stored. Then the call is rejected with the name echoed and products are unchanged. Otherwise exactly the given name is removed. |
| `App.Store.GetOrder` | app.py:104-122 | An unknown id is not found. Otherwise it returns the order's customer, address and completed flag, and the order's rows in stored order. |
| `App.Store.CreateOrder` | app.py:124-160 | The first failing item rejects the order, and no order or row is stored. Otherwise it stores one pending order under the next id and appends one row per item, with the item's quantity, in input order. |
| `App.Store.ProcessOrder` | app.py:164-213 | The new state and the reply are those of `Database.Process`. A token whose upper-case form is not "TRUE" is echoed back and changes nothing. A completed order answers "already processed" and changes nothing. Otherwise the order is reconciled and completed. |
| `App.Store.StoreRunningStock` | app.py:200-206 | Every product that some row names takes its running-stock value. Every other product is unchanged. |
| `App.Store.StoreRunningStockOf` | app.py:201-206 | Scanning the rows for one product writes its running stock exactly when some row names it. |

## Left out

- Web plumbing (routing, request bodies, JSON replies, templates, the home page listing at
  app.py:15-18, `app.run`) and the `print` at app.py:147. A handler's input is a method
  parameter and its answer is a result value.
- The ORM session and its per-row commits (app.py:206). Each handler's updates happen as
  one step on the fields. Transactions, partial commits and concurrent requests are not
  modelled.
- Schema bootstrapping in `create_tables.py`. The initial state is the empty store built by
  the `Store` constructor.
- `float()` and `int()` on arbitrary JSON values. A body member is abstracted as what the
  two conversions return, or their failure (`Field`). `int()` raising TypeError on null or
  a list is not modelled. An order item's quantity is an int or "not an int"
  (`ItemQuantity`).
- Prices are `real` values that are only compared with zero and stored. NaN and infinite
  floats, which pass the sign check, are not modelled.
- `str.lower()` and `str.upper()` are modelled on ASCII letters only. Other Unicode case
  mappings are not modelled.
- Crashes become preconditions and are not modelled as results:
  - processing a missing order once the token is accepted (app.py:178);
  - updating a missing product with a valid body (app.py:98);
  - deleting a name whose lower-case form is stored but which is not itself stored
    (app.py:68);
  - creating a product under a name already stored (a key clash on commit, app.py:54).
- The `request.json is None` check at app.py:172-173 can never answer. The body has
  already been indexed at line 169, so it is left out.
- Deleting a product does not remove the association rows that name it, and the model
  keeps them. Foreign-key behaviour belongs to the unmodelled table definitions.
