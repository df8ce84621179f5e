# Stock accounting of the TiendaOnline back end

A Dafny model of the stock bookkeeping done by the request handlers in
`TiendaOnline/views.py`. Each handler is one atomic step on the store's
state:

- the integer `cantidad_en_stock` of every product;
- the temporary cart rows (`CarritoTemp`: user, product, `cantidad_prod`);
- the orders (`Pedido`: user, `estado_compra`, `es_movimiento_interno`);
- the order lines (`PedidoDetalle`: order, product, `cantidad_prod`).

Each handler returns `Ok(value)` or a typed `Rejected(reason)`. The reasons are:

- `InvalidQuantity`, `InsufficientStock`, `NotFound`, `InvalidStatus`;
- `NoProducts`, `MissingUser`, `MissingFields`;
- `LineErrors(errors)`, the per-line errors of an order;
- `Internal`, for an exception that the handler's catch-all turns into an error response.

Every method states its whole new state. A rejection leaves the state unchanged, with one exception: when order creation is refused with `LineErrors`, the stock keeps the decrements of the lines that passed.

The model follows the code, including where the handlers disagree about stock:

- Adding to a cart changes no stock. Clearing a cart credits the user's units back, so each clear adds stock that was never taken.
- Deleting an order line credits nothing, because the credit statement is commented out.
- When any requested line of a new order is refused, the order and its lines are deleted, but the stock taken for the lines that passed stays taken.

The class function `Views.Store.Units(p)` is `stock[p]` plus the units of `p` in order lines. Its postconditions show where conservation holds and where it fails:

- Line create, line update of a quantity, order destroy, a completed order create and a movement leave `Units` unchanged.
- Line destroy lowers `Units` by the line's quantity.
- A refused order create lowers `Units` by all the units the loop sold. The loop goes on past a refused line, so lines after it are still sold.
- Cart clear raises `stock` by the user's holding. `lines` is outside its frame, so `Units` rises by the same amount, while `stock + Reserved` stays constant.

Python value semantics are written out in module `Py`:

- truthiness and `or`;
- `dict.get` with a default;
- `int()` on text: ASCII digits after at most one sign;
- `str.isdigit()` and `str.lstrip('-')`.

For example, `"--5"` passes the guard of `add_update_stock` and is then rejected by `int()`, so the model answers `Internal`. Request values used as primary keys go through `Shop.LookupKey`: a missing value or null matches no row, and non-numeric text raises. A primary key taken from the URL is text and goes through `Views.UrlKey`, so a key such as `"abc"` makes `update_stock`, `add_update_stock`, `actualizar_stock` and the cart's `destroy` answer `Internal`, the `ValueError` their catch-alls turn into a 500 or 400.

Files:

- `py.dfy`: Python value semantics.
- `sums.dfy`: sums over finite maps.
- `shop.dfy`: the records, the cart and line balances, and the cart-addition specification.
- `new_order.dfy`: the per-line loop of order creation, as the function `Checkout`.
- `views.dfy`: the class `Store`, with one method per handler.

## Model

| member | source | states |
|---|---|---|
| Py.Or | TiendaOnline/views.py:575 | `a or b` is truthy iff either operand is; it is `a` when `a` is truthy, else `b` |
| Py.LstripMinus | TiendaOnline/views.py:214 | the result is a suffix of the input, everything stripped is `-`, and the result does not start with `-` |
| Py.SignedDigitsParse | TiendaOnline/views.py:214-221 | for text that passes `lstrip('-').isdigit()`, `int()` succeeds iff there is at most one leading minus; with none it gives the digits' value, with one their negation |
| Py.ParseShow | TiendaOnline/views.py:180 | `int(str(n)) == n` for every integer, and `str(n).isdigit()` iff `n >= 0` |
| Py.DigitsTextValue | TiendaOnline/views.py:180 | the decimal digits of a natural number are all digits and denote that number |
| Sums.TotalRemove | TiendaOnline/views.py:963-967 | a map's sum is any one entry plus the sum of the rest, whatever order the entries are visited in |
| Sums.TotalInsert | TiendaOnline/views.py:967 | adding a fresh key adds its value to the sum |
| Sums.TotalUpdate | TiendaOnline/views.py:438 | overwriting a key's value changes the sum by the difference |
| Sums.TotalSplit | TiendaOnline/views.py:958-971 | the sum of a map is the sum of the part inside a key set plus the sum of the part outside it |
| Sums.Choose | TiendaOnline/views.py:975 | picks an element of a non-empty set of pending keys |
| Shop.LookupKey | TiendaOnline/views.py:594 | `objects.get(id=v)` looks up `int(v)` when that succeeds; a missing value or null matches no row; other text raises |
| Shop.StatusOf | TiendaOnline/views.py:697 | every one of the three state names is accepted as that state, and only those names are accepted |
| Shop.CartPartition | TiendaOnline/views.py:958-971 | the rows a cart clear deletes and the rows it keeps are disjoint and together make up the whole cart |
| Shop.CartPartitionSize | TiendaOnline/views.py:970-971 | the user's rows and the other rows together are all the rows |
| Shop.ReservedInsert | TiendaOnline/views.py:885-890 | a new cart row raises the reserved units of its product by its quantity and no other product's |
| Shop.ReservedSet | TiendaOnline/views.py:861-862 | changing a row's quantity changes its product's reserved units by the difference |
| Shop.ReservedRemove | TiendaOnline/views.py:934 | deleting a row lowers its product's reserved units by its quantity |
| Shop.ReservedSplit | TiendaOnline/views.py:958-971 | a product's reserved units are the user's holding plus every other user's |
| Shop.HoldingUnique | TiendaOnline/views.py:848-851 | with one row per (user, product), the user's holding is that row's quantity, or 0 when there is none |
| Shop.EntryOfUnique | TiendaOnline/views.py:848-851 | with one row per (user, product), the row found for a user and product is that user's only row for it, the one `first()` returns |
| Shop.CartAfterAddShape | TiendaOnline/views.py:853-890 | a cart addition keeps one row per (user, product) and every key below the next free key; a refusal changes nothing; success leaves the user's row for the product under the returned id |
| Shop.CartAfterAddHolding | TiendaOnline/views.py:853-890 | a cart addition succeeds iff the stock covers the user's holding plus the new quantity, and then the holding grows by that quantity |
| Shop.CartAfterAddReserved | TiendaOnline/views.py:853-890 | a successful addition reserves exactly the new quantity more of its product and nothing else |
| Shop.LinesPartition | TiendaOnline/views.py:725-731 | the lines an order delete cascades to and the lines of every other order are disjoint and together make up all the lines |
| Shop.CommittedInsert | TiendaOnline/views.py:387-399 | a new line raises the sold units of its product by its quantity |
| Shop.CommittedSet | TiendaOnline/views.py:436-444 | changing a line's quantity changes its product's sold units by the difference |
| Shop.CommittedRemove | TiendaOnline/views.py:473 | deleting a line lowers its product's sold units by its quantity |
| Shop.CommittedSplit | TiendaOnline/views.py:725-731 | a product's sold units are those in the order's lines plus those in every other order's |
| NewOrder.CheckLine | TiendaOnline/views.py:567-627 | a line is accepted iff it is an object with a truthy id and a truthy integer quantity, its product exists, its stock covers the quantity and its money values convert; it is then sold as that product and quantity; it is refused for a missing id iff the `producto_id or id` key is not truthy; a stock refusal means the stock is below the quantity |
| NewOrder.CheckoutAccount | TiendaOnline/views.py:567-635 | every requested line is either sold or refused; each product's stock falls by exactly the units sold of it |
| NewOrder.CheckoutNonNegative | TiendaOnline/views.py:600-627 | from non-negative stock, the loop never takes any stock below zero |
| NewOrder.ExtendKeys | TiendaOnline/views.py:615-623 | the new lines get consecutive fresh ids, all belong to the new order, and older lines are untouched |
| NewOrder.ExtendCommitted | TiendaOnline/views.py:615-627 | the new lines add exactly the units sold to each product's sold units |
| NewOrder.CheckoutKeepsUnits | TiendaOnline/views.py:615-627 | what the loop takes out of stock arrives in the new lines, for every product |
| NewOrder.ExtendDropped | TiendaOnline/views.py:638-639 | deleting the new order with its lines restores the lines exactly as they were before |
| Views.UrlKey | TiendaOnline/views.py:173 | a URL key names a row iff `int()` accepts it, and otherwise the lookup raises; it never means "no value" |
| Views.GroupByProduct | TiendaOnline/views.py:963-967 | the grouped dictionary gives each product the user's units of it in the cart |
| Views.Store.UpdateStock | TiendaOnline/views.py:168-200 | non-numeric URL key: Internal; missing product: NotFound; missing or non-digit quantity: InvalidQuantity; if stock minus quantity is below 1: InsufficientStock, else the stock becomes exactly that (so at least 1); rejections change nothing |
| Views.Store.AddUpdateStock | TiendaOnline/views.py:205-250 | non-numeric URL key: Internal; missing product: NotFound; failing `lstrip('-').isdigit()`: InvalidQuantity; two or more leading minus signs: Internal; a negative result: InsufficientStock; else the stock becomes old plus the quantity, which is non-negative |
| Views.Store.AdjustStock | TiendaOnline/views.py:44-92 | non-numeric URL key: Internal; missing product: NotFound; a quantity `int()` rejects: Internal; else the stock becomes old plus the quantity, with no bound |
| Views.Store.CartAdd | TiendaOnline/views.py:836-917 | quantity parsed first (Internal on failure), then the product (NotFound when missing); then the cart and next key are exactly those of `CartAfterAdd`; the stock is outside the method's frame |
| Views.Store.CartRemove | TiendaOnline/views.py:919-949 | a non-numeric URL key: Internal, with no change; otherwise deletes the row iff it exists and belongs to the user, else NotFound with the cart unchanged; the reserved units fall by the row's quantity; the stock is outside the frame |
| Views.Store.CartClear | TiendaOnline/views.py:951-995 | the cart keeps exactly the other users' rows; the count is the number of rows removed; each existing product's stock rises by the user's holding of it, so stock plus reserved units is unchanged |
| Views.Store.CreditStock | TiendaOnline/views.py:975-983 | each existing product's stock rises by its grouped amount; products that no longer exist are skipped |
| Views.Store.LineCreate | TiendaOnline/views.py:359-408 | in the handler's order: order, product, quantity (default 1), stock, money values; on success a new line and the stock lowered by its quantity (never below 0); units are conserved |
| Views.Store.LineUpdate | TiendaOnline/views.py:410-451 | without a quantity nothing changes; else `int()` (Internal), product (NotFound), then the stock must cover new minus old; the stock falls by that difference, so lowering a line credits stock; units are conserved |
| Views.Store.LineDestroy | TiendaOnline/views.py:453-479 | deletes the line (NotFound when it or its product is missing) without crediting stock, so units fall by the line's quantity |
| Views.Store.OrderCreate | TiendaOnline/views.py:501-659 | no lines: NoProducts; user not truthy: MissingUser; bad user id: Internal; unknown user: NotFound, all with no change; else the stock is that of `Checkout`, and either the order and its lines are created (units conserved) or both are deleted again with the line errors returned while the stock stays lowered (units fall by the units sold); non-negative stock stays non-negative |
| Views.Store.PlaceOrder | TiendaOnline/views.py:543-643 | creates the order, runs the loop and keeps or deletes the order and its lines exactly as `Checkout` decides |
| Views.Store.AddLines | TiendaOnline/views.py:567-635 | the stock and errors are exactly those of `Checkout`; the lines gain one new line per accepted request |
| Views.Store.OrderDestroy | TiendaOnline/views.py:710-737 | unknown order, or a line whose product is missing: NotFound with no change; else every line's quantity goes back to its product's stock and the order and its lines are deleted; units are conserved |
| Views.Store.ReturnLines | TiendaOnline/views.py:725-728 | each product's stock rises by the units in the given lines |
| Views.Store.OrderSetStatus | TiendaOnline/views.py:680-708 | unknown order: NotFound; a name outside the three states: InvalidStatus; else only that order's state changes |
| Views.Store.Movement | TiendaOnline/views.py:750-818 | admin user missing: Internal; a required key missing: MissingFields; then product (NotFound or Internal), non-numeric quantity (Internal), stock (InsufficientStock); else a received internal order of user 4 with one line, and the stock lowered by the quantity; units are conserved |

Also modelled as written:

- `ESTADO_CHOICES` comes from `TiendaOnline/models.py:63-67`.
- views.py uses `estado_compra`, `usuario` and `es_movimiento_interno`, which the shown `models.py` does not declare. The model uses them as views.py does.
- Where a handler catches Django's HTTP 404 inside its own `try` and answers 400 or 500, the model still rejects with `NotFound`.
- The cart is keyed by its own primary key, not by (user, product), because `destroy` deletes by primary key. `Valid()` keeps one row per (user, product).
- In line create, line update, order create and movement, a negative quantity passes the stock check and raises the stock. `update_stock` refuses it, because `"-5".isdigit()` is false.

## Left out

- Pusher notifications, logging, HTTP responses and serializer output: side effects with no effect on the state.
- The stored-procedure reads in `actualizar_stock` (views.py:54-62): they only compute the response.
- Concurrency: `select_for_update`, the scheduler and the threads. Each handler is one atomic step.
- Serializer validation: assumed to succeed. This covers the new cart row in `CarritoTempViewSet.create` and the partial update in `PedidoDetalleViewSet.update`.
- Views.Store.LineUpdate: models only a change to `cantidad_prod`. The partial update can also change other fields, such as `producto`. A PATCH that also moves the line to another product adjusts the old product's stock (views.py:438-439) and then stores the line under the new one, so in the source `Units` is not conserved for either product. The model's conservation clause covers only quantity changes.
- Views.Store.CartAdd: a new row is assumed to store the quantity the view checked. The source creates it through the serializer from the request body (views.py:885-890), so when `cantidad_prod` is absent the row gets the `CarritoTemp` model's default, which is not part of this model, rather than the 1 used for the stock check (views.py:843).
- Monetary fields of order lines: only whether they convert to decimals is kept, as a flag.
- The fields of an order other than its user, state and internal flag.
- Views.Store.OrderDestroy: a line whose product is missing makes the source fail in mid-loop, after crediting the lines it already visited. The model rejects before crediting anything, because the visiting order is unspecified.
- Views.Store.OrderCreate: does not model the request-body type checks (a body that is not a dictionary, a `productos` value that is not a list), nor the generic per-line exception branch (views.py:631-635) for any exception other than the `ValueError` of a non-numeric product id, which is modelled as `BadProductId`.
- `int()` and `str.isdigit()` on anything beyond ASCII digits with one sign: surrounding whitespace, underscores, other scripts' digits, and characters such as `'²'` that `isdigit()` accepts but `int()` rejects. For `'²'` the source fails inside `update_stock` and answers 500; the model answers `InvalidQuantity`.
- Integer width: `cantidad_en_stock` is a 32-bit `IntegerField` (models.py:16) on MySQL. In strict mode a `save()` out of range fails and the handler answers 400 or 500; without strict mode the value is clamped. `AddUpdateStock`, `AdjustStock` and `LineUpdate` write nothing before that `save()`, so a failure leaves no change. Line create and movement are not `@transaction.atomic` and have already written rows by then: the line at views.py:387, and the order and line at views.py:776 and 792. Those rows stay after the failed save unless `ATOMIC_REQUESTS` is on, which no file of this model sets. The model's integers are unbounded. The handlers that can leave that range are listed below.
- Views.Store.AddUpdateStock: answers `Ok` for a sum beyond 2147483647, such as `cantidad="3000000000"`, where the source fails on save.
- Views.Store.AdjustStock: answers `Ok` for a sum outside the 32-bit range, where the source fails on save.
- Views.Store.LineCreate, Views.Store.LineUpdate, Views.Store.OrderCreate and Views.Store.Movement: a negative quantity raises the stock without bound, with no failure on save.
- Views.Store.CartClear and Views.Store.OrderDestroy: the credited stock is not bounded by the column's width.
- Request values of other JSON types, such as booleans and floats.
- `verificar_expiracion`, `tasks.py` and the `CarritoTemp` expiry logic: they are not part of this model.
- The user login, registration and profile views, and image handling.
