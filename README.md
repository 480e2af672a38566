# Sistema ferretería — sales, catalogue and cart, in Dafny

This project models the core of a hardware-store back office. The back end is
Express and Sequelize; the web client is React. Three parts are modelled:

- **The sale unit of work** (`Ventas`).
  - Creating a sale validates the request and checks every line's stock. It
    then computes the total from the request's own unit prices, writes one
    `venta` row and one `detalle_venta` row per item, and takes each line's
    quantity off its product's stock. The writes and the stock decrements
    run in one transaction. The stock check's reads do not: they go to the
    database outside it.
  - Cancelling a sale is refused for an unknown id (not found) and for a sale
    that is not `completada`. Otherwise it puts every line's quantity back and
    marks the sale `cancelada`.
- **The catalogue** (`Productos`, `Clientes`). Products and customers are
  keyed rows with a soft-delete flag `activo`.
  - A list returns the active rows ordered by `nombre`.
  - A get by id ignores `activo`.
  - Create and update validate their body as the routes' express-validator
    chains do. Update and delete report "not found" when no row matched.
  - Delete only clears `activo`.
- **The sale form's cart** (`VentaForm.Carrito`). It covers the product list
  the form offers, `addItem` (merge on add, capped at the listed stock),
  `updateQuantity` (a quantity ≤ 0 removes the item), the running total, and
  the submit guards.

## How the model is built

- **Money.** Money is integer cents (`Models.Cents`); timestamps are opaque
  integers.
- **The database.** One `Store.Database` object holds the tables:
  - products and customers as maps from id to row;
  - sales as a map from id to row;
  - sale lines as an append-only sequence;
  - the next autoincrement id of each table.
- **The invariant.** `Database.Valid()` holds the schema constraints of the
  `models/*.ts` files and the referential integrity of the lines:
  - every id is stored under itself;
  - prices are ≥ 0 and barcodes are unique;
  - e-mails are addresses;
  - every line is valid and points at a stored sale and a stored product;
  - no sale is ever `pendiente`;
  - every sale's `total` is the sum of its lines' subtotals.

  Every handler requires and ensures `Valid()`.
- **Errors.** Each route handler is a method that returns a `Result` or an
  `Outcome`, whose `Error` replaces the HTTP status code.
- **Transactions.** A transaction is modelled as work on local copies,
  assigned to the database only at commit. Every error path ends with
  `unchanged(db)`, so all-or-nothing is a postcondition of each handler.
- **Specification functions.** Each handler is proved against specification
  functions of the old state:
  - `CreateError` for the outcome of creating a sale;
  - `LinesFor` for the lines written;
  - `Decremented` and `Restored` for the stock;
  - `NewProducto` and `Patch` for a product's row, and `NewCliente` and
    `Clientes.Patch` for a customer's;
  - `WithQuantity`, `Without` and `Updated` for the cart.

  Lemmas then relate these functions to each other: round trips,
  idempotence, membership of the lists, and the totals.

### Behaviours the model exposes

- **Stock can go negative.** Stock ≥ 0 is kept out of `Database.Valid()` on
  purpose. It is the separate predicate `StockNonNegative`, because creating
  a sale can break it. Each line is checked against the stock as it was
  before the sale (project/backend/src/routes/ventas.ts:77-89). The decrement is then a raw
  `stock - n` that no validator sees (project/backend/src/routes/ventas.ts:119-122). So two lines
  for the same product can each pass while together they oversell it:
  - `Ventas.DuplicateLinesOversell` shows a concrete case. The stock is 1 and
    the sale has two lines of 1; the result is −1.
  - `Ventas.DistinctSaleKeepsStock` proves that a sale whose lines name
    distinct products never drives a stock below zero.
  - `VentaForm.SubmitIsValidRequest` proves that the cart always sends
    distinct products.
- **The request's prices are trusted.** The total and the subtotals use the
  unit prices of the request, not the catalogue's. A negative unit price
  passes the `isNumeric` check. It only fails later, at the `min: 0`
  validators inside the transaction, which answer 500
  (`Ventas.RowsValidIff`).
- **Inactive products can be sold.** The stock check uses `findByPk`, which
  does not look at `activo`.
- **The sale state machine.** `pendiente` is declared but never produced.
  Creating a sale makes it `completada`, and cancelling moves it from
  `completada` to `cancelada`. So a second cancel is always refused
  (`Lifecycle.SaleAndCancel`).
- **A null e-mail.** A customer body with `email: null` is refused by
  `optional().isEmail()`, although the column is nullable
  (`Clientes.EmailOk`).

## Model

| member | source | states |
|---|---|---|
| Models.ParseMetodoPago | project/backend/src/routes/ventas.ts:59 | a payment method is accepted exactly when it is one of `efectivo`, `tarjeta`, `transferencia`, and the parsed value names it |
| Models.ParseMetodoPagoName | project/backend/src/models/Venta.ts:67-70 | every value of the `metodo_pago` enum parses back from its name |
| Models.LinesOf | project/backend/src/models/DetalleVenta.ts:77-80 | a sale's lines are exactly the stored lines whose `venta_id` is its id, no more than the table holds |
| Models.LinesOfCount | project/backend/src/models/DetalleVenta.ts:77-80 | each stored line of the sale occurs among its lines as often as in the table, and no line of another sale occurs |
| Models.LinesOfAppend | project/backend/src/models/DetalleVenta.ts:80 | the lines of a sale in an appended table are its lines in each part, in order |
| Models.ValidVenta | project/backend/src/models/Venta.ts:40-46 | a sale row is accepted exactly when its total is at least 0, the bound included |
| Models.ValidDetalle | project/backend/src/models/DetalleVenta.ts:48-68 | a line is accepted exactly when `cantidad >= 1` and price and subtotal are at least 0; a line whose subtotal is quantity times a non-negative price always is |
| Models.ValidProducto | project/backend/src/models/Producto.ts:44-58 | a product row is accepted exactly when price and stock are at least 0; the default stock of 0 is accepted |
| Models.UniqueBarcodes | project/backend/src/models/Producto.ts:63-67 | two rows with the same non-null barcode are the same row, and any number of null barcodes never clash |
| Models.IsEmail | project/backend/src/models/Cliente.ts:47-52 | an accepted address has at least five characters, and neither starts nor ends with `@` |
| Models.ValidCliente | project/backend/src/models/Cliente.ts:47-52 | a customer row is accepted exactly when its e-mail is null or an address; an empty e-mail is rejected |
| Store.Database.Valid | project/backend/src/models/DetalleVenta.ts:77-78 | in a valid database every line references a sale id below the next sale id and a product id in [1, next product id), so a fresh id has no lines |
| Store.Database.constructor | project/backend/src/models/Producto.ts:30-35 | an empty database satisfies every schema invariant, and its autoincrement ids start at 1 |
| Store.OnlyStockChangedKeepsProductos | project/backend/src/routes/ventas.ts:119-122 | writing only the stock column keeps the product table's id, price and barcode invariants |
| Ventas.RequestValid | project/backend/src/routes/ventas.ts:58-63 | the validation chain accepts exactly a payment method among `efectivo`, `tarjeta` and `transferencia`, at least one item, and every item's `cantidad` ≥ 1 |
| Ventas.LineError | project/backend/src/routes/ventas.ts:77-88 | a line passes the stock check exactly when its product exists and has at least the requested quantity. A missing product gives `ProductNotFound` with the id sent. Too little stock gives `InsufficientStock` with the product's id, its stock and the quantity asked for. The route's message reports only the name and the stock, so the model's error carries more than the response does |
| Ventas.StockError | project/backend/src/routes/ventas.ts:77-89 | any error the stock check reports is a `ProductNotFound` for an id absent from the table, or an `InsufficientStock` whose available amount is the product's stock and is below the quantity asked for |
| Ventas.CheckStock | project/backend/src/routes/ventas.ts:76-89 | the loop over the items stops at the first line that fails and returns its error, or returns none; its result is `StockError` |
| Ventas.StockErrorNoneIff | project/backend/src/routes/ventas.ts:76-89 | the stock check passes exactly when every line passes on its own, each against the unmodified stock |
| Ventas.StockErrorAt | project/backend/src/routes/ventas.ts:77-89 | the error reported is the one of the first failing line, even when earlier lines were valid |
| Ventas.LineFor | project/backend/src/routes/ventas.ts:107-116 | a line copies the item's product, quantity and unit price into the sale, with subtotal = quantity × unit price |
| Ventas.LinesFor | project/backend/src/routes/ventas.ts:107-116 | exactly one line per item, in item order |
| Ventas.TotalSnoc | project/backend/src/routes/ventas.ts:92-94 | the total folds from the left, as `reduce` does: adding an item at the end adds its quantity × unit price to the total |
| Ventas.TotalIsSumOfSubtotals | project/backend/src/routes/ventas.ts:92-116 | the sale total, Σ quantity × request unit price, equals the sum of the subtotals of the lines written |
| Ventas.ClienteRef | project/backend/src/routes/ventas.ts:100 | the `cliente_id` fallback to null: a missing or zero customer id is stored as null, any other is stored as given |
| Ventas.NewVenta | project/backend/src/routes/ventas.ts:97-104 | the new sale has the next id, the caller as user, the computed total, the customer reference, the payment method sent, and state `completada` |
| Ventas.Total | project/backend/src/models/Venta.ts:40-46 | with positive quantities and non-negative unit prices the total satisfies the `min: 0` of `ventas.total` |
| Ventas.RowsValidIff | project/backend/src/models/DetalleVenta.ts:48-68 | for items with quantity ≥ 1, the sale and line rows pass the `min` validators exactly when no unit price is negative |
| Ventas.CreateError | project/backend/src/routes/ventas.ts:64-125 | the phases in order: a validation error exactly when the request fails validation; a stock error exactly when the request passes validation and a line fails the stock check, and then it is the first such error; a persistence failure exactly when both pass and a row breaks a `min` validator; no error exactly when the request is valid, every line passes and every row is valid |
| Ventas.Decremented | project/backend/src/routes/ventas.ts:119-122 | after the sale each product's stock is its old stock minus the quantities of the lines that name it; nothing else in the table changes |
| Ventas.Restored | project/backend/src/routes/ventas.ts:166-174 | after a cancel each product's stock is its old stock plus the quantities of the sale's lines that name it; nothing else changes |
| Ventas.RestoreUndoesDecrement | project/backend/src/routes/ventas.ts:119-174 | putting back the quantities of some lines after taking them off restores the product table exactly |
| Ventas.QtyOnNonNegative | project/backend/src/models/DetalleVenta.ts:48-54 | with every line's quantity ≥ 1, the quantity a set of lines takes from a product is never negative |
| Ventas.QtyOnDistinct | project/backend/src/routes/ventas.ts:107-122 | when the items name distinct products, the lines take from each product exactly its one item's quantity, or nothing |
| Ventas.DistinctSaleKeepsStock | project/backend/src/routes/ventas.ts:77-122 | a sale whose items name distinct products and that passes the stock check leaves every stock ≥ 0 |
| Ventas.DuplicateLinesOversell | project/backend/src/routes/ventas.ts:77-122 | two lines of one unit each, for a product with stock 1, pass every check, and the sale leaves its stock at −1 |
| Ventas.LinesOfNewSale | project/backend/src/models/DetalleVenta.ts:77-80 | after a sale is written its lines are exactly the new lines, and every other sale keeps its lines |
| Ventas.CancelUndoesCreate | project/backend/src/routes/ventas.ts:107-174 | cancelling a freshly created sale gives the product table back exactly as it was before the sale |
| Ventas.WriteLines | project/backend/src/routes/ventas.ts:107-123 | the loop appends one line per item and decrements the stocks, as the specification functions say; it fails exactly when some line breaks the `min` validators |
| Ventas.CommitSale | project/backend/src/routes/ventas.ts:97-125 | the commit stores the new sale under the next id, makes the transaction's lines and stock the database's, advances the sale id, and keeps every invariant |
| Ventas.RestoreStock | project/backend/src/routes/ventas.ts:167-174 | the cancel loop adds each line's quantity back to its product, as `Restored` says |
| Ventas.CommitKeepsValid | project/backend/src/routes/ventas.ts:97-125 | committing the new sale, its lines and the decremented stock keeps the ledger invariant: the new total is the sum of its subtotals, and the lines reference stored rows |
| Ventas.CreateSale | project/backend/src/routes/ventas.ts:58-145 | succeeds exactly when validation, the stock check and the row validators pass (the customer foreign key is not checked; see "Left out"). On failure it returns that error and changes nothing. On success it writes the sale and exactly its lines, decrements the stock, and touches nothing else |
| Ventas.CancelSale | project/backend/src/routes/ventas.ts:148-185 | unknown id → not found; a sale not `completada` → invalid state; in both cases nothing changes. Otherwise it restores the stock of the sale's lines and sets `cancelada`, leaving the total and the lines untouched |
| Ventas.CancelKeepsStock | project/backend/src/routes/ventas.ts:166-174 | cancelling never drives a stock below zero |
| Listing.NameLeTotal | project/backend/src/routes/productos.ts:16 | any two names are ordered one way or the other |
| Listing.NameLeTransitive | project/backend/src/routes/productos.ts:16 | the name order is transitive |
| Listing.InsertByName | project/backend/src/routes/productos.ts:16 | inserting a row into a list sorted by name keeps it sorted and adds exactly that row |
| Listing.SortByName | project/backend/src/routes/productos.ts:16 | `ORDER BY nombre ASC`: the result is sorted by name and is a permutation of the input |
| Listing.Filter | project/backend/src/routes/productos.ts:15 | `WHERE`: each accepted row is kept as often as it occurs, each rejected row is dropped |
| Listing.RowsIn | project/backend/src/routes/productos.ts:14 | a table scan returns every stored row, each once, and nothing else |
| Listing.ListBy | project/backend/src/routes/clientes.ts:14-17 | the listing query returns, sorted by name and each once, exactly the stored rows the filter accepts |
| Productos.ListProductos | project/backend/src/routes/productos.ts:14-17 | the list holds exactly the stored products with `activo` true, each once, ordered by `nombre` |
| Productos.ListedIffActive | project/backend/src/routes/productos.ts:14-17 | a product is listed if and only if it is stored and active |
| Productos.GetProducto | project/backend/src/routes/productos.ts:27-30 | the product under the id whether active or not; not found exactly when the id is absent |
| Productos.CreateBodyValid | project/backend/src/routes/productos.ts:38-42 | POST accepts exactly a body with a non-empty `nombre`, a `precio` > 0, an integer `stock` ≥ 0 and a non-empty `categoria`; any such body also passes PUT's rules |
| Productos.UpdateBodyValid | project/backend/src/routes/productos.ts:58-62 | PUT accepts exactly a body in which each of `nombre`, `precio`, `stock` and `categoria` that is given passes its rule; the other fields are never checked |
| Productos.NewProducto | project/backend/src/models/Producto.ts:30-71 | the row `create` inserts is the column defaults (`descripcion` and `codigo_barras` null, `stock` 0, `activo` true) overwritten by the fields the body gives, under the new id |
| Productos.Patch | project/backend/src/routes/productos.ts:70-72 | each field the body gives replaces the stored value; the id is never written |
| Productos.CreateProducto | project/backend/src/routes/productos.ts:38-55 | a body missing or breaking a rule (empty `nombre` or `categoria`, `precio` ≤ 0, `stock` < 0) is refused with the table unchanged; a barcode already used fails the insert; otherwise the row built from the body and the defaults is stored under the next id |
| Productos.BarcodeClashIff | project/backend/src/models/Producto.ts:63-67 | writing a row keeps barcodes unique exactly when no other row holds its barcode (the `unique` constraint the handlers check) |
| Productos.NewProductoValid | project/backend/src/models/Producto.ts:36-71 | a body that passes the route's rules gives a row the schema accepts, with `activo` true unless the body says false |
| Productos.UpdateProducto | project/backend/src/routes/productos.ts:58-83 | validation of the fields given comes first (400); then not found with nothing changed when the id is absent or the body names no column, since the update then changes no row (productos.ts:70-75); then the barcode constraint; on success exactly that row becomes its patched form |
| Productos.EmptyBody | project/backend/src/routes/productos.ts:70-75 | a body naming no column passes the optional rules of PUT and never the required ones of POST |
| Productos.PatchValid | project/backend/src/routes/productos.ts:58-72 | an update that passes the route's rules keeps a valid row valid and keeps its id. Each of the seven fields the body omits keeps its stored value |
| Productos.PatchIdempotent | project/backend/src/routes/productos.ts:70-72 | sending the same update twice equals sending it once; an empty body changes nothing |
| Productos.BodyOfRoundTrip | project/backend/src/routes/productos.ts:38-72 | a row's full body reproduces the row under update over any row; under create it passes exactly when the row meets the route's rules, and then reproduces it |
| Productos.DeleteProducto | project/backend/src/routes/productos.ts:86-97 | not found with nothing changed exactly when the id is absent, and success exactly when it is stored; then only that row's `activo` becomes false |
| Productos.DeleteHidesFromList | project/backend/src/routes/productos.ts:14-97 | after a soft delete the product is still found by id, and the list loses exactly that product |
| Productos.DeactivatedListing | project/backend/src/routes/productos.ts:14-97 | clearing `activo` removes exactly that product from the list and keeps every other listed product |
| Clientes.ListClientes | project/backend/src/routes/clientes.ts:14-17 | the list holds exactly the stored customers with `activo` true, each once, ordered by `nombre` |
| Clientes.ListedIffActive | project/backend/src/routes/clientes.ts:14-17 | a customer is listed if and only if it is stored and active |
| Clientes.GetCliente | project/backend/src/routes/clientes.ts:27-30 | the customer under the id whether active or not; not found exactly when the id is absent |
| Clientes.CreateBodyValid | project/backend/src/routes/clientes.ts:38-40 | POST accepts exactly a body with a non-empty `nombre` whose `email` passes its rule; any such body also passes PUT's rules |
| Clientes.UpdateBodyValid | project/backend/src/routes/clientes.ts:56-58 | PUT accepts exactly a body whose `nombre`, if given, is non-empty and whose `email` passes its rule; the other fields are never checked |
| Clientes.NewCliente | project/backend/src/models/Cliente.ts:29-60 | the row `create` inserts is the column defaults (every optional column null, `activo` true) overwritten by the fields the body gives, under the new id |
| Clientes.Patch | project/backend/src/routes/clientes.ts:66-68 | each field the body gives replaces the stored value; the id is never written |
| Clientes.CreateCliente | project/backend/src/routes/clientes.ts:38-53 | refused with the table unchanged exactly when `nombre` is missing or empty or a given `email` is not an address; otherwise stored under the next id with the column defaults |
| Clientes.NewClienteValid | project/backend/src/models/Cliente.ts:34-60 | a body that passes the route's rules gives a row the schema accepts, with `activo` true unless the body says false |
| Clientes.EmailOk | project/backend/src/routes/clientes.ts:40 | an `email` field passes exactly when it is left out or is an address; an explicit null is refused |
| Clientes.UpdateCliente | project/backend/src/routes/clientes.ts:56-79 | validation of the fields given (400); then not found with nothing changed when the id is absent or the body names no column, since the update then changes no row (clientes.ts:66-71); success exactly otherwise, and then exactly that row becomes its patched form |
| Clientes.EmptyBody | project/backend/src/routes/clientes.ts:66-71 | a body naming no column passes the optional rules of PUT and never the required ones of POST |
| Clientes.PatchValid | project/backend/src/routes/clientes.ts:56-68 | an update that passes the route's rules keeps a valid customer valid and keeps its id. Each of the six fields the body omits keeps its stored value |
| Clientes.PatchIdempotent | project/backend/src/routes/clientes.ts:66-68 | sending the same update twice equals sending it once; an empty body changes nothing |
| Clientes.BodyOfRoundTrip | project/backend/src/routes/clientes.ts:38-68 | a row's full body reproduces the row under update over any row; under create it passes exactly when the name is non-empty and the e-mail is an address, and then reproduces it |
| Clientes.DeleteCliente | project/backend/src/routes/clientes.ts:82-91 | not found with nothing changed exactly when the id is absent, and success exactly when it is stored; then only that row's `activo` becomes false |
| Clientes.DeleteHidesFromList | project/backend/src/routes/clientes.ts:14-91 | after a soft delete the customer is still found by id, and the list loses exactly that customer |
| VentaForm.FindProducto | project/frontend/src/components/VentaForm.tsx:51 | `find` finds a product exactly when one with the id is listed, and what it finds has that id |
| VentaForm.FindProductoFirst | project/frontend/src/components/VentaForm.tsx:51 | what `find` returns is the product at the first index holding the id |
| VentaForm.FindItem | project/frontend/src/components/VentaForm.tsx:54 | `find` on the cart finds an item exactly when one for the product is present |
| VentaForm.FindItemFirst | project/frontend/src/components/VentaForm.tsx:54 | what `find` returns is the item at the first index holding the product |
| VentaForm.WithQuantity | project/frontend/src/components/VentaForm.tsx:60-64 | the product's item gets the new quantity; every other item and the order stay as they were |
| VentaForm.Without | project/frontend/src/components/VentaForm.tsx:78 | the items left are exactly those of other products |
| VentaForm.WithoutCount | project/frontend/src/components/VentaForm.tsx:78 | each item of another product is kept as many times as it occurs, and no item of the product is |
| VentaForm.WithoutAppend | project/frontend/src/components/VentaForm.tsx:78 | `filter` keeps the order: removing from a concatenation is removing from each part, in order |
| VentaForm.Updated | project/frontend/src/components/VentaForm.tsx:76-86 | a quantity ≤ 0 leaves the items of other products, each as many times as before, and none of that product; any other quantity keeps every item at its index and changes only the quantity of that product's item |
| VentaForm.UpdatedAppend | project/frontend/src/components/VentaForm.tsx:76-86 | both branches keep the order: updating a concatenation is updating each part, in order |
| VentaForm.CartTotal | project/frontend/src/components/VentaForm.tsx:88 | the running total is never negative while every quantity and unit price is non-negative |
| VentaForm.RequestItems | project/frontend/src/components/VentaForm.tsx:101-105 | one request line per cart item, copying product, quantity and unit price |
| VentaForm.Carrito.constructor | project/frontend/src/components/VentaForm.tsx:37-48 | the form offers exactly the listed products that are active with stock > 0, and the active customers; the cart starts empty |
| VentaForm.Carrito.Select | project/frontend/src/components/VentaForm.tsx:172-174 | choosing a product in the drop-down sets the selected id to it and changes nothing else |
| VentaForm.Carrito.AddItem | project/frontend/src/components/VentaForm.tsx:50-74 | nothing changes when no listed product is selected. A product already in the cart gains one unit, unless its quantity has reached the listed stock; then nothing changes. A new product is appended with quantity 1 at its listed price. One item per product and the stock cap are kept |
| VentaForm.Carrito.UpdateQuantity | project/frontend/src/components/VentaForm.tsx:76-86 | a quantity ≤ 0 removes that product's item, otherwise it sets that item's quantity; one item per product is kept, and the stock cap when the new quantity is within it |
| VentaForm.Carrito.Submit | project/frontend/src/components/VentaForm.tsx:90-105 | refused when no payment method is chosen or the cart is empty; otherwise the request carries the chosen customer, the payment method and one line per item |
| VentaForm.AppendKeepsItems | project/frontend/src/components/VentaForm.tsx:65-72 | appending a product not in the cart keeps one item per product and the stock cap |
| VentaForm.BumpKeepsItems | project/frontend/src/components/VentaForm.tsx:54-64 | incrementing an item below its stock keeps one item per product and the stock cap |
| VentaForm.UpdatedKeepsItems | project/frontend/src/components/VentaForm.tsx:76-86 | `updateQuantity` keeps the cart invariant, and the stock cap when the new quantity is within it |
| VentaForm.WithoutDistinct | project/frontend/src/components/VentaForm.tsx:78 | the `filter` that removes a product keeps the other items one per product |
| VentaForm.ButtonsKeepWithinStock | project/frontend/src/components/VentaForm.tsx:208-217 | the minus button, and the plus button (enabled only below the stock), keep every item within its listed stock |
| VentaForm.CartTotalIsRequestTotal | project/frontend/src/components/VentaForm.tsx:88 | the cart's total equals the total the server computes for the submitted lines |
| VentaForm.AppendTotal | project/frontend/src/components/VentaForm.tsx:65-72 | adding a new product raises the total by its price |
| VentaForm.WithQuantityTotal | project/frontend/src/components/VentaForm.tsx:80-86 | setting a product's quantity to n moves the total by (n − old quantity) × unit price |
| VentaForm.WithoutTotal | project/frontend/src/components/VentaForm.tsx:77-78 | removing a product lowers the total by exactly its line total |
| VentaForm.SubmitIsValidRequest | project/frontend/src/components/VentaForm.tsx:91-105 | a non-empty valid cart submitted with an offered payment method is a request the server's validation accepts, with distinct products and the cart's total |
| VentaForm.FreshCartKeepsStock | project/frontend/src/components/VentaForm.tsx:43-64 | if no stock moved since listing, a cart within stock passes the server's stock check, and the sale keeps every stock ≥ 0 |
| Lifecycle.SaleAndCancel | project/backend/src/routes/ventas.ts:58-185 | stock 10 and three units at 5.00: the sale totals 15.00 and leaves stock 7; the cancel passes and restores 10; a second cancel is refused |

## Left out

- Sequelize itself is not modelled: its SQL, `sequelize.literal`, the
  transaction object, and the re-fetch with joins after the commit
  (project/backend/src/routes/ventas.ts:127-140). A transaction is "compute the new state, or
  return an error and keep the old one".
- Concurrency is not modelled. The stock check reads outside the
  transaction, so two concurrent sales can both pass it; only one request at
  a time is modelled.
- Authentication is not modelled: JWT, bcrypt and the `authenticateToken`
  middleware. `req.user.id` is the `usuarioId` parameter of
  `Ventas.CreateSale`.
- The HTTP plumbing is not modelled: server setup, database configuration,
  and the error-handler middleware. Status codes appear only as the `Error`
  datatype.
- A 500 answer from a read query after a database failure is not modelled.
- Seed data is not modelled.
- The listing and detail routes for sales (`GET /ventas`, `GET /ventas/:id`)
  are not modelled. They are read-only queries with joins.
- The front end's HTTP services, the other pages and forms, the toasts,
  `isLoading`, and rendering are not modelled. A failed `loadData` leaves the
  lists empty, which equals building the cart from empty lists.
- JavaScript numbers against `DECIMAL(10,2)` are not modelled: floating
  point, rounding, precision, overflow and `toFixed`. Prices are integer
  cents with unbounded range. A `DECIMAL` read back as a string on Postgres
  is left out too.
- Column lengths (`STRING(100)`, `STRING(20)`, …) are not modelled.
- Timestamps (`fecha`, `created_at`, `updated_at`) are opaque.
  `Ventas.CreateSale` takes `fecha` as a parameter in place of the clock.
- Ids of sale lines are not modelled. Lines are identified by their position
  in the table.
- The model assumes autoincrement ids have no gaps. A failed insert does not
  consume an id, as with SQLite's `AUTOINCREMENT`; Postgres sequences would
  leave a gap.
- Foreign keys are not modelled as an engine-enforced check. The handlers
  keep those of the lines: `Database.Valid()` requires every line to
  reference a stored sale and product. The user table is not modelled, so
  `usuario_id` is taken as given.
- Ventas.CreateSale: commits a sale whose `cliente_id` names no stored
  customer. In the source, `ventas.cliente_id` references `clientes`
  (project/backend/src/models/Venta.ts:47-54). The database enforces that
  key: Sequelize turns foreign keys on for SQLite, and Postgres always
  checks them. So `Venta.create` throws, the transaction rolls back, and the
  route answers 500 (project/backend/src/routes/ventas.ts:141-144).
- Models.IsEmail: a simplified stand-in for validator.js `isEmail`. It asks
  for one `@`, a non-empty local part, and a dot inside the domain. It does
  not check allowed characters, lengths or IP-literal domains.
- Listing.NameLe: compares names character by character. This is SQLite's
  default `BINARY` collation. Locale collation on a Postgres database is not
  modelled, and ties keep no particular order.
- Request bodies are typed. A `null` for a required field (`nombre`,
  `precio`, …), a string that is not a number, and extra keys are not
  modelled. That includes a body that sets `id` and so would rewrite a
  primary key through `update(req.body)`.
- VentaForm.Carrito.Submit: the form's `cliente_id` is taken as an optional
  id; the string-to-number coercion of the `<select>` is not modelled.
