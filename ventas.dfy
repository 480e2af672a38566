/** The sale unit of work: create a sale (validate, check stock, total, write
    the sale and its lines, decrement stock) and cancel a sale (restore stock,
    flip the state). Each handler runs as one transaction: it either commits a
    new state or answers with an error and leaves the store as it was. */
module Ventas {
  import opened Common
  import opened Models
  import opened Store

  /** One element of the request's `items` array. */
  datatype ItemRequest = ItemRequest(productoId: int, cantidad: int, precioUnitario: Cents)

  /** The body of `POST /ventas`; `metodoPago` is whatever string the client sent. */
  datatype VentaRequest = VentaRequest(clienteId: Option<int>, metodoPago: string, items: seq<ItemRequest>)

  // ------------------------------------------------------------ validation

  /** The express-validator chain: a known payment method, at least one item,
      and every `cantidad` an integer of at least 1. */
  predicate RequestValid(req: VentaRequest)
    ensures RequestValid(req) <==>
              && (req.metodoPago == "efectivo" || req.metodoPago == "tarjeta" || req.metodoPago == "transferencia")
              && |req.items| >= 1
              && forall i :: 0 <= i < |req.items| ==> req.items[i].cantidad >= 1
  {
    && ParseMetodoPago(req.metodoPago).Some?
    && |req.items| >= 1
    && forall i :: 0 <= i < |req.items| ==> req.items[i].cantidad >= 1
  }

  /** The stock check of one line against the table as it stands. */
  function LineError(productos: map<int, Producto>, item: ItemRequest): (e: Option<Error>)
    ensures e.None? <==> item.productoId in productos && productos[item.productoId].stock >= item.cantidad
    ensures item.productoId !in productos ==> e == Some(ProductNotFound(item.productoId))
    ensures item.productoId in productos && productos[item.productoId].stock < item.cantidad ==>
              e == Some(InsufficientStock(item.productoId, productos[item.productoId].stock, item.cantidad))
  {
    if item.productoId !in productos then Some(ProductNotFound(item.productoId))
    else if productos[item.productoId].stock < item.cantidad then
      Some(InsufficientStock(item.productoId, productos[item.productoId].stock, item.cantidad))
    else None
  }

  /** The error of the first line that fails the stock check, if any: a
      product that does not exist, or one whose stock is below the quantity. */
  function StockError(productos: map<int, Producto>, items: seq<ItemRequest>): (r: Option<Error>)
    ensures r.Some? ==>
              || (r.value.ProductNotFound? && r.value.productoId !in productos)
              || (&& r.value.InsufficientStock? && r.value.productoId in productos
                  && r.value.available == productos[r.value.productoId].stock < r.value.requested)
  {
    if items == [] then None
    else if LineError(productos, items[0]).Some? then LineError(productos, items[0])
    else StockError(productos, items[1..])
  }

  lemma {:induction false} StockErrorNoneIff(productos: map<int, Producto>, items: seq<ItemRequest>)
    ensures StockError(productos, items).None? <==>
            forall i :: 0 <= i < |items| ==> LineError(productos, items[i]).None?
  {
    if items != [] {
      StockErrorNoneIff(productos, items[1..]);
      assert forall i :: 1 <= i < |items| ==> items[i] == items[1..][i - 1];
    }
  }

  /** The reported error is the one of the first failing line. */
  lemma {:induction false} StockErrorAt(productos: map<int, Producto>, items: seq<ItemRequest>, k: int)
    requires 0 <= k < |items|
    requires forall j :: 0 <= j < k ==> LineError(productos, items[j]).None?
    requires LineError(productos, items[k]).Some?
    ensures StockError(productos, items) == LineError(productos, items[k])
  {
    if k > 0 {
      assert forall j :: 0 <= j < k - 1 ==> items[1..][j] == items[j + 1];
      StockErrorAt(productos, items[1..], k - 1);
    }
  }

  // ------------------------------------------------------------ the rows

  /** `items.reduce((sum, item) => sum + item.cantidad * item.precio_unitario, 0)`,
      over the prices of the request (not those of the catalog). */
  function Total(items: seq<ItemRequest>): (t: Cents)
    ensures (forall i :: 0 <= i < |items| ==> items[i].cantidad >= 1 && items[i].precioUnitario >= 0) ==> t >= 0
  {
    if items == [] then 0 else items[0].cantidad * items[0].precioUnitario + Total(items[1..])
  }

  /** `reduce` folds from the left: the last item is added to the total of
      the ones before it. */
  lemma {:induction false} TotalSnoc(items: seq<ItemRequest>, x: ItemRequest)
    ensures Total(items + [x]) == Total(items) + x.cantidad * x.precioUnitario
  {
    if items != [] {
      assert (items + [x])[1..] == items[1..] + [x];
      TotalSnoc(items[1..], x);
    }
  }

  /** The `DetalleVenta` row written for one item. */
  function LineFor(ventaId: int, item: ItemRequest): (d: DetalleVenta)
    ensures d.ventaId == ventaId && d.productoId == item.productoId
    ensures d.cantidad == item.cantidad && d.precioUnitario == item.precioUnitario
    ensures d.subtotal == item.cantidad * item.precioUnitario
  {
    DetalleVenta(ventaId, item.productoId, item.cantidad, item.precioUnitario, item.cantidad * item.precioUnitario)
  }

  /** The rows written for a request, one per item and in order. */
  function LinesFor(ventaId: int, items: seq<ItemRequest>): (ls: seq<DetalleVenta>)
    ensures |ls| == |items|
    ensures forall i :: 0 <= i < |items| ==> ls[i] == LineFor(ventaId, items[i])
  {
    seq(|items|, i requires 0 <= i < |items| => LineFor(ventaId, items[i]))
  }

  /** The sale's total is the sum of the subtotals of the lines written with it. */
  lemma {:induction false} TotalIsSumOfSubtotals(ventaId: int, items: seq<ItemRequest>)
    ensures Total(items) == SumSubtotals(LinesFor(ventaId, items))
  {
    if items != [] {
      assert LinesFor(ventaId, items)[1..] == LinesFor(ventaId, items[1..]);
      TotalIsSumOfSubtotals(ventaId, items[1..]);
    }
  }

  /** The `cliente_id || null` of the route: an absent id and the falsy id 0
      both store no customer. */
  function ClienteRef(clienteId: Option<int>): (r: Option<int>)
    ensures r.Some? <==> clienteId.Some? && clienteId.value != 0
    ensures r.Some? ==> r == clienteId
  {
    if clienteId.Some? && clienteId.value != 0 then clienteId else None
  }

  /** The sale row the route creates. */
  function NewVenta(id: int, fecha: Timestamp, req: VentaRequest, usuarioId: int): (v: Venta)
    requires RequestValid(req)
    ensures v.id == id && v.fecha == fecha && v.usuarioId == usuarioId
    ensures v.total == Total(req.items) && v.clienteId == ClienteRef(req.clienteId)
    ensures v.estado == Completada && MetodoPagoName(v.metodoPago) == req.metodoPago
  {
    Venta(id, fecha, Total(req.items), ClienteRef(req.clienteId), usuarioId, Completada,
          ParseMetodoPago(req.metodoPago).value)
  }

  /** The rows pass the models' validators (`total`, `precio_unitario` and
      `subtotal` have `min: 0`); otherwise the insert throws and the
      transaction rolls back. */
  predicate RowsValid(items: seq<ItemRequest>)
  {
    Total(items) >= 0 && forall i :: 0 <= i < |items| ==> ValidDetalle(LineFor(0, items[i]))
  }

  /** With every `cantidad >= 1`, the writes fail exactly when some unit price
      is negative (the request only checks `isNumeric`). */
  lemma RowsValidIff(items: seq<ItemRequest>)
    requires forall i :: 0 <= i < |items| ==> items[i].cantidad >= 1
    ensures RowsValid(items) <==> forall i :: 0 <= i < |items| ==> items[i].precioUnitario >= 0
  {
    forall i | 0 <= i < |items| && items[i].precioUnitario < 0
      ensures items[i].cantidad * items[i].precioUnitario < 0
    {
      MulNegative(items[i].cantidad, items[i].precioUnitario);
    }
  }

  lemma MulNegative(c: int, p: int)
    requires c >= 1 && p < 0
    ensures c * p < 0
  {
  }

  /** The error `CreateSale` answers with, or `None` when it commits: request
      validation first, then the stock check line by line, then the row writes. */
  function CreateError(productos: map<int, Producto>, req: VentaRequest): (r: Option<Error>)
    ensures r == Some(ValidationError) <==> !RequestValid(req)
    ensures r.Some? && (r.value.ProductNotFound? || r.value.InsufficientStock?) <==>
              RequestValid(req) && StockError(productos, req.items).Some?
    ensures r.Some? && (r.value.ProductNotFound? || r.value.InsufficientStock?) ==>
              r == StockError(productos, req.items)
    ensures r == Some(PersistenceFailure) <==>
              RequestValid(req) && StockError(productos, req.items).None? && !RowsValid(req.items)
    ensures r.None? <==>
              && RequestValid(req) && RowsValid(req.items)
              && forall i :: 0 <= i < |req.items| ==> LineError(productos, req.items[i]).None?
  {
    StockErrorNoneIff(productos, req.items);
    if !RequestValid(req) then Some(ValidationError)
    else if StockError(productos, req.items).Some? then StockError(productos, req.items)
    else if !RowsValid(req.items) then Some(PersistenceFailure)
    else None
  }

  // ------------------------------------------------------------ stock

  /** The total quantity that some lines take of one product. */
  function QtyOn(lines: seq<DetalleVenta>, productoId: int): int
  {
    if lines == [] then 0
    else QtyOn(lines[..|lines| - 1], productoId)
         + (if lines[|lines| - 1].productoId == productoId then lines[|lines| - 1].cantidad else 0)
  }

  /** The product table after each line's `stock - cantidad` on its product. */
  function Decremented(productos: map<int, Producto>, lines: seq<DetalleVenta>): (r: map<int, Producto>)
    ensures OnlyStockChanged(productos, r)
    ensures forall id :: id in productos ==> r[id].stock == productos[id].stock - QtyOn(lines, id)
  {
    map id | id in productos :: productos[id].(stock := productos[id].stock - QtyOn(lines, id))
  }

  /** The product table after each line's `stock + cantidad` on its product. */
  function Restored(productos: map<int, Producto>, lines: seq<DetalleVenta>): (r: map<int, Producto>)
    ensures OnlyStockChanged(productos, r)
    ensures forall id :: id in productos ==> r[id].stock == productos[id].stock + QtyOn(lines, id)
  {
    map id | id in productos :: productos[id].(stock := productos[id].stock + QtyOn(lines, id))
  }

  lemma QtyOnSnoc(lines: seq<DetalleVenta>, d: DetalleVenta, productoId: int)
    ensures QtyOn(lines + [d], productoId) == QtyOn(lines, productoId) + (if d.productoId == productoId then d.cantidad else 0)
  {
    assert (lines + [d])[..|lines|] == lines;
  }

  /** One more line on the decrement: only its own product changes. */
  lemma DecrementedStep(productos: map<int, Producto>, lines: seq<DetalleVenta>, i: int)
    requires 0 <= i < |lines|
    ensures Decremented(productos, lines[..i + 1]) ==
            if lines[i].productoId in productos then
              var m := Decremented(productos, lines[..i]);
              m[lines[i].productoId := m[lines[i].productoId].(stock := m[lines[i].productoId].stock - lines[i].cantidad)]
            else Decremented(productos, lines[..i])
  {
    assert lines[..i + 1] == lines[..i] + [lines[i]];
    forall id | id in productos {
      QtyOnSnoc(lines[..i], lines[i], id);
    }
  }

  lemma RestoredStep(productos: map<int, Producto>, lines: seq<DetalleVenta>, i: int)
    requires 0 <= i < |lines|
    ensures Restored(productos, lines[..i + 1]) ==
            if lines[i].productoId in productos then
              var m := Restored(productos, lines[..i]);
              m[lines[i].productoId := m[lines[i].productoId].(stock := m[lines[i].productoId].stock + lines[i].cantidad)]
            else Restored(productos, lines[..i])
  {
    assert lines[..i + 1] == lines[..i] + [lines[i]];
    forall id | id in productos {
      QtyOnSnoc(lines[..i], lines[i], id);
    }
  }

  lemma NoLinesNoChange(productos: map<int, Producto>)
    ensures Decremented(productos, []) == productos && Restored(productos, []) == productos
  {
    assert forall id :: id in productos ==> Decremented(productos, [])[id] == productos[id];
    assert forall id :: id in productos ==> Restored(productos, [])[id] == productos[id];
  }

  /** Restoring the same lines undoes a decrement exactly. */
  lemma RestoreUndoesDecrement(productos: map<int, Producto>, lines: seq<DetalleVenta>)
    ensures Restored(Decremented(productos, lines), lines) == productos
  {
    var m := Restored(Decremented(productos, lines), lines);
    assert forall id :: id in productos ==> m[id] == productos[id];
  }

  lemma {:induction false} QtyOnNonNegative(lines: seq<DetalleVenta>, productoId: int)
    requires forall i :: 0 <= i < |lines| ==> lines[i].cantidad >= 1
    ensures QtyOn(lines, productoId) >= 0
  {
    if lines != [] {
      QtyOnNonNegative(lines[..|lines| - 1], productoId);
    }
  }

  /** No two items name the same product. */
  predicate DistinctProducts(items: seq<ItemRequest>)
  {
    forall i, j :: 0 <= i < j < |items| ==> items[i].productoId != items[j].productoId
  }

  /** With distinct products, a product's total quantity is that of its one
      line, or 0 when no line names it. */
  lemma {:induction false} QtyOnDistinct(ventaId: int, items: seq<ItemRequest>, productoId: int)
    requires DistinctProducts(items)
    ensures (forall i :: 0 <= i < |items| ==> items[i].productoId != productoId) ==>
              QtyOn(LinesFor(ventaId, items), productoId) == 0
    ensures forall i :: 0 <= i < |items| && items[i].productoId == productoId ==>
              QtyOn(LinesFor(ventaId, items), productoId) == items[i].cantidad
  {
    if items != [] {
      var n := |items| - 1;
      assert LinesFor(ventaId, items)[..n] == LinesFor(ventaId, items[..n]);
      QtyOnDistinct(ventaId, items[..n], productoId);
      assert forall i :: 0 <= i < n ==> items[..n][i] == items[i];
    }
  }

  /** When no product appears on two lines, passing the per-line stock check
      keeps every stock non-negative. */
  lemma DistinctSaleKeepsStock(productos: map<int, Producto>, ventaId: int, items: seq<ItemRequest>)
    requires forall id :: id in productos ==> productos[id].stock >= 0
    requires DistinctProducts(items)
    requires StockError(productos, items).None?
    ensures forall id :: id in productos ==> Decremented(productos, LinesFor(ventaId, items))[id].stock >= 0
  {
    StockErrorNoneIff(productos, items);
    forall id | id in productos
      ensures QtyOn(LinesFor(ventaId, items), id) <= productos[id].stock
    {
      QtyOnDistinct(ventaId, items, id);
    }
  }

  /** The general case: the per-line check reads the unmodified stock, so two
      lines for one product each pass while their sum oversells it. */
  lemma DuplicateLinesOversell()
    ensures var productos := map[1 := Producto(1, "Martillo", None, 25000, 1, "Herramientas", None, true)];
            var req := VentaRequest(None, "efectivo", [ItemRequest(1, 1, 25000), ItemRequest(1, 1, 25000)]);
            && CreateError(productos, req).None?
            && Decremented(productos, LinesFor(7, req.items))[1].stock == -1
  {
    var productos := map[1 := Producto(1, "Martillo", None, 25000, 1, "Herramientas", None, true)];
    var items := [ItemRequest(1, 1, 25000), ItemRequest(1, 1, 25000)];
    var lines := LinesFor(7, items);
    assert lines[..1][..0] == [];
    assert QtyOn(lines[..1], 1) == 1;
    assert lines[..|lines| - 1] == lines[..1];
    assert QtyOn(lines, 1) == 2;
    assert StockError(productos, items[1..][1..]) == None;
  }

  // ------------------------------------------------------------ ledger

  /** Appending the lines of a new sale keeps every stored sale's lines and
      gives the new sale exactly its own lines. */
  lemma {:induction false} LinesOfNewSale(detalles: seq<DetalleVenta>, ventaId: int, items: seq<ItemRequest>, other: int)
    requires forall i :: 0 <= i < |detalles| ==> detalles[i].ventaId != ventaId
    ensures LinesOf(detalles + LinesFor(ventaId, items), ventaId) == LinesFor(ventaId, items)
    ensures other != ventaId ==> LinesOf(detalles + LinesFor(ventaId, items), other) == LinesOf(detalles, other)
  {
    LinesOfAppend(detalles, LinesFor(ventaId, items), ventaId);
    LinesOfAppend(detalles, LinesFor(ventaId, items), other);
    LinesOfNone(detalles, ventaId);
    LinesOfOwn(LinesFor(ventaId, items), ventaId, other);
  }

  lemma {:induction false} LinesOfNone(detalles: seq<DetalleVenta>, ventaId: int)
    requires forall i :: 0 <= i < |detalles| ==> detalles[i].ventaId != ventaId
    ensures LinesOf(detalles, ventaId) == []
  {
    if detalles != [] {
      LinesOfNone(detalles[1..], ventaId);
    }
  }

  lemma {:induction false} LinesOfOwn(lines: seq<DetalleVenta>, ventaId: int, other: int)
    requires forall i :: 0 <= i < |lines| ==> lines[i].ventaId == ventaId
    ensures LinesOf(lines, ventaId) == lines
    ensures other != ventaId ==> LinesOf(lines, other) == []
  {
    if lines != [] {
      LinesOfOwn(lines[1..], ventaId, other);
    }
  }

  /** Cancelling a freshly created sale gives the product table back exactly. */
  lemma CancelUndoesCreate(productos: map<int, Producto>, detalles: seq<DetalleVenta>, ventaId: int, items: seq<ItemRequest>)
    requires forall i :: 0 <= i < |detalles| ==> detalles[i].ventaId != ventaId
    ensures Restored(Decremented(productos, LinesFor(ventaId, items)),
                     LinesOf(detalles + LinesFor(ventaId, items), ventaId)) == productos
  {
    LinesOfNewSale(detalles, ventaId, items, ventaId);
    RestoreUndoesDecrement(productos, LinesFor(ventaId, items));
  }

  // ------------------------------------------------------------ handlers

  /** `POST /ventas`. */
  method CreateSale(db: Database, req: VentaRequest, usuarioId: int, fecha: Timestamp) returns (r: Result<Venta>)
    requires db.Valid()
    modifies db
    ensures db.Valid()
    ensures r.Success? <==> CreateError(old(db.productos), req).None?
    ensures r.Failure? ==> r.error == CreateError(old(db.productos), req).value && unchanged(db)
    ensures r.Success? ==>
              var id := old(db.nextVentaId);
              && RequestValid(req)
              && r.value == NewVenta(id, fecha, req, usuarioId)
              && id !in old(db.ventas)
              && db.ventas == old(db.ventas)[id := r.value]
              && db.detalles == old(db.detalles) + LinesFor(id, req.items)
              && db.productos == Decremented(old(db.productos), LinesFor(id, req.items))
              && db.clientes == old(db.clientes)
              && db.nextVentaId == id + 1
              && db.nextProductoId == old(db.nextProductoId) && db.nextClienteId == old(db.nextClienteId)
  {
    ghost var expected := CreateError(db.productos, req);
    if !RequestValid(req) {
      return Failure(ValidationError);
    }
    var e := CheckStock(db.productos, req.items);
    if e.Some? {
      assert expected == e;
      return Failure(e.value);
    }

    var total := Total(req.items);
    var id := db.nextVentaId;
    var venta := Venta(id, fecha, total, ClienteRef(req.clienteId), usuarioId, Completada,
                       ParseMetodoPago(req.metodoPago).value);
    if !ValidVenta(venta) {
      assert expected == Some(PersistenceFailure);
      return Failure(PersistenceFailure);
    }

    // write the lines and take their quantities off the stock, on the transaction's copies
    var ok, productos, detalles := WriteLines(id, req.items, db.productos, db.detalles);
    if !ok {
      assert expected == Some(PersistenceFailure);
      return Failure(PersistenceFailure);
    }
    assert expected.None?;

    CommitSale(db, venta, req.items, productos, detalles);
    return Success(venta);
  }

  /** `transaction.commit()`: the sale row, its lines and the decremented
      stock become the database's state, and the next sale id moves on. */
  method CommitSale(db: Database, venta: Venta, items: seq<ItemRequest>,
                    productos: map<int, Producto>, detalles: seq<DetalleVenta>)
    requires db.Valid()
    requires venta.id == db.nextVentaId && ValidVenta(venta) && venta.estado == Completada
    requires venta.total == Total(items)
    requires StockError(db.productos, items).None?
    requires forall i :: 0 <= i < |items| ==> ValidDetalle(LineFor(0, items[i]))
    requires detalles == db.detalles + LinesFor(venta.id, items)
    requires productos == Decremented(db.productos, LinesFor(venta.id, items))
    modifies db`ventas, db`detalles, db`productos, db`nextVentaId
    ensures db.Valid()
    ensures db.ventas == old(db.ventas)[venta.id := venta] && venta.id !in old(db.ventas)
    ensures db.detalles == detalles && db.productos == productos
    ensures db.nextVentaId == venta.id + 1
  {
    CommitKeepsValid(db.ventas, db.detalles, db.productos, db.nextVentaId, db.nextProductoId, venta, items);
    db.ventas := db.ventas[venta.id := venta];
    db.detalles := detalles;
    db.productos := productos;
    db.nextVentaId := venta.id + 1;
  }

  /** The first loop of the create handler: each line in turn must name a
      stored product with enough stock; the first that does not answers. */
  method CheckStock(productos: map<int, Producto>, items: seq<ItemRequest>) returns (e: Option<Error>)
    ensures e == StockError(productos, items)
  {
    for i := 0 to |items|
      invariant forall j :: 0 <= j < i ==> LineError(productos, items[j]).None?
    {
      var item := items[i];
      if item.productoId !in productos {
        StockErrorAt(productos, items, i);
        return Some(ProductNotFound(item.productoId));
      }
      var producto := productos[item.productoId];
      if producto.stock < item.cantidad {
        StockErrorAt(productos, items, i);
        return Some(InsufficientStock(item.productoId, producto.stock, item.cantidad));
      }
    }
    StockErrorNoneIff(productos, items);
    return None;
  }

  /** The second loop of the create handler: for each item, insert its line
      (rejected when it fails the `DetalleVenta` validators) and decrement its
      product's stock, on the transaction's view of the tables. */
  method WriteLines(ventaId: int, items: seq<ItemRequest>, productos: map<int, Producto>, detalles: seq<DetalleVenta>)
    returns (ok: bool, productos': map<int, Producto>, detalles': seq<DetalleVenta>)
    ensures ok <==> forall i :: 0 <= i < |items| ==> ValidDetalle(LineFor(0, items[i]))
    ensures ok ==> detalles' == detalles + LinesFor(ventaId, items)
    ensures ok ==> productos' == Decremented(productos, LinesFor(ventaId, items))
  {
    ghost var lines := LinesFor(ventaId, items);
    productos', detalles' := productos, detalles;
    NoLinesNoChange(productos);
    assert lines[..0] == [];
    for i := 0 to |items|
      invariant detalles' == detalles + lines[..i]
      invariant productos' == Decremented(productos, lines[..i])
      invariant forall j :: 0 <= j < i ==> ValidDetalle(LineFor(0, items[j]))
    {
      var item := items[i];
      var subtotal := item.cantidad * item.precioUnitario;
      var detalle := DetalleVenta(ventaId, item.productoId, item.cantidad, item.precioUnitario, subtotal);
      if !ValidDetalle(detalle) {
        assert !ValidDetalle(LineFor(0, items[i]));
        return false, productos, detalles;
      }
      assert lines[..i + 1] == lines[..i] + [detalle];
      DecrementedStep(productos, lines, i);
      detalles' := detalles' + [detalle];
      if item.productoId in productos' {
        productos' := productos'[item.productoId := productos'[item.productoId].(stock := productos'[item.productoId].stock - item.cantidad)];
      }
    }
    assert lines[..|items|] == lines;
    ok := true;
  }

  /** The loop of the cancel handler: each line's `stock + cantidad` on its product. */
  method RestoreStock(productos: map<int, Producto>, lines: seq<DetalleVenta>) returns (productos': map<int, Producto>)
    ensures productos' == Restored(productos, lines)
  {
    productos' := productos;
    NoLinesNoChange(productos);
    assert lines[..0] == [];
    for i := 0 to |lines|
      invariant productos' == Restored(productos, lines[..i])
    {
      var detalle := lines[i];
      RestoredStep(productos, lines, i);
      if detalle.productoId in productos' {
        productos' := productos'[detalle.productoId := productos'[detalle.productoId].(stock := productos'[detalle.productoId].stock + detalle.cantidad)];
      }
    }
    assert lines[..|lines|] == lines;
  }

  lemma CommitKeepsValid(ventas: map<int, Venta>, detalles: seq<DetalleVenta>, productos: map<int, Producto>,
                         nextId: int, nextProductoId: int, venta: Venta, items: seq<ItemRequest>)
    requires LedgerValid(ventas, detalles, productos, nextId)
    requires ProductosValid(productos, nextProductoId)
    requires venta.id == nextId && ValidVenta(venta) && venta.estado == Completada && venta.total == Total(items)
    requires StockError(productos, items).None?
    requires forall i :: 0 <= i < |items| ==> ValidDetalle(LineFor(0, items[i]))
    ensures LedgerValid(ventas[nextId := venta], detalles + LinesFor(nextId, items),
                        Decremented(productos, LinesFor(nextId, items)), nextId + 1)
    ensures ProductosValid(Decremented(productos, LinesFor(nextId, items)), nextProductoId)
  {
    var productos' := Decremented(productos, LinesFor(nextId, items));
    OnlyStockChangedKeepsProductos(productos, productos', nextProductoId);
    CommitKeepsTotals(ventas, detalles, nextId, venta, items);
    StockErrorNoneIff(productos, items);
    CommitKeepsLines(ventas, detalles, productos, nextId, venta, items);
  }

  /** After the commit every sale's total is still the sum of its lines. */
  lemma CommitKeepsTotals(ventas: map<int, Venta>, detalles: seq<DetalleVenta>, nextId: int, venta: Venta,
                          items: seq<ItemRequest>)
    requires forall id :: id in ventas ==> id < nextId && ventas[id].total == SumSubtotals(LinesOf(detalles, id))
    requires forall i :: 0 <= i < |detalles| ==> detalles[i].ventaId in ventas
    requires venta.total == Total(items)
    ensures forall id :: id in ventas[nextId := venta] ==>
              ventas[nextId := venta][id].total == SumSubtotals(LinesOf(detalles + LinesFor(nextId, items), id))
  {
    var ventas' := ventas[nextId := venta];
    assert forall i :: 0 <= i < |detalles| ==> detalles[i].ventaId != nextId;
    forall id | id in ventas'
      ensures ventas'[id].total == SumSubtotals(LinesOf(detalles + LinesFor(nextId, items), id))
    {
      LinesOfNewSale(detalles, nextId, items, id);
      if id == nextId {
        TotalIsSumOfSubtotals(nextId, items);
      }
    }
  }

  /** After the commit every line points at a stored sale and product and
      passes the line validators. */
  lemma CommitKeepsLines(ventas: map<int, Venta>, detalles: seq<DetalleVenta>, productos: map<int, Producto>,
                         nextId: int, venta: Venta, items: seq<ItemRequest>)
    requires forall i :: 0 <= i < |detalles| ==>
               detalles[i].ventaId in ventas && detalles[i].productoId in productos && ValidDetalle(detalles[i])
    requires forall i :: 0 <= i < |items| ==> items[i].productoId in productos && ValidDetalle(LineFor(0, items[i]))
    ensures forall i :: 0 <= i < |detalles + LinesFor(nextId, items)| ==>
              && (detalles + LinesFor(nextId, items))[i].ventaId in ventas[nextId := venta]
              && (detalles + LinesFor(nextId, items))[i].productoId in productos
              && ValidDetalle((detalles + LinesFor(nextId, items))[i])
  {
    var lines := LinesFor(nextId, items);
    forall i | 0 <= i < |detalles + lines|
      ensures && (detalles + lines)[i].ventaId in ventas[nextId := venta]
              && (detalles + lines)[i].productoId in productos
              && ValidDetalle((detalles + lines)[i])
    {
      if i >= |detalles| {
        assert (detalles + lines)[i] == lines[i - |detalles|];
        assert LineFor(0, items[i - |detalles|]).subtotal == lines[i - |detalles|].subtotal;
      }
    }
  }

  /** `PATCH /ventas/:id/cancel`. */
  method CancelSale(db: Database, ventaId: int) returns (r: Outcome)
    requires db.Valid()
    modifies db
    ensures db.Valid()
    ensures ventaId !in old(db.ventas) ==> r == Fail(NotFound) && unchanged(db)
    ensures ventaId in old(db.ventas) && old(db.ventas[ventaId].estado) != Completada ==>
              r == Fail(InvalidState) && unchanged(db)
    ensures ventaId in old(db.ventas) && old(db.ventas[ventaId].estado) == Completada ==>
              && r == Pass
              && db.ventas == old(db.ventas)[ventaId := old(db.ventas[ventaId]).(estado := Cancelada)]
              && db.productos == Restored(old(db.productos), LinesOf(old(db.detalles), ventaId))
              && db.detalles == old(db.detalles) && db.clientes == old(db.clientes)
              && db.nextVentaId == old(db.nextVentaId) && db.nextProductoId == old(db.nextProductoId)
              && db.nextClienteId == old(db.nextClienteId)
  {
    if ventaId !in db.ventas {
      return Fail(NotFound);
    }
    var venta := db.ventas[ventaId];
    if venta.estado != Completada {
      return Fail(InvalidState);
    }
    // put the quantities of the sale's lines back on the stock
    var productos := RestoreStock(db.productos, LinesOf(db.detalles, ventaId));
    OnlyStockChangedKeepsProductos(db.productos, productos, db.nextProductoId);
    db.productos := productos;
    db.ventas := db.ventas[ventaId := venta.(estado := Cancelada)];
    return Pass;
  }

  /** Cancelling keeps every stock non-negative, because it only adds the
      quantities of valid lines back. */
  lemma CancelKeepsStock(productos: map<int, Producto>, detalles: seq<DetalleVenta>, ventaId: int)
    requires forall id :: id in productos ==> productos[id].stock >= 0
    requires forall i :: 0 <= i < |detalles| ==> ValidDetalle(detalles[i])
    ensures forall id :: id in productos ==> Restored(productos, LinesOf(detalles, ventaId))[id].stock >= 0
  {
    var lines := LinesOf(detalles, ventaId);
    assert forall i :: 0 <= i < |lines| ==> lines[i] in detalles;
    forall id | id in productos
      ensures QtyOn(lines, id) >= 0
    {
      QtyOnNonNegative(lines, id);
    }
  }
}
