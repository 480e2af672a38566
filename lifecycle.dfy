/** One product's life through the routes: created with stock 10, sold three
    units at 5.00, the sale cancelled, and cancelled again. */
module Lifecycle {
  import opened Common
  import opened Models
  import opened Store
  import Productos
  import Ventas

  /** The catalogue after creating "Martillo": stock 10 at 5.00, id 1. */
  method WithOneProduct() returns (db: Database)
    ensures fresh(db) && db.Valid()
    ensures db.productos.Keys == {1} && db.productos[1].stock == 10
    ensures db.ventas == map[] && db.detalles == [] && db.nextVentaId == 1
  {
    db := new Database();
    var body := Productos.ProductoBody(Given("Martillo"), Absent, Given(500), Given(10),
                                       Given("Herramientas"), Absent, Absent);
    assert Productos.CreateBodyValid(body);
    assert !Productos.BarcodeClash(db.productos, body.codigoBarras.Or(None), db.nextProductoId);
    var p := Productos.CreateProducto(db, body);
    assert p == Success(Productos.NewProducto(1, body));
  }

  /** Selling three units of product 1 at 5.00 as sale 1. */
  method SellThree(db: Database) returns (total: Cents)
    requires db.Valid()
    requires db.productos.Keys == {1} && db.productos[1].stock == 10
    requires db.ventas == map[] && db.detalles == [] && db.nextVentaId == 1
    modifies db
    ensures db.Valid() && total == 1500
    ensures db.productos.Keys == {1} && db.productos[1].stock == 7
    ensures 1 in db.ventas && db.ventas[1].estado == Completada
    ensures db.detalles == Ventas.LinesFor(1, [Ventas.ItemRequest(1, 3, 500)])
  {
    var req := Ventas.VentaRequest(None, "efectivo", [Ventas.ItemRequest(1, 3, 500)]);
    assert Ventas.StockError(db.productos, req.items).None?;
    assert Ventas.LineFor(0, req.items[0]).subtotal == 1500;
    assert Ventas.RowsValid(req.items);
    var v := Ventas.CreateSale(db, req, 1, 0);
    assert v.Success?;
    total := v.value.total;
    var lines := Ventas.LinesFor(1, req.items);
    assert Ventas.QtyOn(lines, 1) == Ventas.QtyOn([], 1) + 3;
  }

  method SaleAndCancel() returns (total: Cents, stockAfterSale: int, first: Outcome,
                                  stockAfterCancel: int, second: Outcome)
    ensures total == 1500
    ensures stockAfterSale == 7 && first == Pass && stockAfterCancel == 10
    ensures second == Fail(InvalidState)
  {
    var db := WithOneProduct();
    total := SellThree(db);
    stockAfterSale := db.productos[1].stock;

    var lines := db.detalles;
    Ventas.LinesOfOwn(lines, 1, 0);
    assert Ventas.QtyOn(lines, 1) == Ventas.QtyOn([], 1) + 3;
    first := Ventas.CancelSale(db, 1);
    stockAfterCancel := db.productos[1].stock;

    second := Ventas.CancelSale(db, 1);
  }
}
