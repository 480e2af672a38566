/** The relational store behind the routes: one table per model. Products and
    customers are keyed by id and never physically removed; sale lines are an
    append-only table. */
module Store {
  import opened Common
  import opened Models

  class Database {
    var productos: map<int, Producto>
    var clientes: map<int, Cliente>
    var ventas: map<int, Venta>
    var detalles: seq<DetalleVenta>
    // the next value of each table's autoIncrement primary key
    var nextProductoId: int
    var nextClienteId: int
    var nextVentaId: int

    /** The schema constraints and the referential integrity every route keeps.
        Stock is deliberately not in here: see StockNonNegative. In particular
        every line points below the next sale id and the next product id, so a
        fresh id has no lines yet. */
    ghost predicate Valid()
      reads this
      ensures Valid() ==> forall i :: 0 <= i < |detalles| ==>
                detalles[i].ventaId < nextVentaId && 1 <= detalles[i].productoId < nextProductoId
    {
      && ProductosValid(productos, nextProductoId)
      && ClientesValid(clientes, nextClienteId)
      && LedgerValid(ventas, detalles, productos, nextVentaId)
    }

    /** The `min: 0` validator on `productos.stock`. */
    ghost predicate StockNonNegative()
      reads this
    {
      forall id :: id in productos ==> productos[id].stock >= 0
    }

    constructor ()
      ensures Valid() && StockNonNegative()
      ensures productos == map[] && clientes == map[] && ventas == map[] && detalles == []
      ensures nextProductoId == 1 && nextClienteId == 1 && nextVentaId == 1
    {
      productos, clientes, ventas, detalles := map[], map[], map[], [];
      nextProductoId, nextClienteId, nextVentaId := 1, 1, 1;
    }
  }

  /** Rows are stored under their own id, from 1 up to below the next id, with a valid
      price and unique barcodes. */
  ghost predicate ProductosValid(productos: map<int, Producto>, nextId: int)
  {
    && 1 <= nextId
    && (forall id :: id in productos ==> productos[id].id == id && 1 <= id < nextId && productos[id].precio >= 0)
    && UniqueBarcodes(productos)
  }

  ghost predicate ClientesValid(clientes: map<int, Cliente>, nextId: int)
  {
    && 1 <= nextId
    && forall id :: id in clientes ==> clientes[id].id == id && 1 <= id < nextId && ValidCliente(clientes[id])
  }

  /** Every sale is stored under its id, is never `pendiente`, and its total is
      the sum of its lines' subtotals; every line is valid and references an
      existing sale and product. */
  ghost predicate LedgerValid(ventas: map<int, Venta>, detalles: seq<DetalleVenta>,
                              productos: map<int, Producto>, nextId: int)
  {
    && (forall id :: id in ventas ==>
          && ventas[id].id == id && id < nextId
          && ValidVenta(ventas[id])
          && ventas[id].estado != Pendiente
          && ventas[id].total == SumSubtotals(LinesOf(detalles, id)))
    && (forall i :: 0 <= i < |detalles| ==>
          detalles[i].ventaId in ventas && detalles[i].productoId in productos && ValidDetalle(detalles[i]))
  }

  /** `m'` differs from `m` at most in the stock of its rows. */
  ghost predicate OnlyStockChanged(m: map<int, Producto>, m': map<int, Producto>)
  {
    m'.Keys == m.Keys && forall id :: id in m ==> m'[id] == m[id].(stock := m'[id].stock)
  }

  lemma OnlyStockChangedKeepsProductos(m: map<int, Producto>, m': map<int, Producto>, nextId: int)
    requires ProductosValid(m, nextId) && OnlyStockChanged(m, m')
    ensures ProductosValid(m', nextId)
  {
    forall a, b | a in m' && b in m' && a != b && m'[a].codigoBarras.Some?
      ensures m'[a].codigoBarras != m'[b].codigoBarras
    {
      assert m'[a].codigoBarras == m[a].codigoBarras && m'[b].codigoBarras == m[b].codigoBarras;
    }
  }
}
