/** The product catalogue routes (`/api/productos`): list, get, create, update
    and soft delete. Each handler validates its body the way the route's
    express-validator chain does, then reads or writes `Database.productos`. */
module Productos {
  import opened Common
  import opened Models
  import opened Store
  import opened Listing

  /** A JSON body for create or update: any subset of the columns. A nullable
      column can be given as `null` (`Given(None)`). */
  datatype ProductoBody = ProductoBody(
    nombre: Field<string>,
    descripcion: Field<Option<string>>,
    precio: Field<Cents>,
    stock: Field<int>,
    categoria: Field<string>,
    codigoBarras: Field<Option<string>>,
    activo: Field<bool>)

  // ------------------------------------------------------------ validation

  /** The rules of one field: `notEmpty` on the names, `precio > 0`,
      `stock` an integer `>= 0`. */
  predicate NombreOk(f: Field<string>)   { f.Given? ==> f.value != "" }
  predicate PrecioOk(f: Field<Cents>)    { f.Given? ==> f.value > 0 }
  predicate StockOk(f: Field<int>)       { f.Given? ==> f.value >= 0 }

  /** POST: nombre, precio, stock and categoria are required and must pass
      their rules; the other fields are free. */
  predicate CreateBodyValid(b: ProductoBody)
    ensures CreateBodyValid(b) <==>
              && b.nombre.Given? && b.nombre.value != ""
              && b.precio.Given? && b.precio.value > 0
              && b.stock.Given? && b.stock.value >= 0
              && b.categoria.Given? && b.categoria.value != ""
    ensures CreateBodyValid(b) ==> UpdateBodyValid(b)
  {
    && b.nombre.Given? && b.precio.Given? && b.stock.Given? && b.categoria.Given?
    && UpdateBodyValid(b)
  }

  /** PUT: every rule is `optional()`, so only the fields given are checked. */
  predicate UpdateBodyValid(b: ProductoBody)
    ensures UpdateBodyValid(b) <==>
              && (b.nombre.Given? ==> b.nombre.value != "")
              && (b.precio.Given? ==> b.precio.value > 0)
              && (b.stock.Given? ==> b.stock.value >= 0)
              && (b.categoria.Given? ==> b.categoria.value != "")
  {
    NombreOk(b.nombre) && PrecioOk(b.precio) && StockOk(b.stock) && NombreOk(b.categoria)
  }

  /** A body that names no column. Sequelize then has only `updated_at` to
      write, skips the UPDATE and reports no row changed. It passes every
      optional rule and never passes the create chain. */
  predicate EmptyBody(b: ProductoBody)
    ensures EmptyBody(b) ==> UpdateBodyValid(b) && !CreateBodyValid(b)
  {
    && b.nombre.Absent? && b.descripcion.Absent? && b.precio.Absent? && b.stock.Absent?
    && b.categoria.Absent? && b.codigoBarras.Absent? && b.activo.Absent?
  }

  // ------------------------------------------------------------ row building

  /** The row `Producto.create` inserts: the body's fields over the column
      defaults (`descripcion` and `codigo_barras` null, `stock` 0, `activo`
      true); the required columns have no default and always come from the
      body. */
  function NewProducto(id: int, b: ProductoBody): (p: Producto)
    requires CreateBodyValid(b)
    ensures p == Patch(Producto(id, "", None, 0, DefaultStock, "", None, DefaultActivo), b)
  {
    Producto(id, b.nombre.value, b.descripcion.Or(None), b.precio.value, b.stock.value,
             b.categoria.value, b.codigoBarras.Or(None), b.activo.Or(DefaultActivo))
  }

  /** The row after `Producto.update(body)`: given fields replace the stored
      ones; the primary key is never written. */
  function Patch(p: Producto, b: ProductoBody): (q: Producto)
    ensures q.id == p.id
    ensures b.nombre.Given? ==> q.nombre == b.nombre.value
    ensures b.descripcion.Given? ==> q.descripcion == b.descripcion.value
    ensures b.precio.Given? ==> q.precio == b.precio.value
    ensures b.stock.Given? ==> q.stock == b.stock.value
    ensures b.categoria.Given? ==> q.categoria == b.categoria.value
    ensures b.codigoBarras.Given? ==> q.codigoBarras == b.codigoBarras.value
    ensures b.activo.Given? ==> q.activo == b.activo.value
  {
    Producto(p.id, b.nombre.Or(p.nombre), b.descripcion.Or(p.descripcion), b.precio.Or(p.precio),
             b.stock.Or(p.stock), b.categoria.Or(p.categoria), b.codigoBarras.Or(p.codigoBarras),
             b.activo.Or(p.activo))
  }

  /** The body that carries every column of `p` (what the edit form sends back). */
  function BodyOf(p: Producto): ProductoBody
  {
    ProductoBody(Given(p.nombre), Given(p.descripcion), Given(p.precio), Given(p.stock),
                 Given(p.categoria), Given(p.codigoBarras), Given(p.activo))
  }

  /** Writing barcode `code` to row `self` breaks the `unique` constraint:
      another row already holds it. */
  predicate BarcodeClash(productos: map<int, Producto>, code: Option<string>, self: int)
  {
    code.Some? && exists k :: k in productos && k != self && productos[k].codigoBarras == code
  }

  // ------------------------------------------------------------ reads

  function ProductoId(p: Producto): int { p.id }
  function ProductoNombre(p: Producto): string { p.nombre }
  predicate ProductoActivo(p: Producto) { p.activo }

  /** GET /: the active rows, ordered by nombre, each exactly once. */
  function ListProductos(productos: map<int, Producto>, nextId: int): (r: seq<Producto>)
    requires ProductosValid(productos, nextId)
    ensures SortedByName(r, ProductoNombre)
    ensures forall id :: id in productos && productos[id].activo ==> productos[id] in r
    ensures forall p :: p in r ==> p.id in productos && productos[p.id] == p && p.activo
    ensures NoDup(r)
  {
    ListBy(productos, nextId, ProductoActivo, ProductoNombre, ProductoId)
  }

  /** GET /:id: `findByPk`, which does not look at `activo`. */
  function GetProducto(productos: map<int, Producto>, id: int): (r: Result<Producto>)
    ensures r.Success? <==> id in productos
    ensures r.Success? ==> r.value == productos[id]
    ensures r.Failure? ==> r.error == NotFound
  {
    if id in productos then Success(productos[id]) else Failure(NotFound)
  }

  // ------------------------------------------------------------ writes

  /** POST /. A rejected body answers 400; a barcode already in use makes the
      insert fail (500). Otherwise the row gets the next id. */
  method CreateProducto(db: Database, b: ProductoBody) returns (r: Result<Producto>)
    requires db.Valid()
    modifies db`productos, db`nextProductoId
    ensures db.Valid()
    ensures old(db.StockNonNegative()) ==> db.StockNonNegative()
    ensures !CreateBodyValid(b) ==> r == Failure(ValidationError)
    ensures (CreateBodyValid(b) && BarcodeClash(old(db.productos), b.codigoBarras.Or(None), old(db.nextProductoId)))
              ==> r == Failure(PersistenceFailure)
    ensures r.Failure? ==> unchanged(db)
    ensures r.Success? <==>
              CreateBodyValid(b) && !BarcodeClash(old(db.productos), b.codigoBarras.Or(None), old(db.nextProductoId))
    ensures r.Success? ==>
              && CreateBodyValid(b)
              && r.value == NewProducto(old(db.nextProductoId), b)
              && db.productos == old(db.productos)[r.value.id := r.value]
              && db.nextProductoId == old(db.nextProductoId) + 1
  {
    if !CreateBodyValid(b) {
      return Failure(ValidationError);
    }
    var p := NewProducto(db.nextProductoId, b);
    if BarcodeClash(db.productos, p.codigoBarras, p.id) {
      return Failure(PersistenceFailure);
    }
    BarcodeClashIff(db.productos, p.id, p);
    db.productos := db.productos[p.id := p];
    db.nextProductoId := db.nextProductoId + 1;
    r := Success(p);
  }

  /** PUT /:id. Validation comes first (400). The update then changes no row,
      and the route answers 404, when the body names no column or the row
      does not exist. Last, the new barcode must be free (500). */
  method UpdateProducto(db: Database, id: int, b: ProductoBody) returns (r: Result<Producto>)
    requires db.Valid()
    modifies db`productos
    ensures db.Valid()
    ensures old(db.StockNonNegative()) ==> db.StockNonNegative()
    ensures !UpdateBodyValid(b) ==> r == Failure(ValidationError)
    ensures UpdateBodyValid(b) && (EmptyBody(b) || id !in old(db.productos)) ==> r == Failure(NotFound)
    ensures (&& UpdateBodyValid(b) && !EmptyBody(b) && id in old(db.productos)
             && BarcodeClash(old(db.productos), Patch(old(db.productos)[id], b).codigoBarras, id))
              ==> r == Failure(PersistenceFailure)
    ensures r.Failure? ==> unchanged(db)
    ensures r.Success? <==>
              && UpdateBodyValid(b) && !EmptyBody(b) && id in old(db.productos)
              && !BarcodeClash(old(db.productos), Patch(old(db.productos)[id], b).codigoBarras, id)
    ensures r.Success? ==>
              && UpdateBodyValid(b) && id in old(db.productos)
              && r.value == Patch(old(db.productos)[id], b)
              && db.productos == old(db.productos)[id := r.value]
  {
    if !UpdateBodyValid(b) {
      return Failure(ValidationError);
    }
    if EmptyBody(b) || id !in db.productos {
      return Failure(NotFound);
    }
    var p := Patch(db.productos[id], b);
    if BarcodeClash(db.productos, p.codigoBarras, id) {
      return Failure(PersistenceFailure);
    }
    BarcodeClashIff(db.productos, id, p);
    db.productos := db.productos[id := p];
    r := Success(p);
  }

  /** DELETE /:id: a soft delete that clears `activo`; 404 when no row matched. */
  method DeleteProducto(db: Database, id: int) returns (r: Outcome)
    requires db.Valid()
    modifies db`productos
    ensures db.Valid()
    ensures old(db.StockNonNegative()) ==> db.StockNonNegative()
    ensures r == Fail(NotFound) <==> id !in old(db.productos)
    ensures r.Pass? <==> id in old(db.productos)
    ensures r.Fail? ==> unchanged(db)
    ensures r.Pass? ==> db.productos == Deactivated(old(db.productos), id)
  {
    if id !in db.productos {
      return Fail(NotFound);
    }
    BarcodeClashIff(db.productos, id, db.productos[id].(activo := false));
    db.productos := Deactivated(db.productos, id);
    r := Pass;
  }

  /** The table after the soft delete of row `id`. */
  function Deactivated(productos: map<int, Producto>, id: int): map<int, Producto>
    requires id in productos
  {
    productos[id := productos[id].(activo := false)]
  }

  // ------------------------------------------------------------ properties

  /** Given unique barcodes, writing row `p` under `id` keeps them unique
      exactly when no other row holds `p`'s barcode. */
  lemma BarcodeClashIff(productos: map<int, Producto>, id: int, p: Producto)
    requires UniqueBarcodes(productos)
    ensures UniqueBarcodes(productos[id := p]) <==> !BarcodeClash(productos, p.codigoBarras, id)
  {
    var m := productos[id := p];
    if BarcodeClash(productos, p.codigoBarras, id) {
      var k :| k in productos && k != id && productos[k].codigoBarras == p.codigoBarras;
      assert m[id].codigoBarras == m[k].codigoBarras;
    } else {
      forall a, c | a in m && c in m && a != c && m[a].codigoBarras.Some?
        ensures m[a].codigoBarras != m[c].codigoBarras
      {
        if a == id {
          assert c in productos && c != id;
        } else if c == id {
          assert a in productos && a != id;
        } else {
          assert m[a] == productos[a] && m[c] == productos[c];
        }
      }
    }
  }

  /** A body that passes POST's rules yields a row the schema accepts, with
      the non-empty names and the positive price the route demands. */
  lemma NewProductoValid(id: int, b: ProductoBody)
    requires CreateBodyValid(b)
    ensures ValidProducto(NewProducto(id, b))
    ensures NewProducto(id, b).precio > 0 && NewProducto(id, b).nombre != "" && NewProducto(id, b).categoria != ""
    ensures NewProducto(id, b).activo == (b.activo != Given(false))
  {
  }

  /** PUT keeps a valid row valid, never changes its id, and leaves every
      field the body omits as it was. */
  lemma PatchValid(p: Producto, b: ProductoBody)
    requires ValidProducto(p) && UpdateBodyValid(b)
    ensures ValidProducto(Patch(p, b)) && Patch(p, b).id == p.id
    ensures b.nombre.Absent? ==> Patch(p, b).nombre == p.nombre
    ensures b.descripcion.Absent? ==> Patch(p, b).descripcion == p.descripcion
    ensures b.precio.Absent? ==> Patch(p, b).precio == p.precio
    ensures b.stock.Absent? ==> Patch(p, b).stock == p.stock
    ensures b.categoria.Absent? ==> Patch(p, b).categoria == p.categoria
    ensures b.codigoBarras.Absent? ==> Patch(p, b).codigoBarras == p.codigoBarras
    ensures b.activo.Absent? ==> Patch(p, b).activo == p.activo
  {
  }

  /** Sending the same PUT twice has the effect of sending it once; an empty
      body changes nothing. */
  lemma PatchIdempotent(p: Producto, b: ProductoBody)
    ensures Patch(Patch(p, b), b) == Patch(p, b)
    ensures Patch(p, ProductoBody(Absent, Absent, Absent, Absent, Absent, Absent, Absent)) == p
  {
  }

  /** Round trip through the edit form: a row's full body, sent to PUT over
      any row, reproduces it under that row's id; sent to POST it passes
      validation exactly when the row has the fields the route demands, and
      then reproduces it under the new id. */
  lemma BodyOfRoundTrip(p: Producto, q: Producto, id: int)
    ensures Patch(q, BodyOf(p)) == p.(id := q.id)
    ensures CreateBodyValid(BodyOf(p)) <==> p.nombre != "" && p.precio > 0 && p.stock >= 0 && p.categoria != ""
    ensures CreateBodyValid(BodyOf(p)) ==> NewProducto(id, BodyOf(p)) == p.(id := id)
  {
  }

  /** A soft-deleted product is still found by id, and the list loses exactly
      that product. */
  lemma DeleteHidesFromList(productos: map<int, Producto>, nextId: int, id: int)
    requires ProductosValid(productos, nextId) && id in productos
    ensures ProductosValid(Deactivated(productos, id), nextId)
    ensures GetProducto(Deactivated(productos, id), id) == Success(productos[id].(activo := false))
    ensures forall p :: p in ListProductos(Deactivated(productos, id), nextId) <==>
                        p in ListProductos(productos, nextId) && p.id != id
  {
    var m := Deactivated(productos, id);
    BarcodeClashIff(productos, id, m[id]);
    assert m[id].codigoBarras == productos[id].codigoBarras;
    DeactivatedListing(productos, nextId, id);
  }

  lemma DeactivatedListing(productos: map<int, Producto>, nextId: int, id: int)
    requires id in productos
    requires ProductosValid(productos, nextId) && ProductosValid(Deactivated(productos, id), nextId)
    ensures forall p :: p in ListProductos(Deactivated(productos, id), nextId) <==>
                        p in ListProductos(productos, nextId) && p.id != id
  {
    var m := Deactivated(productos, id);
    var before := ListProductos(productos, nextId);
    var after := ListProductos(m, nextId);
    forall p ensures p in after <==> p in before && p.id != id {
      if p in after {
        assert p.id in m && m[p.id] == p && p.activo;
        assert p.id != id;
        assert productos[p.id] == p;
      }
      if p in before && p.id != id {
        assert productos[p.id] == p && p.activo;
        assert m[p.id] == p;
      }
    }
  }

  /** A product is listed exactly when it is stored and active. */
  lemma ListedIffActive(productos: map<int, Producto>, nextId: int, p: Producto)
    requires ProductosValid(productos, nextId)
    ensures p in ListProductos(productos, nextId) <==> p.id in productos && productos[p.id] == p && p.activo
  {
  }
}
