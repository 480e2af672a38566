/** The four persisted entities of the hardware store and the constraints
    their schemas declare (field types, enums, defaults and `min` validators). */
module Models {
  import opened Common

  /** Money in integer cents; the columns are DECIMAL(10,2). */
  type Cents = int

  /** `fecha` and the other timestamps are treated as opaque values. */
  type Timestamp = int

  // ---------------------------------------------------------------- Venta

  datatype Estado = Pendiente | Completada | Cancelada

  datatype MetodoPago = Efectivo | Tarjeta | Transferencia

  function MetodoPagoName(m: MetodoPago): string
  {
    match m
    case Efectivo => "efectivo"
    case Tarjeta => "tarjeta"
    case Transferencia => "transferencia"
  }

  /** The `isIn(['efectivo', 'tarjeta', 'transferencia'])` check on a request body. */
  function ParseMetodoPago(s: string): (r: Option<MetodoPago>)
    ensures r.Some? ==> MetodoPagoName(r.value) == s
    ensures r.None? ==> s != "efectivo" && s != "tarjeta" && s != "transferencia"
  {
    if s == "efectivo" then Some(Efectivo)
    else if s == "tarjeta" then Some(Tarjeta)
    else if s == "transferencia" then Some(Transferencia)
    else None
  }

  lemma ParseMetodoPagoName(m: MetodoPago)
    ensures ParseMetodoPago(MetodoPagoName(m)) == Some(m)
  {
  }

  /** A sale; `clienteId` is optional, `usuarioId` (the cashier) is required. */
  datatype Venta = Venta(
    id: int,
    fecha: Timestamp,
    total: Cents,
    clienteId: Option<int>,
    usuarioId: int,
    estado: Estado,
    metodoPago: MetodoPago)

  /** `total` is non-null with `min: 0`. */
  predicate ValidVenta(v: Venta)
    ensures ValidVenta(v) <==> v.total >= 0
    ensures v.total == 0 ==> ValidVenta(v)
  {
    v.total >= 0
  }

  // --------------------------------------------------------- DetalleVenta

  /** One line of a sale. Both references are required; the row's own id is
      its position in the `detalles` table of the store. */
  datatype DetalleVenta = DetalleVenta(
    ventaId: int,
    productoId: int,
    cantidad: int,
    precioUnitario: Cents,
    subtotal: Cents)

  /** `cantidad` is an integer with `min: 1`; price and subtotal have `min: 0`. */
  predicate ValidDetalle(d: DetalleVenta)
    ensures ValidDetalle(d) <==> d.cantidad >= 1 && d.precioUnitario >= 0 && d.subtotal >= 0
    ensures d.cantidad >= 1 && d.precioUnitario >= 0 && d.subtotal == d.cantidad * d.precioUnitario ==> ValidDetalle(d)
  {
    d.cantidad >= 1 && d.precioUnitario >= 0 && d.subtotal >= 0
  }

  /** `Venta.hasMany(DetalleVenta, { foreignKey: 'venta_id' })`: the lines of a
      sale are the rows whose `ventaId` is the sale's id, in table order. */
  function LinesOf(detalles: seq<DetalleVenta>, ventaId: int): (r: seq<DetalleVenta>)
    ensures |r| <= |detalles|
    ensures forall d :: d in r <==> d in detalles && d.ventaId == ventaId
  {
    if detalles == [] then []
    else (if detalles[0].ventaId == ventaId then [detalles[0]] else []) + LinesOf(detalles[1..], ventaId)
  }

  lemma {:induction false} LinesOfAppend(a: seq<DetalleVenta>, b: seq<DetalleVenta>, ventaId: int)
    ensures LinesOf(a + b, ventaId) == LinesOf(a, ventaId) + LinesOf(b, ventaId)
  {
    if a == [] {
      assert a + b == b;
    } else {
      assert (a + b)[1..] == a[1..] + b;
      LinesOfAppend(a[1..], b, ventaId);
    }
  }

  /** A sale's lines are every row of that sale, as many times as it occurs in the table. */
  lemma {:induction false} LinesOfCount(detalles: seq<DetalleVenta>, ventaId: int)
    ensures forall d :: multiset(LinesOf(detalles, ventaId))[d] == if d.ventaId == ventaId then multiset(detalles)[d] else 0
  {
    if detalles != [] {
      assert detalles == [detalles[0]] + detalles[1..];
      LinesOfCount(detalles[1..], ventaId);
    }
  }

  /** The sum of the subtotals of some lines. */
  function SumSubtotals(lines: seq<DetalleVenta>): Cents
  {
    if lines == [] then 0 else lines[0].subtotal + SumSubtotals(lines[1..])
  }

  // ------------------------------------------------------------- Producto

  datatype Producto = Producto(
    id: int,
    nombre: string,
    descripcion: Option<string>,
    precio: Cents,
    stock: int,
    categoria: string,
    codigoBarras: Option<string>,
    activo: bool)

  /** Column defaults of `productos`. */
  const DefaultStock: int := 0
  const DefaultActivo: bool := true

  /** `precio` has `min: 0`; `stock` is an integer with `min: 0`. */
  predicate ValidProducto(p: Producto)
    ensures ValidProducto(p) <==> p.precio >= 0 && p.stock >= 0
    ensures p.precio >= 0 && p.stock == DefaultStock ==> ValidProducto(p)
  {
    p.precio >= 0 && p.stock >= 0
  }

  /** `codigo_barras` is `unique`: no two rows share a non-null barcode. */
  predicate UniqueBarcodes(productos: map<int, Producto>)
    ensures UniqueBarcodes(productos) <==>
      forall a, b ::
        (a in productos && b in productos && productos[a].codigoBarras.Some? &&
         productos[a].codigoBarras == productos[b].codigoBarras) ==> a == b
    ensures (forall k :: k in productos ==> productos[k].codigoBarras.None?) ==> UniqueBarcodes(productos)
  {
    forall a, b :: a in productos && b in productos && a != b && productos[a].codigoBarras.Some? ==>
      productos[a].codigoBarras != productos[b].codigoBarras
  }

  // -------------------------------------------------------------- Cliente

  datatype Cliente = Cliente(
    id: int,
    nombre: string,
    telefono: Option<string>,
    direccion: Option<string>,
    email: Option<string>,
    rfc: Option<string>,
    activo: bool)

  /** A simplified `isEmail`: one `@`, a non-empty local part, and a domain with
      a dot that neither starts nor ends it. */
  predicate IsEmail(s: string)
    ensures IsEmail(s) ==> 5 <= |s| && s[0] != '@' && s[|s| - 1] != '@'
  {
    exists i :: 0 < i < |s| && s[i] == '@' && '@' !in s[..i] && IsDomain(s[i + 1..])
  }

  predicate IsDomain(d: string)
  {
    '@' !in d && exists j :: 0 < j < |d| - 1 && d[j] == '.'
  }

  /** `email`, when present, satisfies `isEmail`; the other optional fields are free. */
  predicate ValidCliente(c: Cliente)
    ensures ValidCliente(c) <==> c.email.None? || IsEmail(c.email.value)
    ensures c.email == Some("") ==> !ValidCliente(c)
  {
    c.email.Some? ==> IsEmail(c.email.value)
  }
}
