/** The sale form of the web client: a cart of items built from the product
    list, with a running total, that is turned into the body of
    `POST /ventas` on submit. */
module VentaForm {
  import opened Common
  import opened Models
  import opened Listing
  import Ventas

  /** One cart line: the product as it was listed, how many, and the unit
      price copied from the listing. */
  datatype ItemVenta = ItemVenta(productoId: int, producto: Producto, cantidad: int, precioUnitario: Cents)

  /** The form offers the listed products that are active and in stock. */
  predicate Offerable(p: Producto) { p.activo && p.stock > 0 }

  predicate ClienteActivo(c: Cliente) { c.activo }

  /** `Array.find` on the product list: the first product with this id. */
  function FindProducto(ps: seq<Producto>, id: int): (r: Option<Producto>)
    ensures r.None? <==> forall i :: 0 <= i < |ps| ==> ps[i].id != id
    ensures r.Some? ==> r.value in ps && r.value.id == id
  {
    if ps == [] then None
    else if ps[0].id == id then Some(ps[0])
    else FindProducto(ps[1..], id)
  }

  /** What `find` returns is the product at the first index holding the id. */
  lemma {:induction false} FindProductoFirst(ps: seq<Producto>, id: int, i: int)
    requires 0 <= i < |ps| && ps[i].id == id
    requires forall j :: 0 <= j < i ==> ps[j].id != id
    ensures FindProducto(ps, id) == Some(ps[i])
  {
    if i > 0 {
      FindProductoFirst(ps[1..], id, i - 1);
    }
  }

  /** `Array.find` on the cart: the first item for this product. */
  function FindItem(items: seq<ItemVenta>, id: int): (r: Option<ItemVenta>)
    ensures r.None? <==> forall i :: 0 <= i < |items| ==> items[i].productoId != id
    ensures r.Some? ==> r.value in items && r.value.productoId == id
  {
    if items == [] then None
    else if items[0].productoId == id then Some(items[0])
    else FindItem(items[1..], id)
  }

  /** The item `addItem` appends for a product not yet in the cart. */
  function NewItem(p: Producto): ItemVenta
  {
    ItemVenta(p.id, p, 1, p.precio)
  }

  /** The items with the product's quantity set to `n` (the `items.map` that
      both `addItem` and `updateQuantity` perform). */
  function WithQuantity(items: seq<ItemVenta>, id: int, n: int): (r: seq<ItemVenta>)
    ensures |r| == |items|
    ensures forall i :: 0 <= i < |items| ==>
              r[i] == if items[i].productoId == id then items[i].(cantidad := n) else items[i]
  {
    seq(|items|, i requires 0 <= i < |items| =>
      if items[i].productoId == id then items[i].(cantidad := n) else items[i])
  }

  /** The items without the product, in their order (`items.filter`). */
  function Without(items: seq<ItemVenta>, id: int): (r: seq<ItemVenta>)
    ensures |r| <= |items|
    ensures forall x :: x in r <==> x in items && x.productoId != id
  {
    if items == [] then []
    else (if items[0].productoId == id then [] else [items[0]]) + Without(items[1..], id)
  }

  /** `filter` keeps every other item as many times as it occurs, and none of the product's. */
  lemma {:induction false} WithoutCount(items: seq<ItemVenta>, id: int)
    ensures forall x :: multiset(Without(items, id))[x] == if x.productoId != id then multiset(items)[x] else 0
  {
    if items != [] {
      assert items == [items[0]] + items[1..];
      WithoutCount(items[1..], id);
    }
  }

  /** `filter` keeps the order: filtering a concatenation filters each part. */
  lemma {:induction false} WithoutAppend(a: seq<ItemVenta>, b: seq<ItemVenta>, id: int)
    ensures Without(a + b, id) == Without(a, id) + Without(b, id)
  {
    if a == [] {
      assert a + b == b;
    } else {
      assert (a + b)[1..] == a[1..] + b;
      WithoutAppend(a[1..], b, id);
    }
  }

  /** `updateQuantity`: a quantity of zero or less removes the product; any
      other sets its quantity and leaves every other item, and the order, as
      it was. */
  function Updated(items: seq<ItemVenta>, id: int, n: int): (r: seq<ItemVenta>)
    ensures n <= 0 ==> forall x :: x in r <==> x in items && x.productoId != id
    ensures n <= 0 ==> forall x :: multiset(r)[x] == if x.productoId != id then multiset(items)[x] else 0
    ensures n > 0 ==> |r| == |items|
    ensures n > 0 ==> forall i :: 0 <= i < |items| ==>
              && r[i].productoId == items[i].productoId && r[i].producto == items[i].producto
              && r[i].precioUnitario == items[i].precioUnitario
              && r[i].cantidad == (if items[i].productoId == id then n else items[i].cantidad)
  {
    if n <= 0 then WithoutCount(items, id); Without(items, id) else WithQuantity(items, id, n)
  }

  /** Both branches of `updateQuantity` keep the order of the cart: updating a
      concatenation updates each part. */
  lemma UpdatedAppend(a: seq<ItemVenta>, b: seq<ItemVenta>, id: int, n: int)
    ensures Updated(a + b, id, n) == Updated(a, id, n) + Updated(b, id, n)
  {
    if n <= 0 {
      WithoutAppend(a, b, id);
    } else {
      var l, r := Updated(a + b, id, n), Updated(a, id, n) + Updated(b, id, n);
      forall i | 0 <= i < |l|
        ensures l[i] == r[i]
      {
        if i < |a| {
          assert (a + b)[i] == a[i];
        } else {
          assert (a + b)[i] == b[i - |a|];
        }
      }
    }
  }

  /** `items.reduce(sum + cantidad * precio_unitario, 0)`; never negative
      while quantities and prices are not. */
  function CartTotal(items: seq<ItemVenta>): (t: Cents)
    ensures (forall i :: 0 <= i < |items| ==> items[i].cantidad >= 0 && items[i].precioUnitario >= 0) ==> t >= 0
  {
    if items == [] then 0 else CartTotal(items[..|items| - 1]) + LineTotal(items[|items| - 1])
  }

  function LineTotal(item: ItemVenta): Cents
  {
    item.cantidad * item.precioUnitario
  }

  /** The request lines `onSubmit` sends: product, quantity and unit price. */
  function RequestItems(items: seq<ItemVenta>): (r: seq<Ventas.ItemRequest>)
    ensures |r| == |items|
    ensures forall i :: 0 <= i < |items| ==>
              r[i] == Ventas.ItemRequest(items[i].productoId, items[i].cantidad, items[i].precioUnitario)
  {
    seq(|items|, i requires 0 <= i < |items| =>
      Ventas.ItemRequest(items[i].productoId, items[i].cantidad, items[i].precioUnitario))
  }

  /** The cart's own invariant: one item per product, each with a positive
      quantity, the listed product and its listed price. */
  predicate ItemsValid(items: seq<ItemVenta>, productos: seq<Producto>)
  {
    && (forall i, j :: 0 <= i < j < |items| ==> items[i].productoId != items[j].productoId)
    && forall i :: 0 <= i < |items| ==>
         && items[i].cantidad >= 1
         && items[i].producto.id == items[i].productoId
         && items[i].precioUnitario == items[i].producto.precio
         && FindProducto(productos, items[i].productoId) == Some(items[i].producto)
  }

  /** No item asks for more than the stock its product was listed with. */
  predicate WithinStock(items: seq<ItemVenta>)
  {
    forall i :: 0 <= i < |items| ==> items[i].cantidad <= items[i].producto.stock
  }

  class Carrito {
    var productos: seq<Producto>
    var clientes: seq<Cliente>
    var items: seq<ItemVenta>
    var selectedProductId: int   // 0: nothing selected

    ghost predicate Valid()
      reads this
    {
      && (forall p :: p in productos ==> Offerable(p))
      && ItemsValid(items, productos)
    }

    /** Mounting the form runs `loadData`: the offered products and the
        active customers, out of the two lists the API returned. */
    constructor (productosData: seq<Producto>, clientesData: seq<Cliente>)
      ensures Valid() && WithinStock(items)
      ensures productos == Filter(productosData, Offerable)
      ensures clientes == Filter(clientesData, ClienteActivo)
      ensures items == [] && selectedProductId == 0
    {
      productos := Filter(productosData, Offerable);
      clientes := Filter(clientesData, ClienteActivo);
      items := [];
      selectedProductId := 0;
      new;
      assert forall p :: p in productos ==> multiset(productos)[p] > 0;
    }

    /** The product drop-down's `onChange`. */
    method Select(id: int)
      modifies this`selectedProductId
      ensures selectedProductId == id
    {
      selectedProductId := id;
    }

    /** `addItem`. Nothing happens when no listed product is selected. A
        product already in the cart gains one unit unless that would pass
        the listed stock; a new product enters with one unit at its listed
        price. The selection is cleared after a change. */
    method AddItem() returns (r: Outcome)
      requires Valid()
      modifies this`items, this`selectedProductId
      ensures Valid()
      ensures old(WithinStock(items)) ==> WithinStock(items)
      ensures FindProducto(productos, old(selectedProductId)).None? ==>
                r == Fail(ProductNotFound(old(selectedProductId))) && unchanged(this)
      ensures FindProducto(productos, old(selectedProductId)).Some? ==>
                var p := FindProducto(productos, old(selectedProductId)).value;
                var existing := FindItem(old(items), p.id);
                if existing.Some? && existing.value.cantidad >= p.stock then
                  && r == Fail(InsufficientStock(p.id, p.stock, existing.value.cantidad + 1))
                  && unchanged(this)
                else
                  && r == Pass && selectedProductId == 0
                  && items == if existing.Some? then WithQuantity(old(items), p.id, existing.value.cantidad + 1)
                              else old(items) + [NewItem(p)]
    {
      var found := FindProducto(productos, selectedProductId);
      if found.None? {
        return Fail(ProductNotFound(selectedProductId));
      }
      var p := found.value;
      var existing := FindItem(items, p.id);
      if existing.Some? {
        if existing.value.cantidad >= p.stock {
          return Fail(InsufficientStock(p.id, p.stock, existing.value.cantidad + 1));
        }
        BumpKeepsItems(items, productos, p.id, existing.value);
        items := WithQuantity(items, p.id, existing.value.cantidad + 1);
      } else {
        AppendKeepsItems(items, productos, p);
        items := items + [NewItem(p)];
      }
      selectedProductId := 0;
      r := Pass;
    }

    /** `updateQuantity`, called by the minus and plus buttons of an item. */
    method UpdateQuantity(id: int, n: int)
      requires Valid()
      modifies this`items
      ensures Valid()
      ensures items == Updated(old(items), id, n)
      ensures old(WithinStock(items)) && (forall i :: 0 <= i < |old(items)| && old(items)[i].productoId == id ==>
                                            n <= old(items)[i].producto.stock)
              ==> WithinStock(items)
    {
      UpdatedKeepsItems(items, productos, id, n);
      items := Updated(items, id, n);
    }

    /** `onSubmit`: the form's `required` rule on the payment method, then
        the empty-cart guard; otherwise the body for `POST /ventas`. The
        client choice `Cliente General` is `None`. */
    function Submit(clienteId: Option<int>, metodoPago: string): (r: Result<Ventas.VentaRequest>)
      reads this
      ensures r.Success? <==> metodoPago != "" && items != []
      ensures r.Failure? ==> r.error == ValidationError
      ensures r.Success? ==> r.value.clienteId == clienteId && r.value.metodoPago == metodoPago
      ensures r.Success? ==> r.value.items == RequestItems(items)
    {
      if metodoPago == "" || items == [] then Failure(ValidationError)
      else Success(Ventas.VentaRequest(clienteId, metodoPago, RequestItems(items)))
    }
  }

  // ------------------------------------------------------------ item-list lemmas

  lemma AppendKeepsItems(items: seq<ItemVenta>, productos: seq<Producto>, p: Producto)
    requires ItemsValid(items, productos)
    requires FindProducto(productos, p.id) == Some(p)
    requires FindItem(items, p.id).None?
    ensures ItemsValid(items + [NewItem(p)], productos)
    ensures WithinStock(items) && p.stock >= 1 ==> WithinStock(items + [NewItem(p)])
  {
  }

  lemma BumpKeepsItems(items: seq<ItemVenta>, productos: seq<Producto>, id: int, existing: ItemVenta)
    requires ItemsValid(items, productos)
    requires FindItem(items, id) == Some(existing)
    ensures ItemsValid(WithQuantity(items, id, existing.cantidad + 1), productos)
    ensures WithinStock(items) && existing.cantidad < existing.producto.stock ==>
              WithinStock(WithQuantity(items, id, existing.cantidad + 1))
  {
    var r := WithQuantity(items, id, existing.cantidad + 1);
    forall i | 0 <= i < |items| && items[i].productoId == id
      ensures items[i] == existing
    {
      FindItemUnique(items, id, i);
    }
  }

  /** What `find` returns is the item at the first index holding the
      product; with one item per product, that is any index holding it. */
  lemma {:induction false} FindItemFirst(items: seq<ItemVenta>, id: int, i: int)
    requires 0 <= i < |items| && items[i].productoId == id
    requires forall j :: 0 <= j < i ==> items[j].productoId != id
    ensures FindItem(items, id) == Some(items[i])
  {
    if i > 0 {
      FindItemFirst(items[1..], id, i - 1);
    }
  }

  lemma FindItemUnique(items: seq<ItemVenta>, id: int, i: int)
    requires forall a, b :: 0 <= a < b < |items| ==> items[a].productoId != items[b].productoId
    requires 0 <= i < |items| && items[i].productoId == id
    ensures FindItem(items, id) == Some(items[i])
  {
    FindItemFirst(items, id, i);
  }

  lemma UpdatedKeepsItems(items: seq<ItemVenta>, productos: seq<Producto>, id: int, n: int)
    requires ItemsValid(items, productos)
    ensures ItemsValid(Updated(items, id, n), productos)
    ensures WithinStock(items) && (forall i :: 0 <= i < |items| && items[i].productoId == id ==> n <= items[i].producto.stock)
            ==> WithinStock(Updated(items, id, n))
  {
    if n <= 0 {
      WithoutKeeps(items, productos, id);
    }
  }

  lemma WithoutKeeps(items: seq<ItemVenta>, productos: seq<Producto>, id: int)
    requires ItemsValid(items, productos)
    ensures ItemsValid(Without(items, id), productos)
    ensures WithinStock(items) ==> WithinStock(Without(items, id))
  {
    var r := Without(items, id);
    WithoutDistinct(items, id);
    forall i | 0 <= i < |r|
      ensures exists k :: 0 <= k < |items| && items[k] == r[i]
    {
      assert r[i] in items;
    }
  }

  /** Removing a product keeps the other items one per product. */
  lemma {:induction false} WithoutDistinct(items: seq<ItemVenta>, id: int)
    requires forall a, b :: 0 <= a < b < |items| ==> items[a].productoId != items[b].productoId
    ensures var r := Without(items, id);
            forall a, b :: 0 <= a < b < |r| ==> r[a].productoId != r[b].productoId
  {
    if items != [] {
      DistinctTail(items);
      WithoutDistinct(items[1..], id);
      assert forall a, b :: 0 <= a < b < |Without(items[1..], id)| ==>
               Without(items[1..], id)[a].productoId != Without(items[1..], id)[b].productoId;
      var rest := Without(items[1..], id);
      if items[0].productoId != id {
        forall j | 0 <= j < |rest| ensures rest[j].productoId != items[0].productoId {
          assert rest[j] in rest;
        }
        DistinctCons(items[0], rest);
        assert Without(items, id) == [items[0]] + rest;
      } else {
        assert Without(items, id) == [] + rest;
      }
    }
  }

  lemma DistinctTail(items: seq<ItemVenta>)
    requires items != []
    requires forall a, b :: 0 <= a < b < |items| ==> items[a].productoId != items[b].productoId
    ensures forall a, b :: 0 <= a < b < |items[1..]| ==> items[1..][a].productoId != items[1..][b].productoId
    ensures forall x :: x in items[1..] ==> x.productoId != items[0].productoId
  {
    forall a, b | 0 <= a < b < |items[1..]|
      ensures items[1..][a].productoId != items[1..][b].productoId
    {
      assert items[1..][a] == items[a + 1] && items[1..][b] == items[b + 1];
    }
  }

  lemma DistinctCons(x: ItemVenta, rest: seq<ItemVenta>)
    requires forall a, b :: 0 <= a < b < |rest| ==> rest[a].productoId != rest[b].productoId
    requires forall j :: 0 <= j < |rest| ==> rest[j].productoId != x.productoId
    ensures var r := [x] + rest;
            forall a, b :: 0 <= a < b < |r| ==> r[a].productoId != r[b].productoId
  {
    var r := [x] + rest;
    assert forall a :: 0 < a < |r| ==> r[a] == rest[a - 1];
  }

  // ------------------------------------------------------------ totals

  /** The cart total is the total the server computes for the submitted lines. */
  lemma {:induction false} CartTotalIsRequestTotal(items: seq<ItemVenta>)
    ensures CartTotal(items) == Ventas.Total(RequestItems(items))
  {
    if items != [] {
      var n := |items| - 1;
      CartTotalIsRequestTotal(items[..n]);
      Ventas.TotalSnoc(RequestItems(items[..n]), Ventas.ItemRequest(items[n].productoId, items[n].cantidad, items[n].precioUnitario));
      assert RequestItems(items) == RequestItems(items[..n]) + [Ventas.ItemRequest(items[n].productoId, items[n].cantidad, items[n].precioUnitario)];
    }
  }

  /** Adding a new product raises the total by its price. */
  lemma AppendTotal(items: seq<ItemVenta>, p: Producto)
    ensures CartTotal(items + [NewItem(p)]) == CartTotal(items) + p.precio
  {
    assert (items + [NewItem(p)])[..|items|] == items;
  }

  /** Setting the quantity of the one item of a product moves the total by
      the change in quantity times its unit price. */
  lemma {:induction false} WithQuantityTotal(items: seq<ItemVenta>, id: int, n: int, k: int)
    requires forall a, b :: 0 <= a < b < |items| ==> items[a].productoId != items[b].productoId
    requires 0 <= k < |items| && items[k].productoId == id
    ensures CartTotal(WithQuantity(items, id, n)) ==
            CartTotal(items) + (n - items[k].cantidad) * items[k].precioUnitario
    decreases |items|
  {
    var last := |items| - 1;
    var r := WithQuantity(items, id, n);
    assert r[..last] == WithQuantity(items[..last], id, n);
    if k == last {
      NoItemTotal(items[..last], id, n);
      assert r[last] == items[last].(cantidad := n);
    } else {
      WithQuantityTotal(items[..last], id, n, k);
      assert r[last] == items[last];
    }
  }

  lemma {:induction false} NoItemTotal(items: seq<ItemVenta>, id: int, n: int)
    requires forall i :: 0 <= i < |items| ==> items[i].productoId != id
    ensures CartTotal(WithQuantity(items, id, n)) == CartTotal(items)
  {
    if items != [] {
      var last := |items| - 1;
      assert WithQuantity(items, id, n)[..last] == WithQuantity(items[..last], id, n);
      NoItemTotal(items[..last], id, n);
    }
  }

  /** Removing a product drops its line total and nothing else. */
  lemma {:induction false} WithoutTotal(items: seq<ItemVenta>, id: int, k: int)
    requires forall a, b :: 0 <= a < b < |items| ==> items[a].productoId != items[b].productoId
    requires 0 <= k < |items| && items[k].productoId == id
    ensures CartTotal(Without(items, id)) == CartTotal(items) - LineTotal(items[k])
  {
    CartTotalFront(items);
    if k == 0 {
      WithoutAbsent(items[1..], id);
      assert Without(items, id) == Without(items[1..], id);
    } else {
      WithoutTotal(items[1..], id, k - 1);
      assert Without(items, id) == [items[0]] + Without(items[1..], id);
      CartTotalFront([items[0]] + Without(items[1..], id));
      assert ([items[0]] + Without(items[1..], id))[1..] == Without(items[1..], id);
    }
  }

  lemma {:induction false} WithoutAbsent(items: seq<ItemVenta>, id: int)
    requires forall i :: 0 <= i < |items| ==> items[i].productoId != id
    ensures Without(items, id) == items
  {
    if items != [] {
      WithoutAbsent(items[1..], id);
      assert [items[0]] + items[1..] == items;
    }
  }

  /** The total also folds from the front. */
  lemma {:induction false} CartTotalFront(items: seq<ItemVenta>)
    requires items != []
    ensures CartTotal(items) == LineTotal(items[0]) + CartTotal(items[1..])
    decreases |items|
  {
    if |items| > 1 {
      var last := |items| - 1;
      CartTotalFront(items[..last]);
      assert items[..last][1..] == items[1..][..last - 1];
      assert items[..last][0] == items[0];
      assert items[1..][last - 1] == items[last];
    } else {
      assert items[..0] == [] && items[1..] == [];
    }
  }

  // ------------------------------------------------------------ submit

  /** A non-empty cart of a valid form, submitted with one of the three
      payment methods the form offers, is a body the server's validation
      accepts, with one line per product and the cart's total. */
  lemma SubmitIsValidRequest(c: Carrito, clienteId: Option<int>, m: MetodoPago)
    requires c.Valid() && c.items != []
    ensures var r := c.Submit(clienteId, MetodoPagoName(m));
            && r.Success?
            && Ventas.RequestValid(r.value)
            && Ventas.DistinctProducts(r.value.items)
            && Ventas.Total(r.value.items) == CartTotal(c.items)
  {
    ParseMetodoPagoName(m);
    CartTotalIsRequestTotal(c.items);
  }

  /** If the stock has not moved since the products were listed, a submitted
      cart within stock passes the server's stock check, and the sale leaves
      every stock non-negative. */
  lemma FreshCartKeepsStock(c: Carrito, productos: map<int, Producto>, ventaId: int)
    requires c.Valid() && WithinStock(c.items)
    requires forall id :: id in productos ==> productos[id].stock >= 0
    requires forall i :: 0 <= i < |c.items| ==>
               c.items[i].productoId in productos && productos[c.items[i].productoId].stock == c.items[i].producto.stock
    ensures Ventas.StockError(productos, RequestItems(c.items)).None?
    ensures forall id :: id in productos ==>
              Ventas.Decremented(productos, Ventas.LinesFor(ventaId, RequestItems(c.items)))[id].stock >= 0
  {
    var req := RequestItems(c.items);
    Ventas.StockErrorNoneIff(productos, req);
    Ventas.DistinctSaleKeepsStock(productos, ventaId, req);
  }

  /** The buttons of an item keep the cart within stock: minus lowers the
      quantity (removing the item at zero) and plus is enabled only below
      the listed stock. */
  lemma ButtonsKeepWithinStock(items: seq<ItemVenta>, productos: seq<Producto>, k: int)
    requires ItemsValid(items, productos) && WithinStock(items) && 0 <= k < |items|
    ensures WithinStock(Updated(items, items[k].productoId, items[k].cantidad - 1))
    ensures items[k].cantidad < items[k].producto.stock ==>
              WithinStock(Updated(items, items[k].productoId, items[k].cantidad + 1))
  {
    OnlyItemOfItsProduct(items, productos, k);
    UpdatedKeepsItems(items, productos, items[k].productoId, items[k].cantidad - 1);
    if items[k].cantidad < items[k].producto.stock {
      UpdatedKeepsItems(items, productos, items[k].productoId, items[k].cantidad + 1);
    }
  }

  lemma OnlyItemOfItsProduct(items: seq<ItemVenta>, productos: seq<Producto>, k: int)
    requires ItemsValid(items, productos) && 0 <= k < |items|
    ensures forall i :: 0 <= i < |items| && items[i].productoId == items[k].productoId ==> i == k
  {
  }
}
