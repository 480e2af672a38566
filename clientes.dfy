/** The customer routes (`/api/clientes`): list, get, create, update and soft
    delete, with the same shape as the product routes. */
module Clientes {
  import opened Common
  import opened Models
  import opened Store
  import opened Listing

  /** A JSON body for create or update: any subset of the columns. */
  datatype ClienteBody = ClienteBody(
    nombre: Field<string>,
    telefono: Field<Option<string>>,
    direccion: Field<Option<string>>,
    email: Field<Option<string>>,
    rfc: Field<Option<string>>,
    activo: Field<bool>)

  // ------------------------------------------------------------ validation

  predicate NombreOk(f: Field<string>) { f.Given? ==> f.value != "" }

  /** `optional().isEmail()`: only a body without the key skips the check; an
      explicit `null` is checked as the empty string, which is not an address. */
  predicate EmailOk(f: Field<Option<string>>)
    ensures EmailOk(f) <==> f == Absent || (f.Given? && f.value.Some? && IsEmail(f.value.value))
    ensures f == Given(None) ==> !EmailOk(f)
  {
    f.Given? ==> f.value.Some? && IsEmail(f.value.value)
  }

  /** POST: nombre is required and non-empty; email, when sent, is an address. */
  predicate CreateBodyValid(b: ClienteBody)
    ensures CreateBodyValid(b) <==> b.nombre.Given? && b.nombre.value != "" && EmailOk(b.email)
    ensures CreateBodyValid(b) ==> UpdateBodyValid(b)
  {
    b.nombre.Given? && UpdateBodyValid(b)
  }

  /** PUT: the same rules, each `optional()`. */
  predicate UpdateBodyValid(b: ClienteBody)
    ensures UpdateBodyValid(b) <==> (b.nombre.Given? ==> b.nombre.value != "") && EmailOk(b.email)
  {
    NombreOk(b.nombre) && EmailOk(b.email)
  }

  /** A body that names no column. Sequelize then has only `updated_at` to
      write, skips the UPDATE and reports no row changed. It passes every
      optional rule and never passes the create chain. */
  predicate EmptyBody(b: ClienteBody)
    ensures EmptyBody(b) ==> UpdateBodyValid(b) && !CreateBodyValid(b)
  {
    && b.nombre.Absent? && b.telefono.Absent? && b.direccion.Absent?
    && b.email.Absent? && b.rfc.Absent? && b.activo.Absent?
  }

  // ------------------------------------------------------------ row building

  /** The row `Cliente.create` inserts: the body's fields over the column
      defaults (the optional columns null, `activo` true). */
  function NewCliente(id: int, b: ClienteBody): (c: Cliente)
    requires CreateBodyValid(b)
    ensures c == Patch(Cliente(id, "", None, None, None, None, DefaultActivo), b)
  {
    Cliente(id, b.nombre.value, b.telefono.Or(None), b.direccion.Or(None), b.email.Or(None),
            b.rfc.Or(None), b.activo.Or(DefaultActivo))
  }

  /** The row after `Cliente.update(body)`: given fields replace the stored
      ones; the primary key is never written. */
  function Patch(c: Cliente, b: ClienteBody): (q: Cliente)
    ensures q.id == c.id
    ensures b.nombre.Given? ==> q.nombre == b.nombre.value
    ensures b.telefono.Given? ==> q.telefono == b.telefono.value
    ensures b.direccion.Given? ==> q.direccion == b.direccion.value
    ensures b.email.Given? ==> q.email == b.email.value
    ensures b.rfc.Given? ==> q.rfc == b.rfc.value
    ensures b.activo.Given? ==> q.activo == b.activo.value
  {
    Cliente(c.id, b.nombre.Or(c.nombre), b.telefono.Or(c.telefono), b.direccion.Or(c.direccion),
            b.email.Or(c.email), b.rfc.Or(c.rfc), b.activo.Or(c.activo))
  }

  /** The body that carries every column of `c`. */
  function BodyOf(c: Cliente): ClienteBody
  {
    ClienteBody(Given(c.nombre), Given(c.telefono), Given(c.direccion), Given(c.email),
                Given(c.rfc), Given(c.activo))
  }

  // ------------------------------------------------------------ reads

  function ClienteId(c: Cliente): int { c.id }
  function ClienteNombre(c: Cliente): string { c.nombre }
  predicate ClienteActivo(c: Cliente) { c.activo }

  /** GET /: the active rows, ordered by nombre, each exactly once. */
  function ListClientes(clientes: map<int, Cliente>, nextId: int): (r: seq<Cliente>)
    requires ClientesValid(clientes, nextId)
    ensures SortedByName(r, ClienteNombre)
    ensures forall id :: id in clientes && clientes[id].activo ==> clientes[id] in r
    ensures forall c :: c in r ==> c.id in clientes && clientes[c.id] == c && c.activo
    ensures NoDup(r)
  {
    ListBy(clientes, nextId, ClienteActivo, ClienteNombre, ClienteId)
  }

  /** GET /:id: `findByPk`, which does not look at `activo`. */
  function GetCliente(clientes: map<int, Cliente>, id: int): (r: Result<Cliente>)
    ensures r.Success? <==> id in clientes
    ensures r.Success? ==> r.value == clientes[id]
    ensures r.Failure? ==> r.error == NotFound
  {
    if id in clientes then Success(clientes[id]) else Failure(NotFound)
  }

  // ------------------------------------------------------------ writes

  /** POST /: 400 on a rejected body, otherwise the row gets the next id. */
  method CreateCliente(db: Database, b: ClienteBody) returns (r: Result<Cliente>)
    requires db.Valid()
    modifies db`clientes, db`nextClienteId
    ensures db.Valid()
    ensures r.Failure? <==> !CreateBodyValid(b)
    ensures r.Failure? ==> r.error == ValidationError && unchanged(db)
    ensures r.Success? ==>
              && r.value == NewCliente(old(db.nextClienteId), b)
              && db.clientes == old(db.clientes)[r.value.id := r.value]
              && db.nextClienteId == old(db.nextClienteId) + 1
  {
    if !CreateBodyValid(b) {
      return Failure(ValidationError);
    }
    var c := NewCliente(db.nextClienteId, b);
    NewClienteValid(c.id, b);
    db.clientes := db.clientes[c.id := c];
    db.nextClienteId := db.nextClienteId + 1;
    r := Success(c);
  }

  /** PUT /:id: 400 on a rejected body, then 404 when no row changed: the
      row does not exist or the body names no column. */
  method UpdateCliente(db: Database, id: int, b: ClienteBody) returns (r: Result<Cliente>)
    requires db.Valid()
    modifies db`clientes
    ensures db.Valid()
    ensures !UpdateBodyValid(b) ==> r == Failure(ValidationError)
    ensures UpdateBodyValid(b) && (EmptyBody(b) || id !in old(db.clientes)) ==> r == Failure(NotFound)
    ensures r.Failure? ==> unchanged(db)
    ensures r.Success? <==> UpdateBodyValid(b) && !EmptyBody(b) && id in old(db.clientes)
    ensures r.Success? ==>
              && UpdateBodyValid(b) && id in old(db.clientes)
              && r.value == Patch(old(db.clientes)[id], b)
              && db.clientes == old(db.clientes)[id := r.value]
  {
    if !UpdateBodyValid(b) {
      return Failure(ValidationError);
    }
    if EmptyBody(b) || id !in db.clientes {
      return Failure(NotFound);
    }
    var c := Patch(db.clientes[id], b);
    PatchValid(db.clientes[id], b);
    db.clientes := db.clientes[id := c];
    r := Success(c);
  }

  /** DELETE /:id: a soft delete that clears `activo`; 404 when no row matched. */
  method DeleteCliente(db: Database, id: int) returns (r: Outcome)
    requires db.Valid()
    modifies db`clientes
    ensures db.Valid()
    ensures r == Fail(NotFound) <==> id !in old(db.clientes)
    ensures r.Pass? <==> id in old(db.clientes)
    ensures r.Fail? ==> unchanged(db)
    ensures r.Pass? ==> db.clientes == Deactivated(old(db.clientes), id)
  {
    if id !in db.clientes {
      return Fail(NotFound);
    }
    db.clientes := Deactivated(db.clientes, id);
    r := Pass;
  }

  /** The table after the soft delete of row `id`. */
  function Deactivated(clientes: map<int, Cliente>, id: int): map<int, Cliente>
    requires id in clientes
  {
    clientes[id := clientes[id].(activo := false)]
  }

  // ------------------------------------------------------------ properties

  /** A body that passes POST's rules yields a row the schema accepts. */
  lemma NewClienteValid(id: int, b: ClienteBody)
    requires CreateBodyValid(b)
    ensures ValidCliente(NewCliente(id, b)) && NewCliente(id, b).nombre != ""
    ensures NewCliente(id, b).activo == (b.activo != Given(false))
  {
  }

  /** PUT keeps a valid row valid, never changes its id, and leaves every
      field the body omits as it was. */
  lemma PatchValid(c: Cliente, b: ClienteBody)
    requires ValidCliente(c) && UpdateBodyValid(b)
    ensures ValidCliente(Patch(c, b)) && Patch(c, b).id == c.id
    ensures b.nombre.Absent? ==> Patch(c, b).nombre == c.nombre
    ensures b.telefono.Absent? ==> Patch(c, b).telefono == c.telefono
    ensures b.direccion.Absent? ==> Patch(c, b).direccion == c.direccion
    ensures b.email.Absent? ==> Patch(c, b).email == c.email
    ensures b.rfc.Absent? ==> Patch(c, b).rfc == c.rfc
    ensures b.activo.Absent? ==> Patch(c, b).activo == c.activo
  {
  }

  /** The same PUT twice has the effect of one; an empty body changes nothing. */
  lemma PatchIdempotent(c: Cliente, b: ClienteBody)
    ensures Patch(Patch(c, b), b) == Patch(c, b)
    ensures Patch(c, ClienteBody(Absent, Absent, Absent, Absent, Absent, Absent)) == c
  {
  }

  /** Round trip through the edit form: a row's full body reproduces it under
      PUT over any row, and under POST whenever it passes validation, which a
      valid row with a name always does unless its email is null. */
  lemma BodyOfRoundTrip(c: Cliente, q: Cliente, id: int)
    ensures Patch(q, BodyOf(c)) == c.(id := q.id)
    ensures CreateBodyValid(BodyOf(c)) <==> c.nombre != "" && c.email.Some? && IsEmail(c.email.value)
    ensures CreateBodyValid(BodyOf(c)) ==> NewCliente(id, BodyOf(c)) == c.(id := id)
  {
  }

  /** A soft-deleted customer is still found by id, and the list loses exactly
      that customer. */
  lemma DeleteHidesFromList(clientes: map<int, Cliente>, nextId: int, id: int)
    requires ClientesValid(clientes, nextId) && id in clientes
    ensures ClientesValid(Deactivated(clientes, id), nextId)
    ensures GetCliente(Deactivated(clientes, id), id) == Success(clientes[id].(activo := false))
    ensures forall c :: c in ListClientes(Deactivated(clientes, id), nextId) <==>
                        c in ListClientes(clientes, nextId) && c.id != id
  {
    var m := Deactivated(clientes, id);
    var before := ListClientes(clientes, nextId);
    var after := ListClientes(m, nextId);
    forall c ensures c in after <==> c in before && c.id != id {
      if c in after {
        assert c.id in m && m[c.id] == c && c.activo;
        assert clientes[c.id] == c;
      }
      if c in before && c.id != id {
        assert clientes[c.id] == c && c.activo;
        assert m[c.id] == c;
      }
    }
  }

  /** A customer is listed exactly when it is stored and active. */
  lemma ListedIffActive(clientes: map<int, Cliente>, nextId: int, c: Cliente)
    requires ClientesValid(clientes, nextId)
    ensures c in ListClientes(clientes, nextId) <==> c.id in clientes && clientes[c.id] == c && c.activo
  {
  }
}
