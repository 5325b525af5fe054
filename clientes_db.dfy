/**
 * gestor_clientes/clientes_db.py: the writers of the `clientes` table and the
 * anti-join listing of the clients nobody has invoiced. `dni` is a UNIQUE column:
 * a write that would store a DNI another row already holds fails
 * (sqlite3.IntegrityError -> False). The listing `listar_clientes` is
 * `BaseDatos.ListarTabla(db.tablas.clientes)`.
 */
module ClientesDb {
  import opened Opcion
  import opened BaseDatos

  predicate DniUsado(cls: map<int, Cliente>, dni: string)
  {
    exists k :: k in cls && cls[k].dni == dni
  }

  predicate DniUsadoPorOtro(cls: map<int, Cliente>, dni: string, id: int)
  {
    exists k :: k in cls && k != id && cls[k].dni == dni
  }

  /** `insertar_cliente`: one new row under a fresh id, unless the DNI is taken. */
  method InsertarCliente(db: Database, nombre: string, telefono: string, email: string, dni: string)
    returns (ok: bool)
    requires db.Valid()
    modifies db
    ensures db.Valid()
    ensures ok <==> !DniUsado(old(db.tablas.clientes), dni)
    ensures ok ==> var t := old(db.tablas);
                   && t.sigCliente !in t.clientes
                   && db.tablas == t.(clientes := t.clientes[t.sigCliente := Cliente(nombre, telefono, email, dni)],
                                      sigCliente := t.sigCliente + 1)
    ensures !ok ==> db.tablas == old(db.tablas)
  {
    var t := db.tablas;
    if DniUsado(t.clientes, dni) {
      return false;
    }
    db.tablas := t.(clientes := t.clientes[t.sigCliente := Cliente(nombre, telefono, email, dni)],
                    sigCliente := t.sigCliente + 1);
    ok := true;
  }

  /**
   * `modificar_cliente`: the four columns of the row with that id are overwritten;
   * no other row changes. An id with no row updates nothing and still reports success.
   */
  method ModificarCliente(db: Database, id: int, nombre: string, telefono: string, email: string, dni: string)
    returns (ok: bool)
    requires db.Valid()
    modifies db
    ensures db.Valid()
    ensures ok <==> !(id in old(db.tablas.clientes) && DniUsadoPorOtro(old(db.tablas.clientes), dni, id))
    ensures ok && id in old(db.tablas.clientes) ==>
              db.tablas == old(db.tablas).(clientes := old(db.tablas.clientes)[id := Cliente(nombre, telefono, email, dni)])
    ensures !ok || id !in old(db.tablas.clientes) ==> db.tablas == old(db.tablas)
  {
    var t := db.tablas;
    if id in t.clientes {
      if DniUsadoPorOtro(t.clientes, dni, id) {
        return false;
      }
      db.tablas := t.(clientes := t.clientes[id := Cliente(nombre, telefono, email, dni)]);
    }
    ok := true;
  }

  /**
   * `eliminar_cliente`: only the row with that id disappears; the foreign key
   * refuses the DELETE while an invoice names the client.
   */
  method EliminarCliente(db: Database, id: int) returns (ok: bool)
    requires db.Valid()
    modifies db
    ensures db.Valid()
    ensures ok <==> !ClienteReferenciado(old(db.tablas.facturas), id)
    ensures ok ==> db.tablas == old(db.tablas).(clientes := old(db.tablas.clientes) - {id})
    ensures !ok ==> db.tablas == old(db.tablas)
  {
    var t := db.tablas;
    if ClienteReferenciado(t.facturas, id) {
      return false;
    }
    db.tablas := t.(clientes := t.clientes - {id});
    ok := true;
  }

  /** A row of `clientes c LEFT JOIN facturas f ON c.id_cliente = f.cliente_id`: the client and `f.cliente_id`. */
  datatype FilaUnida = FilaUnida(cliente: Fila<Cliente>, facturaClienteId: Option<int>)

  /** Some invoice of the listing belongs to client `id`. */
  predicate ConFactura(id: int, facts: seq<Fila<Factura>>)
  {
    exists i | 0 <= i < |facts| :: facts[i].datos.clienteId == id
  }

  /** The inner part of the join for one client: one row per invoice of that client. */
  function Emparejar(c: Fila<Cliente>, facts: seq<Fila<Factura>>): (r: seq<FilaUnida>)
    ensures forall i | 0 <= i < |r| :: r[i].facturaClienteId.Some?
    ensures r == [] <==> !ConFactura(c.id, facts)
  {
    if facts == [] then []
    else
      var resto := Emparejar(c, facts[1..]);
      assert ConFactura(c.id, facts) <==> facts[0].datos.clienteId == c.id || ConFactura(c.id, facts[1..]) by {
        if ConFactura(c.id, facts[1..]) {
          var i :| 0 <= i < |facts[1..]| && facts[1..][i].datos.clienteId == c.id;
          assert facts[i + 1].datos.clienteId == c.id;
        }
        if ConFactura(c.id, facts) && facts[0].datos.clienteId != c.id {
          var i :| 0 <= i < |facts| && facts[i].datos.clienteId == c.id;
          assert facts[1..][i - 1].datos.clienteId == c.id;
        }
      }
      (if facts[0].datos.clienteId == c.id then [FilaUnida(c, Some(facts[0].datos.clienteId))] else []) + resto
  }

  /** The LEFT JOIN rows of one client: its invoices, or a single row padded with NULL. */
  function UnidasDe(c: Fila<Cliente>, facts: seq<Fila<Factura>>): seq<FilaUnida>
  {
    var ms := Emparejar(c, facts);
    if ms == [] then [FilaUnida(c, None)] else ms
  }

  function UnirIzquierda(cs: seq<Fila<Cliente>>, facts: seq<Fila<Factura>>): seq<FilaUnida>
  {
    if cs == [] then [] else UnidasDe(cs[0], facts) + UnirIzquierda(cs[1..], facts)
  }

  /** `WHERE f.cliente_id IS NULL`, keeping the client columns. */
  function SoloNulos(rs: seq<FilaUnida>): seq<Fila<Cliente>>
  {
    if rs == [] then []
    else (if rs[0].facturaClienteId.None? then [rs[0].cliente] else []) + SoloNulos(rs[1..])
  }

  lemma {:induction false} SoloNulosConcat(a: seq<FilaUnida>, b: seq<FilaUnida>)
    ensures SoloNulos(a + b) == SoloNulos(a) + SoloNulos(b)
  {
    if a == [] {
      assert a + b == b;
    } else {
      var c := a + b;
      assert c[0] == a[0];
      assert c[1..] == a[1..] + b;
      var cabeza := if a[0].facturaClienteId.None? then [a[0].cliente] else [];
      SoloNulosConcat(a[1..], b);
      calc {
        SoloNulos(c);
        cabeza + SoloNulos(c[1..]);
        cabeza + (SoloNulos(a[1..]) + SoloNulos(b));
        (cabeza + SoloNulos(a[1..])) + SoloNulos(b);
      }
    }
  }

  lemma {:induction false} SoloNulosSinNulos(rs: seq<FilaUnida>)
    requires forall i | 0 <= i < |rs| :: rs[i].facturaClienteId.Some?
    ensures SoloNulos(rs) == []
  {
    if rs != [] {
      SoloNulosSinNulos(rs[1..]);
    }
  }

  /** A client's own joined rows survive the IS NULL filter exactly when it has no invoice. */
  lemma SoloNulosDeUnidas(c: Fila<Cliente>, facts: seq<Fila<Factura>>)
    ensures SoloNulos(UnidasDe(c, facts)) == if ConFactura(c.id, facts) then [] else [c]
  {
    if ConFactura(c.id, facts) {
      SoloNulosSinNulos(Emparejar(c, facts));
    }
  }

  /** The clients with no invoice, as a plain filter over the client listing. */
  predicate SinFactura(facts: seq<Fila<Factura>>, c: Fila<Cliente>)
  {
    !ConFactura(c.id, facts)
  }

  /** LEFT JOIN followed by `IS NULL` is the filter that drops every client with an invoice. */
  lemma {:induction false} AntiJoinEsFiltro(cs: seq<Fila<Cliente>>, facts: seq<Fila<Factura>>)
    ensures SoloNulos(UnirIzquierda(cs, facts)) == FiltrarFilas(cs, c => SinFactura(facts, c))
  {
    if cs != [] {
      AntiJoinEsFiltro(cs[1..], facts);
      SoloNulosConcat(UnidasDe(cs[0], facts), UnirIzquierda(cs[1..], facts));
      SoloNulosDeUnidas(cs[0], facts);
    }
  }

  /**
   * `listar_clientes_sin_facturas`: `clientes LEFT JOIN facturas ... WHERE
   * f.cliente_id IS NULL ORDER BY id_cliente`.
   */
  function ListarClientesSinFacturas(cls: map<int, Cliente>, facts: map<int, Factura>): seq<Fila<Cliente>>
  {
    SoloNulos(UnirIzquierda(ListarTabla(cls), ListarTabla(facts)))
  }

  /** An invoice of client `id` is in the invoice listing exactly when the table has one. */
  lemma ConFacturaEnListado(facts: map<int, Factura>, id: int)
    ensures ConFactura(id, ListarTabla(facts)) <==> ClienteReferenciado(facts, id)
  {
    if ClienteReferenciado(facts, id) {
      var k :| k in facts && facts[k].clienteId == id;
      ListadoCompleto(facts, k);
    }
  }

  /**
   * Each client that no invoice names appears exactly once, in id order, with its
   * stored columns, and no client with an invoice appears.
   */
  lemma SinFacturasCorrecto(cls: map<int, Cliente>, facts: map<int, Factura>)
    ensures var r := ListarClientesSinFacturas(cls, facts);
      && IdsCrecientes(r)
      && (forall x | x in r :: x.id in cls && x.datos == cls[x.id] && !ClienteReferenciado(facts, x.id))
      && (forall k | k in cls && !ClienteReferenciado(facts, k) :: Fila(k, cls[k]) in r)
  {
    var cs := ListarTabla(cls);
    var r := ListarClientesSinFacturas(cls, facts);
    AntiJoinEsFiltro(cs, ListarTabla(facts));
    FiltrarFilasCorrecto(cs, c => SinFactura(ListarTabla(facts), c));
    forall x | x in r ensures x.id in cls && x.datos == cls[x.id] && !ClienteReferenciado(facts, x.id) {
      ConFacturaEnListado(facts, x.id);
      var i := IndiceDe(cs, x);
    }
    forall k | k in cls && !ClienteReferenciado(facts, k) ensures Fila(k, cls[k]) in r {
      ListadoCompleto(cls, k);
      ConFacturaEnListado(facts, k);
    }
  }
}
