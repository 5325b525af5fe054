/**
 * gestor_clientes/clientes_validaciones.py: the DNI and name checks, the id
 * lookup, and the list of clients that can be deleted.
 */
module ClientesValidaciones {
  import opened Opcion
  import opened Texto
  import opened BaseDatos
  import opened ClientesDb
  import opened FacturasDb

  /** The DNIs of a listing, in its order. */
  function Dnis(fs: seq<Fila<Cliente>>): (r: seq<string>)
    ensures |r| == |fs|
    ensures forall i | 0 <= i < |fs| :: r[i] == fs[i].datos.dni
  {
    if fs == [] then [] else [fs[0].datos.dni] + Dnis(fs[1..])
  }

  /**
   * `validar_dni`: the empty DNI is the flag's answer; any other must be six to
   * eight decimal digits and, unless it equals `dni_actual`, held by no stored
   * client.
   */
  function ValidarDni(dni: string, dniActual: Option<string>, permitirVacio: bool, cls: map<int, Cliente>): (ok: bool)
    ensures dni == "" ==> (ok <==> permitirVacio)
    ensures dni != "" ==>
              (ok <==> && 6 <= |dni| <= 8 && (forall i | 0 <= i < |dni| :: '0' <= dni[i] <= '9')
                       && (dniActual == Some(dni) || !DniUsado(cls, dni)))
  {
    if dni == "" then permitirVacio
    else if !SoloDigitos(dni) || !(6 <= |dni| <= 8) then false
    else
      var existentes := Dnis(ListarTabla(cls));
      if dniActual.Some? && dni == dniActual.value then true
      else
        assert DniUsado(cls, dni) <==> dni in existentes by {
          if DniUsado(cls, dni) {
            var k :| k in cls && cls[k].dni == dni;
            ListadoCompleto(cls, k);
            var i := IndiceDe(ListarTabla(cls), Fila(k, cls[k]));
            assert existentes[i] == dni;
          }
          if dni in existentes {
            var i := IndiceDe(existentes, dni);
            assert ListarTabla(cls)[i].id in cls;
          }
        }
        dni !in existentes
  }

  /** A DNI the check accepts for a new client is one `insertar_cliente` stores. */
  lemma DniValidoSeInserta(dni: string, cls: map<int, Cliente>)
    requires ValidarDni(dni, None, false, cls)
    ensures !DniUsado(cls, dni)
  {
  }

  /**
   * On an edit (`dni_actual` is the client's own DNI) an accepted non-empty DNI
   * is one `modificar_cliente` stores: no other client can hold the own DNI.
   */
  lemma DniValidoSeModifica(t: Tablas, id: int, dni: string, permitirVacio: bool)
    requires TablasValidas(t) && id in t.clientes && dni != ""
    requires ValidarDni(dni, Some(t.clientes[id].dni), permitirVacio, t.clientes)
    ensures !DniUsadoPorOtro(t.clientes, dni, id)
  {
    if dni != t.clientes[id].dni {
      assert !DniUsado(t.clientes, dni);
    } else {
      forall k | k in t.clientes && k != id ensures t.clientes[k].dni != dni {
        assert Unicidad(t);
      }
    }
  }

  /** One character of the class `[a-zA-ZáéíóúÁÉÍÓÚñÑ\s]`. */
  predicate LetraDeNombre(c: char)
  {
    ('a' <= c <= 'z') || ('A' <= c <= 'Z') || c in "áéíóúÁÉÍÓÚñÑ" || EsEspacio(c)
  }

  /** The regular expression `^[...]+$` run over the text, one character at a time. */
  function CoincideNombre(s: string): (ok: bool)
    ensures ok <==> |s| > 0 && forall i | 0 <= i < |s| :: LetraDeNombre(s[i])
  {
    if |s| == 1 then LetraDeNombre(s[0])
    else if s == [] then false
    else LetraDeNombre(s[0]) && CoincideNombre(s[1..])
  }

  /**
   * `validar_nombre_cliente`: the empty name is the flag's answer; any other is
   * accepted exactly when all its characters are letters of the class or blanks.
   */
  function ValidarNombreCliente(nombre: string, permitirVacio: bool): (ok: bool)
    ensures nombre == "" ==> (ok <==> permitirVacio)
    ensures nombre != "" ==> (ok <==> forall i | 0 <= i < |nombre| :: LetraDeNombre(nombre[i]))
  {
    if nombre == "" then permitirVacio else CoincideNombre(nombre)
  }

  /** A name with a digit, or with an accented letter outside the class, is refused. */
  lemma NombreConOtroCaracter(nombre: string, i: int, permitirVacio: bool)
    requires 0 <= i < |nombre| && (EsDigito(nombre[i]) || nombre[i] in "üÜàè")
    ensures !ValidarNombreCliente(nombre, permitirVacio)
  {
  }

  /** `obtener_cliente_por_id_validado`: all-digit text naming a stored client finds it; anything else finds nothing. */
  function ObtenerClientePorIdValidado(cls: map<int, Cliente>, idStr: string): (r: Option<Fila<Cliente>>)
    ensures r.Some? <==> EsNumero(idStr) && ValorDecimal(idStr) in cls
    ensures r.Some? ==> r.value.id == ValorDecimal(idStr) && r.value.datos == cls[r.value.id]
  {
    ObtenerPorIdValidado(cls, idStr)
  }

  /**
   * What the first loop of `listar_clientes_eliminables` collects: column 2 of
   * each `listar_facturas()` row, which is the frozen client NAME.
   */
  function NombresFacturados(fs: seq<FacturaListada>): set<Valor>
  {
    if fs == [] then {} else NombresFacturados(fs[..|fs| - 1]) + {Cadena(fs[|fs| - 1].nombreCliente)}
  }

  lemma {:induction false} SoloCadenas(fs: seq<FacturaListada>)
    ensures forall v | v in NombresFacturados(fs) :: v.Cadena?
  {
    if fs != [] {
      SoloCadenas(fs[..|fs| - 1]);
    }
  }

  /** The `if id_cliente not in clientes_con_factura` test: an `int` looked up among Python values. */
  function FueraDeValores(usados: set<Valor>): Fila<Cliente> -> bool
  {
    (c: Fila<Cliente>) => Entero(c.id) !in usados
  }

  /**
   * The second filter as written removes nothing from ANY client listing,
   * clients with invoices included: no client id equals a client name.
   */
  lemma {:induction false} FiltroPorNombreNoQuita(cs: seq<Fila<Cliente>>, fs: seq<FacturaListada>)
    ensures FiltrarFilas(cs, FueraDeValores(NombresFacturados(fs))) == cs
  {
    SoloCadenas(fs);
    if cs != [] {
      assert FueraDeValores(NombresFacturados(fs))(cs[0]);
      FiltroPorNombreNoQuita(cs[1..], fs);
      assert cs == [cs[0]] + cs[1..];
    }
  }

  /** The first loop of `listar_clientes_eliminables`: `cliente_id = factura[2]` for each invoice row. */
  method RecogerNombres(facturas: seq<FacturaListada>) returns (conFactura: set<Valor>)
    ensures conFactura == NombresFacturados(facturas)
  {
    conFactura := {};
    var i := 0;
    while i < |facturas|
      invariant 0 <= i <= |facturas|
      invariant conFactura == NombresFacturados(facturas[..i])
    {
      assert facturas[..i + 1][..i] == facturas[..i];
      conFactura := conFactura + {Cadena(facturas[i].nombreCliente)};
      i := i + 1;
    }
    assert facturas[..i] == facturas;
  }

  /** The second loop: the clients whose id, as an `int`, is not among the collected values. */
  method QuitarPorValor(todos: seq<Fila<Cliente>>, conFactura: set<Valor>) returns (r: seq<Fila<Cliente>>)
    ensures r == FiltrarFilas(todos, FueraDeValores(conFactura))
  {
    r := [];
    var j := 0;
    while j < |todos|
      invariant 0 <= j <= |todos|
      invariant r == FiltrarFilas(todos[..j], FueraDeValores(conFactura))
    {
      FiltrarFilasAlFinal(todos[..j], todos[j], FueraDeValores(conFactura));
      assert todos[..j + 1] == todos[..j] + [todos[j]];
      if Entero(todos[j].id) !in conFactura {
        r := r + [todos[j]];
      }
      j := j + 1;
    }
    assert todos[..j] == todos;
  }

  /**
   * `listar_clientes_eliminables` as written: start from
   * `listar_clientes_sin_facturas()`, collect column 2 of `listar_facturas()`,
   * keep the clients whose id is not among those values. The second step
   * removes nothing, so the result is the anti-join listing itself.
   */
  method ListarClientesEliminables(db: Database) returns (r: seq<Fila<Cliente>>)
    ensures r == ListarClientesSinFacturas(db.tablas.clientes, db.tablas.facturas)
  {
    var todos := ListarClientesSinFacturas(db.tablas.clientes, db.tablas.facturas);
    var facturas := ListarFacturas(db.tablas.facturas);
    var conFactura := RecogerNombres(facturas);
    r := QuitarPorValor(todos, conFactura);
    FiltroPorNombreNoQuita(todos, facturas);
  }

  function ClienteDe(f: Factura): Option<int> { Some(f.clienteId) }

  /** The client ids the invoices name. */
  function ClientesUsados(facts: map<int, Factura>): set<int>
  {
    RefsDe(ListarTabla(facts), ClienteDe)
  }

  lemma ClientesUsadosSonReferenciados(facts: map<int, Factura>, c: int)
    ensures c in ClientesUsados(facts) <==> ClienteReferenciado(facts, c)
  {
    RefsDeTabla(facts, ClienteDe, c);
  }

  /**
   * The intended second filter, by the invoices' `cliente_id`, is on its own the
   * anti-join: applied to the whole client listing it leaves exactly
   * `listar_clientes_sin_facturas()`.
   */
  lemma ClientesEliminablesCorrecto(cls: map<int, Cliente>, facts: map<int, Factura>)
    ensures FiltrarFilas(ListarTabla(cls), FueraDe(ClientesUsados(facts))) == ListarClientesSinFacturas(cls, facts)
  {
    var usados := ClientesUsados(facts);
    var a := FiltrarFilas(ListarTabla(cls), FueraDe(usados));
    var b := ListarClientesSinFacturas(cls, facts);
    EliminablesCorrecto(cls, usados);
    SinFacturasCorrecto(cls, facts);
    forall x ensures x in a <==> x in b {
      ClientesUsadosSonReferenciados(facts, x.id);
    }
    CrecientesIguales(a, b);
  }

  /**
   * `listar_clientes_eliminables` with the second filter reading the invoices'
   * `cliente_id`: the same clients, now because the filter is right and not
   * because it does nothing.
   */
  method ListarClientesEliminablesCorregido(db: Database) returns (r: seq<Fila<Cliente>>)
    ensures r == ListarClientesSinFacturas(db.tablas.clientes, db.tablas.facturas)
  {
    ghost var cls := db.tablas.clientes;
    ghost var facts := db.tablas.facturas;
    var todos := ListarClientesSinFacturas(db.tablas.clientes, db.tablas.facturas);
    var facturas := ListarTabla(db.tablas.facturas);
    var conFactura := RecogerRefs(facturas, ClienteDe);
    r := QuitarUsados(todos, conFactura);
    SinFacturasCorrecto(cls, facts);
    forall x | x in todos ensures FueraDe(conFactura)(x) {
      ClientesUsadosSonReferenciados(facts, x.id);
    }
    FiltrarFilasTodas(todos, FueraDe(conFactura));
  }
}
