/**
 * The delete flows of the four managers: `borrar_categoria`,
 * `borrar_proveedor`, `borrar_cliente` (the `*_gestor.py` files) and
 * `borrar_producto`. Each checks the listings before the first question, asks
 * for an id until the answer is C or names an acceptable row, and then calls
 * `eliminar_*`. The user's answers are the sequence `entradas`, each as
 * `input()` returned it; `pedir_input_con_cancelacion` strips the blanks.
 */
module BorradoProtegido {
  import opened Opcion
  import opened Texto
  import opened BaseDatos
  import opened CategoriasDb
  import opened ProveedoresDb
  import opened ClientesDb
  import opened ProductosDb
  import opened CategoriasValidaciones
  import opened ProveedoresValidaciones
  import opened ClientesValidaciones
  import opened ProductosValidaciones

  /** How a delete flow ends. */
  datatype Borrado =
    | SinFilas            // the table's listing is empty: "No hay … registrados"
    | SinEliminables      // every stored row is still referenced
    | Cancelado           // the user answered C
    | SinEntrada          // the answers ran out while the loop was still asking
    | Eliminado(id: int)  // `eliminar_*` returned True
    | NoEliminado(id: int) // `eliminar_*` returned False

  /** How the `while True` loop that asks for the id ends. */
  datatype Eleccion = Cancela | Agota | Elige(id: int)

  /** The membership test `fila not in eliminables`, negated. */
  function EntreFilas<T(==)>(rs: seq<Fila<T>>): Fila<T> -> bool
  {
    (f: Fila<T>) => f in rs
  }

  /** The product flow accepts any row the lookup finds. */
  function Cualquiera<T>(): Fila<T> -> bool
  {
    (f: Fila<T>) => true
  }

  /**
   * The id loop: C cancels; an answer the validated lookup in `m` does not find,
   * or whose row `admitida` refuses, is asked again; otherwise the loop breaks
   * with that id. A chosen id is always a stored, admitted row.
   */
  function Elegir<T>(m: map<int, T>, admitida: Fila<T> -> bool, entradas: seq<string>): (r: Eleccion)
    ensures r.Elige? ==> r.id in m && admitida(Fila(r.id, m[r.id]))
    decreases |entradas|
  {
    if entradas == [] then Agota
    else
      var e := Recortar(entradas[0]);
      if EsCancelar(e) then Cancela
      else
        match ObtenerPorIdValidado(m, e)
        case None => Elegir(m, admitida, entradas[1..])
        case Some(f) => if admitida(f) then Elige(f.id) else Elegir(m, admitida, entradas[1..])
  }

  /** An answer the loop asks again after: not C, and no admitted stored row. */
  predicate Rechazada<T>(m: map<int, T>, admitida: Fila<T> -> bool, e: string)
  {
    var fila := ObtenerPorIdValidado(m, Recortar(e));
    !EsCancelar(Recortar(e)) && (fila.None? || !admitida(fila.value))
  }

  /**
   * The first answer that is not refused decides: when every earlier answer is
   * refused and answer `i` names an admitted stored row, that row's id is chosen.
   */
  lemma {:induction false} ElegirPrimera<T>(m: map<int, T>, admitida: Fila<T> -> bool, entradas: seq<string>, i: nat)
    requires i < |entradas|
    requires forall j | 0 <= j < i :: Rechazada(m, admitida, entradas[j])
    requires !EsCancelar(Recortar(entradas[i]))
    requires ObtenerPorIdValidado(m, Recortar(entradas[i])).Some?
    requires admitida(ObtenerPorIdValidado(m, Recortar(entradas[i])).value)
    ensures Elegir(m, admitida, entradas) == Elige(ValorDecimal(Recortar(entradas[i])))
    decreases i
  {
    if i > 0 {
      var resto := entradas[1..];
      assert Rechazada(m, admitida, entradas[0]);
      assert Elegir(m, admitida, entradas) == Elegir(m, admitida, resto);
      forall j | 0 <= j < i - 1 ensures Rechazada(m, admitida, resto[j]) {
        assert resto[j] == entradas[j + 1];
      }
      assert resto[i - 1] == entradas[i];
      ElegirPrimera(m, admitida, resto, i - 1);
    }
  }

  /** The loop of `borrar_*`, answer by answer. */
  method PedirId<T>(m: map<int, T>, admitida: Fila<T> -> bool, entradas: seq<string>) returns (r: Eleccion)
    ensures r == Elegir(m, admitida, entradas)
  {
    var i := 0;
    while i < |entradas|
      invariant 0 <= i <= |entradas|
      invariant Elegir(m, admitida, entradas[i..]) == Elegir(m, admitida, entradas)
    {
      assert entradas[i..][1..] == entradas[i + 1..];
      var e := Recortar(entradas[i]);
      if EsCancelar(e) {
        return Cancela;
      }
      var fila := ObtenerPorIdValidado(m, e);
      if fila.Some? && admitida(fila.value) {
        return Elige(fila.value.id);
      }
      i := i + 1;
    }
    r := Agota;
  }

  /** The id of a stored row, printed by `str`, is no cancel answer and is found again. */
  lemma IdImpreso<T>(m: map<int, T>, id: int)
    requires id in m && id >= 0
    ensures !EsCancelar(Recortar(StrEntero(id)))
    ensures ObtenerPorIdValidado(m, Recortar(StrEntero(id))) == Some(Fila(id, m[id]))
  {
    RecortarStrEntero(id);
    ObtenerPorIdDeStr(m, id);
    StrEnteroEsNumero(id);
    assert EsDigito(StrEntero(id)[0]);
  }

  /** The printed id of an admitted stored row, as the first answer, is chosen at once. */
  lemma PrimeraRespuesta<T>(m: map<int, T>, admitida: Fila<T> -> bool, id: int, entradas: seq<string>)
    requires id in m && id >= 0 && admitida(Fila(id, m[id]))
    requires entradas != [] && entradas[0] == StrEntero(id)
    ensures Elegir(m, admitida, entradas) == Elige(id)
  {
    IdImpreso(m, id);
    ElegirPrimera(m, admitida, entradas, 0);
  }

  // ---------------------------------------------------------------- categorías

  /** `listar_categorias_eliminables()`. */
  function CategoriasEliminables(t: Tablas): seq<Fila<Categoria>>
  {
    FiltrarFilas(ListarTabla(t.categorias), FueraDe(CategoriasUsadas(t.productos)))
  }

  /**
   * `borrar_categoria`: nothing to do without categorias or without eliminable
   * ones; otherwise the id loop over the offered rows `eliminables` and
   * `eliminar_categoria`, which the foreign key refuses while a product names the category.
   */
  function BorradoCategoria(t: Tablas, eliminables: seq<Fila<Categoria>>, entradas: seq<string>): (Borrado, Tablas)
  {
    if t.categorias == map[] then (SinFilas, t)
    else if eliminables == [] then (SinEliminables, t)
    else
      match Elegir(t.categorias, EntreFilas(eliminables), entradas)
      case Cancela => (Cancelado, t)
      case Agota => (SinEntrada, t)
      case Elige(id) =>
        if CategoriaReferenciada(t.productos, id) then (NoEliminado(id), t)
        else (Eliminado(id), t.(categorias := t.categorias - {id}))
  }

  method BorrarCategoria(db: Database, entradas: seq<string>) returns (r: Borrado)
    requires db.Valid()
    modifies db
    ensures db.Valid()
    ensures (r, db.tablas) == BorradoCategoria(old(db.tablas), CategoriasEliminables(old(db.tablas)), entradas)
  {
    var categorias := ListarTabla(db.tablas.categorias);
    var eliminables := ListarCategoriasEliminables(db);
    if categorias == [] {
      assert |db.tablas.categorias| == 0;
      return SinFilas;
    }
    if eliminables == [] {
      return SinEliminables;
    }
    var eleccion := PedirId(db.tablas.categorias, EntreFilas(eliminables), entradas);
    match eleccion
    case Cancela => r := Cancelado;
    case Agota => r := SinEntrada;
    case Elige(id) =>
      var ok := EliminarCategoria(db, id);
      r := if ok then Eliminado(id) else NoEliminado(id);
  }

  /**
   * When only rows no product names are offered, the foreign-key refusal is
   * unreachable: the flow never ends in NoEliminado, a deletion removes a
   * stored, unreferenced categoria and nothing else, and every other ending leaves
   * the tables as they were.
   */
  lemma BorradoCategoriaSeguro(t: Tablas, eliminables: seq<Fila<Categoria>>, entradas: seq<string>)
    requires forall x | x in eliminables :: !CategoriaReferenciada(t.productos, x.id)
    ensures var res := BorradoCategoria(t, eliminables, entradas); var r := res.0; var t2 := res.1;
      && !r.NoEliminado?
      && (r.Eliminado? ==> r.id in t.categorias && !CategoriaReferenciada(t.productos, r.id)
                           && t2 == t.(categorias := t.categorias - {r.id}))
      && (!r.Eliminado? ==> t2 == t)
  {
    var e := Elegir(t.categorias, EntreFilas(eliminables), entradas);
    if t.categorias != map[] && eliminables != [] && e.Elige? {
      assert Fila(e.id, t.categorias[e.id]) in eliminables;
    }
  }

  /** With the rows ``listar_categorias_eliminables()`` offers, the delete never fails. */
  lemma BorrarCategoriaNuncaFalla(t: Tablas, entradas: seq<string>)
    ensures !BorradoCategoria(t, CategoriasEliminables(t), entradas).0.NoEliminado?
  {
    CategoriasEliminablesCorrecto(t);
    BorradoCategoriaSeguro(t, CategoriasEliminables(t), entradas);
  }

  /** An offered row is deleted when its id is the first answer. */
  lemma CategoriaOfrecidaSeBorra(t: Tablas, eliminables: seq<Fila<Categoria>>, id: int, entradas: seq<string>)
    requires id in t.categorias && id >= 0 && Fila(id, t.categorias[id]) in eliminables
    requires !CategoriaReferenciada(t.productos, id)
    requires entradas != [] && entradas[0] == StrEntero(id)
    ensures BorradoCategoria(t, eliminables, entradas) == (Eliminado(id), t.(categorias := t.categorias - {id}))
  {
    PrimeraRespuesta(t.categorias, EntreFilas(eliminables), id, entradas);
    CategoriaElegida(t, eliminables, id, entradas);
  }

  lemma CategoriaElegida(t: Tablas, eliminables: seq<Fila<Categoria>>, id: int, entradas: seq<string>)
    requires id in t.categorias && Fila(id, t.categorias[id]) in eliminables && !CategoriaReferenciada(t.productos, id)
    requires Elegir(t.categorias, EntreFilas(eliminables), entradas) == Elige(id)
    ensures BorradoCategoria(t, eliminables, entradas) == (Eliminado(id), t.(categorias := t.categorias - {id}))
  {
    assert t.categorias != map[] && eliminables != [];
  }

  /** A stored categoria no product names is offered, so answering with its id deletes it. */
  lemma CategoriaLibreSeBorra(t: Tablas, id: int, entradas: seq<string>)
    requires id in t.categorias && id >= 0 && !CategoriaReferenciada(t.productos, id)
    requires entradas != [] && entradas[0] == StrEntero(id)
    ensures BorradoCategoria(t, CategoriasEliminables(t), entradas) == (Eliminado(id), t.(categorias := t.categorias - {id}))
  {
    CategoriasEliminablesCorrecto(t);
    CategoriaOfrecidaSeBorra(t, CategoriasEliminables(t), id, entradas);
  }

  // ---------------------------------------------------------------- proveedores

  /** `listar_proveedores_eliminables()`. */
  function ProveedoresEliminables(t: Tablas): seq<Fila<Proveedor>>
  {
    FiltrarFilas(ListarTabla(t.proveedores), FueraDe(ProveedoresUsados(t.productos)))
  }

  /**
   * `borrar_proveedor`: nothing to do without proveedores or without eliminable
   * ones; otherwise the id loop over the offered rows `eliminables` and
   * `eliminar_proveedor`, which the foreign key refuses while a product names the supplier.
   */
  function BorradoProveedor(t: Tablas, eliminables: seq<Fila<Proveedor>>, entradas: seq<string>): (Borrado, Tablas)
  {
    if t.proveedores == map[] then (SinFilas, t)
    else if eliminables == [] then (SinEliminables, t)
    else
      match Elegir(t.proveedores, EntreFilas(eliminables), entradas)
      case Cancela => (Cancelado, t)
      case Agota => (SinEntrada, t)
      case Elige(id) =>
        if ProveedorReferenciado(t.productos, id) then (NoEliminado(id), t)
        else (Eliminado(id), t.(proveedores := t.proveedores - {id}))
  }

  method BorrarProveedor(db: Database, entradas: seq<string>) returns (r: Borrado)
    requires db.Valid()
    modifies db
    ensures db.Valid()
    ensures (r, db.tablas) == BorradoProveedor(old(db.tablas), ProveedoresEliminables(old(db.tablas)), entradas)
  {
    var proveedores := ListarTabla(db.tablas.proveedores);
    var eliminables := ListarProveedoresEliminables(db);
    if proveedores == [] {
      assert |db.tablas.proveedores| == 0;
      return SinFilas;
    }
    if eliminables == [] {
      return SinEliminables;
    }
    var eleccion := PedirId(db.tablas.proveedores, EntreFilas(eliminables), entradas);
    match eleccion
    case Cancela => r := Cancelado;
    case Agota => r := SinEntrada;
    case Elige(id) =>
      var ok := EliminarProveedor(db, id);
      r := if ok then Eliminado(id) else NoEliminado(id);
  }

  /**
   * When only rows no product names are offered, the foreign-key refusal is
   * unreachable: the flow never ends in NoEliminado, a deletion removes a
   * stored, unreferenced proveedor and nothing else, and every other ending leaves
   * the tables as they were.
   */
  lemma BorradoProveedorSeguro(t: Tablas, eliminables: seq<Fila<Proveedor>>, entradas: seq<string>)
    requires forall x | x in eliminables :: !ProveedorReferenciado(t.productos, x.id)
    ensures var res := BorradoProveedor(t, eliminables, entradas); var r := res.0; var t2 := res.1;
      && !r.NoEliminado?
      && (r.Eliminado? ==> r.id in t.proveedores && !ProveedorReferenciado(t.productos, r.id)
                           && t2 == t.(proveedores := t.proveedores - {r.id}))
      && (!r.Eliminado? ==> t2 == t)
  {
    var e := Elegir(t.proveedores, EntreFilas(eliminables), entradas);
    if t.proveedores != map[] && eliminables != [] && e.Elige? {
      assert Fila(e.id, t.proveedores[e.id]) in eliminables;
    }
  }

  /** With the rows ``listar_proveedores_eliminables()`` offers, the delete never fails. */
  lemma BorrarProveedorNuncaFalla(t: Tablas, entradas: seq<string>)
    ensures !BorradoProveedor(t, ProveedoresEliminables(t), entradas).0.NoEliminado?
  {
    ProveedoresEliminablesCorrecto(t);
    BorradoProveedorSeguro(t, ProveedoresEliminables(t), entradas);
  }

  /** An offered row is deleted when its id is the first answer. */
  lemma ProveedorOfrecidaSeBorra(t: Tablas, eliminables: seq<Fila<Proveedor>>, id: int, entradas: seq<string>)
    requires id in t.proveedores && id >= 0 && Fila(id, t.proveedores[id]) in eliminables
    requires !ProveedorReferenciado(t.productos, id)
    requires entradas != [] && entradas[0] == StrEntero(id)
    ensures BorradoProveedor(t, eliminables, entradas) == (Eliminado(id), t.(proveedores := t.proveedores - {id}))
  {
    PrimeraRespuesta(t.proveedores, EntreFilas(eliminables), id, entradas);
    ProveedorElegida(t, eliminables, id, entradas);
  }

  lemma ProveedorElegida(t: Tablas, eliminables: seq<Fila<Proveedor>>, id: int, entradas: seq<string>)
    requires id in t.proveedores && Fila(id, t.proveedores[id]) in eliminables && !ProveedorReferenciado(t.productos, id)
    requires Elegir(t.proveedores, EntreFilas(eliminables), entradas) == Elige(id)
    ensures BorradoProveedor(t, eliminables, entradas) == (Eliminado(id), t.(proveedores := t.proveedores - {id}))
  {
    assert t.proveedores != map[] && eliminables != [];
  }

  /** A stored proveedor no product names is offered, so answering with its id deletes it. */
  lemma ProveedorLibreSeBorra(t: Tablas, id: int, entradas: seq<string>)
    requires id in t.proveedores && id >= 0 && !ProveedorReferenciado(t.productos, id)
    requires entradas != [] && entradas[0] == StrEntero(id)
    ensures BorradoProveedor(t, ProveedoresEliminables(t), entradas) == (Eliminado(id), t.(proveedores := t.proveedores - {id}))
  {
    ProveedoresEliminablesCorrecto(t);
    ProveedorOfrecidaSeBorra(t, ProveedoresEliminables(t), id, entradas);
  }

  // ---------------------------------------------------------------- clientes

  /** `listar_clientes_eliminables()`. */
  function ClientesEliminables(t: Tablas): seq<Fila<Cliente>>
  {
    ListarClientesSinFacturas(t.clientes, t.facturas)
  }

  /**
   * `borrar_cliente`: nothing to do without clientes or without eliminable
   * ones; otherwise the id loop over the offered rows `eliminables` and
   * `eliminar_cliente`, which the foreign key refuses while an invoice names the client.
   */
  function BorradoCliente(t: Tablas, eliminables: seq<Fila<Cliente>>, entradas: seq<string>): (Borrado, Tablas)
  {
    if t.clientes == map[] then (SinFilas, t)
    else if eliminables == [] then (SinEliminables, t)
    else
      match Elegir(t.clientes, EntreFilas(eliminables), entradas)
      case Cancela => (Cancelado, t)
      case Agota => (SinEntrada, t)
      case Elige(id) =>
        if ClienteReferenciado(t.facturas, id) then (NoEliminado(id), t)
        else (Eliminado(id), t.(clientes := t.clientes - {id}))
  }

  method BorrarCliente(db: Database, entradas: seq<string>) returns (r: Borrado)
    requires db.Valid()
    modifies db
    ensures db.Valid()
    ensures (r, db.tablas) == BorradoCliente(old(db.tablas), ClientesEliminables(old(db.tablas)), entradas)
  {
    var clientes := ListarTabla(db.tablas.clientes);
    var eliminables := ListarClientesEliminables(db);
    if clientes == [] {
      assert |db.tablas.clientes| == 0;
      return SinFilas;
    }
    if eliminables == [] {
      return SinEliminables;
    }
    var eleccion := PedirId(db.tablas.clientes, EntreFilas(eliminables), entradas);
    match eleccion
    case Cancela => r := Cancelado;
    case Agota => r := SinEntrada;
    case Elige(id) =>
      var ok := EliminarCliente(db, id);
      r := if ok then Eliminado(id) else NoEliminado(id);
  }

  /**
   * When only rows no invoice names are offered, the foreign-key refusal is
   * unreachable: the flow never ends in NoEliminado, a deletion removes a
   * stored, unreferenced cliente and nothing else, and every other ending leaves
   * the tables as they were.
   */
  lemma BorradoClienteSeguro(t: Tablas, eliminables: seq<Fila<Cliente>>, entradas: seq<string>)
    requires forall x | x in eliminables :: !ClienteReferenciado(t.facturas, x.id)
    ensures var res := BorradoCliente(t, eliminables, entradas); var r := res.0; var t2 := res.1;
      && !r.NoEliminado?
      && (r.Eliminado? ==> r.id in t.clientes && !ClienteReferenciado(t.facturas, r.id)
                           && t2 == t.(clientes := t.clientes - {r.id}))
      && (!r.Eliminado? ==> t2 == t)
  {
    var e := Elegir(t.clientes, EntreFilas(eliminables), entradas);
    if t.clientes != map[] && eliminables != [] && e.Elige? {
      assert Fila(e.id, t.clientes[e.id]) in eliminables;
    }
  }

  /** With the rows ``listar_clientes_eliminables()`` offers, the delete never fails. */
  lemma BorrarClienteNuncaFalla(t: Tablas, entradas: seq<string>)
    ensures !BorradoCliente(t, ClientesEliminables(t), entradas).0.NoEliminado?
  {
    SinFacturasCorrecto(t.clientes, t.facturas);
    BorradoClienteSeguro(t, ClientesEliminables(t), entradas);
  }

  /** An offered row is deleted when its id is the first answer. */
  lemma ClienteOfrecidaSeBorra(t: Tablas, eliminables: seq<Fila<Cliente>>, id: int, entradas: seq<string>)
    requires id in t.clientes && id >= 0 && Fila(id, t.clientes[id]) in eliminables
    requires !ClienteReferenciado(t.facturas, id)
    requires entradas != [] && entradas[0] == StrEntero(id)
    ensures BorradoCliente(t, eliminables, entradas) == (Eliminado(id), t.(clientes := t.clientes - {id}))
  {
    PrimeraRespuesta(t.clientes, EntreFilas(eliminables), id, entradas);
    ClienteElegida(t, eliminables, id, entradas);
  }

  lemma ClienteElegida(t: Tablas, eliminables: seq<Fila<Cliente>>, id: int, entradas: seq<string>)
    requires id in t.clientes && Fila(id, t.clientes[id]) in eliminables && !ClienteReferenciado(t.facturas, id)
    requires Elegir(t.clientes, EntreFilas(eliminables), entradas) == Elige(id)
    ensures BorradoCliente(t, eliminables, entradas) == (Eliminado(id), t.(clientes := t.clientes - {id}))
  {
    assert t.clientes != map[] && eliminables != [];
  }

  /** A stored cliente no invoice names is offered, so answering with its id deletes it. */
  lemma ClienteLibreSeBorra(t: Tablas, id: int, entradas: seq<string>)
    requires id in t.clientes && id >= 0 && !ClienteReferenciado(t.facturas, id)
    requires entradas != [] && entradas[0] == StrEntero(id)
    ensures BorradoCliente(t, ClientesEliminables(t), entradas) == (Eliminado(id), t.(clientes := t.clientes - {id}))
  {
    SinFacturasCorrecto(t.clientes, t.facturas);
    ClienteOfrecidaSeBorra(t, ClientesEliminables(t), id, entradas);
  }

  // ---------------------------------------------------------------- productos

  /**
   * `borrar_producto` as written: nothing to do when the joined `listado` of
   * `listar_productos()` is empty; otherwise the id loop looks each answer up
   * with `obtener_proveedor_por_id_validado`, i.e. among the SUPPLIERS, and a
   * found id goes to `eliminar_producto`.
   */
  function BorradoProductoComoEscrito(t: Tablas, listado: seq<ProductoListado>, entradas: seq<string>): (Borrado, Tablas)
  {
    if listado == [] then (SinFilas, t)
    else
      match Elegir(t.proveedores, Cualquiera(), entradas)
      case Cancela => (Cancelado, t)
      case Agota => (SinEntrada, t)
      case Elige(id) =>
        if ProductoReferenciado(t.detalles, id) then (NoEliminado(id), t)
        else (Eliminado(id), t.(productos := t.productos - {id}))
  }

  /** The state of the counterexample: one category, one supplier (id 1), one unsold product (id 2). */
  predicate UnProductoSinVender(t: Tablas)
  {
    && t.categorias == map[1 := Categoria("Almacén")]
    && t.proveedores == map[1 := Proveedor("Distribuidora", "", "", "20123456789")]
    && t.productos == map[2 := Producto("Yerba", Some(1), Some(1), 10, 150000)]
    && t.detalles == map[]
  }

  /** In that state `listar_productos()` shows the product, so the flow asks for an id. */
  lemma UnProductoSeLista(t: Tablas)
    requires UnProductoSinVender(t)
    ensures ListarProductos(t.categorias, t.proveedores, t.productos) != []
  {
    ListarProductosCorrecto(t.categorias, t.proveedores, t.productos);
    assert Resuelve(t.productos[2], t.categorias, t.proveedores);
    assert Unido(Fila(2, t.productos[2]), t.categorias, t.proveedores)
           in ListarProductos(t.categorias, t.proveedores, t.productos);
  }

  /**
   * In that state, as written, the product's id is asked again as if it did not
   * exist, and the supplier's id is reported as a deleted product while no row goes.
   */
  lemma BorrarProductoBuscaProveedor(t: Tablas)
    requires UnProductoSinVender(t)
    ensures var listado := ListarProductos(t.categorias, t.proveedores, t.productos);
      && BorradoProductoComoEscrito(t, listado, [StrEntero(2), "c"]) == (Cancelado, t)
      && BorradoProductoComoEscrito(t, listado, [StrEntero(1)]) == (Eliminado(1), t)
  {
    UnProductoSeLista(t);
    ProductoComoEscritoNoHallado(t, ListarProductos(t.categorias, t.proveedores, t.productos));
    ProveedorBorradoComoProducto(t, ListarProductos(t.categorias, t.proveedores, t.productos));
  }

  lemma ProductoComoEscritoNoHallado(t: Tablas, listado: seq<ProductoListado>)
    requires UnProductoSinVender(t) && listado != []
    ensures BorradoProductoComoEscrito(t, listado, [StrEntero(2), "c"]) == (Cancelado, t)
  {
    RecortarStrEntero(2);
    StrEnteroEsNumero(2);
    assert EsDigito(StrEntero(2)[0]);
    assert ObtenerPorIdValidado(t.proveedores, StrEntero(2)).None?;
    assert [StrEntero(2), "c"][1..] == ["c"];
    assert Elegir(t.proveedores, Cualquiera(), [StrEntero(2), "c"]) == Cancela;
  }

  lemma ProveedorBorradoComoProducto(t: Tablas, listado: seq<ProductoListado>)
    requires UnProductoSinVender(t) && listado != []
    ensures BorradoProductoComoEscrito(t, listado, [StrEntero(1)]) == (Eliminado(1), t)
  {
    IdImpreso(t.proveedores, 1);
    assert Elegir(t.proveedores, Cualquiera(), [StrEntero(1)]) == Elige(1);
    assert t.productos - {1} == t.productos;
  }

  /** `borrar_producto` with the lookup among the products themselves. */
  function BorradoProducto(t: Tablas, listado: seq<ProductoListado>, entradas: seq<string>): (Borrado, Tablas)
  {
    if listado == [] then (SinFilas, t)
    else
      match Elegir(t.productos, Cualquiera(), entradas)
      case Cancela => (Cancelado, t)
      case Agota => (SinEntrada, t)
      case Elige(id) =>
        if ProductoReferenciado(t.detalles, id) then (NoEliminado(id), t)
        else (Eliminado(id), t.(productos := t.productos - {id}))
  }

  method BorrarProducto(db: Database, entradas: seq<string>) returns (r: Borrado)
    requires db.Valid()
    modifies db
    ensures db.Valid()
    ensures (r, db.tablas) == BorradoProducto(old(db.tablas),
                                              ListarProductos(old(db.tablas.categorias), old(db.tablas.proveedores),
                                                              old(db.tablas.productos)),
                                              entradas)
  {
    var productos := ListarProductos(db.tablas.categorias, db.tablas.proveedores, db.tablas.productos);
    if productos == [] {
      return SinFilas;
    }
    var eleccion := PedirId(db.tablas.productos, Cualquiera(), entradas);
    match eleccion
    case Cancela => r := Cancelado;
    case Agota => r := SinEntrada;
    case Elige(id) =>
      var ok := EliminarProducto(db, id);
      r := if ok then Eliminado(id) else NoEliminado(id);
  }

  /**
   * The corrected flow only ever acts on a stored product: it is deleted exactly
   * when no invoice line names it, the deletion removes that row only, and every
   * other ending leaves the tables as they were.
   */
  lemma BorradoProductoCorrecto(t: Tablas, listado: seq<ProductoListado>, entradas: seq<string>)
    ensures var res := BorradoProducto(t, listado, entradas); var r := res.0; var t2 := res.1;
      && (r.Eliminado? ==> r.id in t.productos && !ProductoReferenciado(t.detalles, r.id)
                           && t2 == t.(productos := t.productos - {r.id}) && r.id !in t2.productos)
      && (r.NoEliminado? ==> r.id in t.productos && ProductoReferenciado(t.detalles, r.id))
      && (!r.Eliminado? ==> t2 == t)
  {
    var e := Elegir(t.productos, Cualquiera(), entradas);
    if listado != [] && e.Elige? {
      assert e.id in t.productos;
    }
  }

  /** Answering with a stored product's id reaches `eliminar_producto` for that product. */
  lemma ProductoElegidoSeBorra(t: Tablas, listado: seq<ProductoListado>, id: int, entradas: seq<string>)
    requires listado != []
    requires id in t.productos && id >= 0
    requires entradas != [] && entradas[0] == StrEntero(id)
    ensures BorradoProducto(t, listado, entradas).0
            == if ProductoReferenciado(t.detalles, id) then NoEliminado(id) else Eliminado(id)
  {
    PrimeraRespuesta(t.productos, Cualquiera(), id, entradas);
    ProductoElegido(t, listado, id, entradas);
  }

  lemma ProductoElegido(t: Tablas, listado: seq<ProductoListado>, id: int, entradas: seq<string>)
    requires listado != [] && Elegir(t.productos, Cualquiera(), entradas) == Elige(id)
    ensures BorradoProducto(t, listado, entradas).0
            == if ProductoReferenciado(t.detalles, id) then NoEliminado(id) else Eliminado(id)
  {
  }
}
