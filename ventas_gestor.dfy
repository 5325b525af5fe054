/**
 * gestor_ventas/ventas_gestor.py: `registrar_venta`, which checks the client
 * and every item and then, inside one transaction, writes the invoice header,
 * one line per item and the stock decrements, or rolls everything back.
 */
module VentasGestor {
  import opened Opcion
  import opened Texto
  import opened BaseDatos
  import opened ProductosDb
  import opened FacturasDb
  import opened VentasValidaciones
  import CategoriasValidaciones
  import ProveedoresValidaciones
  import ClientesValidaciones

  /** One entry of the `detalles` list: the numbers `insertar_factura_detalle` will store. */
  datatype DetalleVenta = DetalleVenta(productoId: int, cantidad: int, precioUnitario: int, totalLinea: int)

  /** `str()` of a nullable id column: NULL prints as "None". */
  function StrRef(ref: Option<int>): string
  {
    if ref.None? then "None" else StrEntero(ref.value)
  }

  /** What an id check finds from `str()` of a nullable id: a stored row, so never from NULL or a negative id. */
  predicate RefEncontrada<T>(ref: Option<int>, m: map<int, T>)
  {
    ref.Some? && ref.value >= 0 && ref.value in m
  }

  /**
   * The two link checks of the item loop: `obtener_categoria_por_id_validado`
   * and `obtener_proveedor_por_id_validado` on `str()` of the product's ids.
   */
  method VinculosEncontrados(cats: map<int, Categoria>, provs: map<int, Proveedor>, info: Producto) returns (ok: bool)
    ensures ok <==> RefEncontrada(info.categoriaId, cats) && RefEncontrada(info.proveedorId, provs)
  {
    BuscarPorRef(cats, provs, info.categoriaId);
    BuscarPorRef(cats, provs, info.proveedorId);
    if CategoriasValidaciones.ObtenerCategoriaPorIdValidado(cats, StrRef(info.categoriaId)).None? {
      return false;
    }
    if ProveedoresValidaciones.ObtenerProveedorPorIdValidado(provs, StrRef(info.proveedorId)).None? {
      return false;
    }
    return true;
  }

  /** The client check of `registrar_venta`: `obtener_cliente_por_id_validado(str(cliente_id))`. */
  method ClienteValido(cls: map<int, Cliente>, clienteId: int) returns (ok: bool)
    ensures ok <==> clienteId >= 0 && clienteId in cls
  {
    StrEnteroEsNumero(clienteId);
    var cliente := ClientesValidaciones.ObtenerClientePorIdValidado(cls, StrEntero(clienteId));
    ok := cliente.Some?;
  }

  /** The category and supplier checks by id text, stated on the id itself. */
  lemma BuscarPorRef(cats: map<int, Categoria>, provs: map<int, Proveedor>, ref: Option<int>)
    ensures CategoriasValidaciones.ObtenerCategoriaPorIdValidado(cats, StrRef(ref)).Some? <==> RefEncontrada(ref, cats)
    ensures ProveedoresValidaciones.ObtenerProveedorPorIdValidado(provs, StrRef(ref)).Some? <==> RefEncontrada(ref, provs)
  {
    if ref.None? {
      assert !EsDigito("None"[0]);
    } else {
      StrEnteroEsNumero(ref.value);
    }
  }

  /** The checks the item loop makes: the product is stored and its category and supplier are found by id. */
  predicate Vendible(t: Tablas, it: Item)
  {
    VendibleEn(t.productos, t.categorias, t.proveedores, it)
  }

  predicate VendibleEn(prods: map<int, Producto>, cats: map<int, Categoria>, provs: map<int, Proveedor>, it: Item)
  {
    && it.productoId in prods
    && RefEncontrada(prods[it.productoId].categoriaId, cats)
    && RefEncontrada(prods[it.productoId].proveedorId, provs)
  }

  /** The line for one item: the stored unit price and `cantidad * precio`. */
  function DetalleDeItem(prods: map<int, Producto>, it: Item): DetalleVenta
    requires it.productoId in prods
  {
    var precio := prods[it.productoId].precio;
    DetalleVenta(it.productoId, it.cantidad, precio, it.cantidad * precio)
  }

  /** The lines of a list of stored items, in order. */
  function DetallesDe(prods: map<int, Producto>, items: seq<Item>): (r: seq<DetalleVenta>)
    requires forall i | 0 <= i < |items| :: items[i].productoId in prods
    ensures |r| == |items|
    ensures forall i | 0 <= i < |items| :: r[i] == DetalleDeItem(prods, items[i])
  {
    if items == [] then [] else [DetalleDeItem(prods, items[0])] + DetallesDe(prods, items[1..])
  }

  /** `total_factura`: the sum of the line totals. */
  function TotalDe(ds: seq<DetalleVenta>): int
  {
    if ds == [] then 0 else TotalDe(ds[..|ds| - 1]) + ds[|ds| - 1].totalLinea
  }

  /** Units of product `pid` the lines take out of stock. */
  function SumaDetalles(ds: seq<DetalleVenta>, pid: int): int
  {
    if ds == [] then 0
    else SumaDetalles(ds[..|ds| - 1], pid) + (if ds[|ds| - 1].productoId == pid then ds[|ds| - 1].cantidad else 0)
  }

  /** The detail row of line `d` of invoice `fid`, with the names the join reads in `t`. */
  function Congelado(t: Tablas, fid: int, d: DetalleVenta): Detalle
    requires Congelable(t, d.productoId)
  {
    DetalleDe(t, fid, d.productoId, d.cantidad, d.precioUnitario, d.totalLinea)
  }

  /** The tables after one line: its detail row under the next id, then its product's stock decrement. */
  function Paso(t: Tablas, fid: int, d: DetalleVenta): Tablas
    requires Congelable(t, d.productoId)
  {
    t.(detalles := t.detalles[t.sigDetalle := Congelado(t, fid, d)],
       sigDetalle := t.sigDetalle + 1,
       productos := Descontado(t.productos, d.productoId, d.cantidad))
  }

  /** The tables after the write loop: one `Paso` per line, in order. */
  function Escribir(t: Tablas, fid: int, ds: seq<DetalleVenta>): (r: Tablas)
    requires forall i | 0 <= i < |ds| :: Congelable(t, ds[i].productoId)
    ensures r.categorias == t.categorias && r.proveedores == t.proveedores
    ensures r.clientes == t.clientes && r.facturas == t.facturas
    ensures r.productos.Keys == t.productos.Keys
    ensures r.sigDetalle == t.sigDetalle + |ds|
    ensures && r.sigCategoria == t.sigCategoria && r.sigProveedor == t.sigProveedor && r.sigProducto == t.sigProducto
            && r.sigCliente == t.sigCliente && r.sigFactura == t.sigFactura
    decreases |ds|, 0
  {
    if ds == [] then t
    else
      var previas := Escribir(t, fid, ds[..|ds| - 1]);
      EscribirConservaCongelable(t, fid, ds[..|ds| - 1], ds[|ds| - 1].productoId);
      Paso(previas, fid, ds[|ds| - 1])
  }

  /** A product whose category and supplier resolve still does after any lines: stock is all they change. */
  lemma {:induction false} EscribirConservaCongelable(t: Tablas, fid: int, ds: seq<DetalleVenta>, pid: int)
    requires forall i | 0 <= i < |ds| :: Congelable(t, ds[i].productoId)
    requires Congelable(t, pid)
    ensures Congelable(Escribir(t, fid, ds), pid)
    decreases |ds|, 1
  {
    if ds != [] {
      EscribirConservaCongelable(t, fid, ds[..|ds| - 1], pid);
    }
  }

  /** The write loop changes no product column but the stock. */
  lemma {:induction false} EscribirSoloStock(t: Tablas, fid: int, ds: seq<DetalleVenta>)
    requires forall i | 0 <= i < |ds| :: Congelable(t, ds[i].productoId)
    ensures forall k | k in t.productos ::
              Escribir(t, fid, ds).productos[k] == t.productos[k].(stock := Escribir(t, fid, ds).productos[k].stock)
    decreases |ds|
  {
    if ds != [] {
      EscribirSoloStock(t, fid, ds[..|ds| - 1]);
    }
  }

  /** A line keeps the tables valid: its row gets a fresh id and names a stored invoice and product. */
  lemma PasoValido(t: Tablas, fid: int, d: DetalleVenta)
    requires TablasValidas(t) && fid in t.facturas && Congelable(t, d.productoId)
    ensures TablasValidas(Paso(t, fid, d))
  {
    var r := Paso(t, fid, d);
    assert Unicidad(r) by {
      assert r.categorias == t.categorias && r.proveedores == t.proveedores && r.clientes == t.clientes;
    }
    forall k | k in r.productos
      ensures RefValida(r.productos[k].categoriaId, r.categorias) && RefValida(r.productos[k].proveedorId, r.proveedores)
    {
      assert r.productos[k].categoriaId == t.productos[k].categoriaId;
      assert r.productos[k].proveedorId == t.productos[k].proveedorId;
    }
  }

  /** The whole write loop keeps the tables valid. */
  lemma {:induction false} EscribirValido(t: Tablas, fid: int, ds: seq<DetalleVenta>)
    requires TablasValidas(t) && fid in t.facturas
    requires forall i | 0 <= i < |ds| :: Congelable(t, ds[i].productoId)
    ensures TablasValidas(Escribir(t, fid, ds))
    decreases |ds|
  {
    if ds != [] {
      var previas := Escribir(t, fid, ds[..|ds| - 1]);
      EscribirValido(t, fid, ds[..|ds| - 1]);
      EscribirSoloStock(t, fid, ds[..|ds| - 1]);
      assert Congelable(t, ds[|ds| - 1].productoId);
      PasoValido(previas, fid, ds[|ds| - 1]);
    }
  }

  /** What `registrar_venta` returns and leaves in the tables. */
  function Venta(t: Tablas, fecha: string, clienteId: int, items: seq<Item>): (Option<int>, Tablas)
  {
    if !(clienteId >= 0 && clienteId in t.clientes) then (None, t)
    else if !(forall i | 0 <= i < |items| :: Vendible(t, items[i])) then (None, t)
    else
      TodosCongelables(t, items);
      var ds := DetallesDe(t.productos, items);
      (Some(t.sigFactura), Confirmada(t, fecha, clienteId, ds))
  }

  /** The invoice header under the next id, then the lines. */
  function Confirmada(t: Tablas, fecha: string, clienteId: int, ds: seq<DetalleVenta>): Tablas
    requires clienteId in t.clientes
    requires forall i | 0 <= i < |ds| :: Congelable(t, ds[i].productoId)
  {
    var fid := t.sigFactura;
    var t1 := ConCabecera(t, fecha, clienteId, TotalDe(ds));
    assert forall i | 0 <= i < |ds| :: Congelable(t1, ds[i].productoId) by {
      forall i | 0 <= i < |ds| ensures Congelable(t1, ds[i].productoId) {
        assert Congelable(t, ds[i].productoId);
      }
    }
    Escribir(t1, fid, ds)
  }

  lemma TodosCongelables(t: Tablas, items: seq<Item>)
    requires forall i | 0 <= i < |items| :: Vendible(t, items[i])
    ensures forall i | 0 <= i < |items| :: items[i].productoId in t.productos
    ensures forall i | 0 <= i < |DetallesDe(t.productos, items)| ::
              Congelable(t, DetallesDe(t.productos, items)[i].productoId)
  {
    forall i | 0 <= i < |items| ensures Congelable(t, items[i].productoId) {
      VendibleSiCongelable(t, items[i]);
    }
  }

  /**
   * The item checks by id text are the join condition: an item passes exactly
   * when its product, category and supplier are all stored. NULL prints as
   * "None", which no id check accepts.
   */
  lemma VendibleSiCongelable(t: Tablas, it: Item)
    ensures Vendible(t, it) ==> Congelable(t, it.productoId)
    ensures TablasValidas(t) && Congelable(t, it.productoId) ==> Vendible(t, it)
  {
  }

  /** The dictionary `{fila[0]: fila for fila in filas}`: later rows overwrite earlier ones with the same id. */
  function Diccionario(fs: seq<Fila<Producto>>): map<int, Producto>
  {
    if fs == [] then map[] else Diccionario(fs[..|fs| - 1])[fs[|fs| - 1].id := fs[|fs| - 1].datos]
  }

  /** Rows copied out of a table give back that table's entries, and every copied row's id is a key. */
  lemma {:induction false} DiccionarioDeFilas(fs: seq<Fila<Producto>>, m: map<int, Producto>, k: int)
    requires forall i | 0 <= i < |fs| :: fs[i].id in m && fs[i].datos == m[fs[i].id]
    ensures k in Diccionario(fs) ==> k in m && Diccionario(fs)[k] == m[k]
    ensures k in m && Fila(k, m[k]) in fs ==> k in Diccionario(fs)
  {
    if fs != [] {
      DiccionarioDeFilas(fs[..|fs| - 1], m, k);
      if k in m && Fila(k, m[k]) in fs && fs[|fs| - 1].id != k {
        var i := IndiceDe(fs, Fila(k, m[k]));
        assert fs[..|fs| - 1][i] == Fila(k, m[k]);
      }
    }
  }

  /** The dictionary built from `listar_productos_crudos()` is the product table. */
  lemma DiccionarioDeListado(m: map<int, Producto>)
    ensures Diccionario(ListarTabla(m)) == m
  {
    var d := Diccionario(ListarTabla(m));
    forall k ensures (k in d <==> k in m) && (k in d ==> d[k] == m[k]) {
      DiccionarioDeFilas(ListarTabla(m), m, k);
      if k in m {
        ListadoCompleto(m, k);
      }
    }
  }

  /**
   * The loop that copies the rows of `listar_productos_crudos()` into the
   * dictionary `productos_db`, keyed by id.
   */
  method Instantanea(filas: seq<Fila<Producto>>) returns (productosDb: map<int, Producto>)
    ensures productosDb == Diccionario(filas)
  {
    productosDb := map[];
    var i := 0;
    while i < |filas|
      invariant 0 <= i <= |filas|
      invariant productosDb == Diccionario(filas[..i])
    {
      assert filas[..i + 1][..i] == filas[..i];
      productosDb := productosDb[filas[i].id := filas[i].datos];
      i := i + 1;
    }
    assert filas[..i] == filas;
  }

  lemma TotalAlAgregar(ds: seq<DetalleVenta>, d: DetalleVenta)
    ensures TotalDe(ds + [d]) == TotalDe(ds) + d.totalLinea
  {
    assert (ds + [d])[..|ds|] == ds;
  }

  /**
   * The item loop of `registrar_venta`: for each item, the product must be in
   * `productos_db`; the line total is added to the invoice total; the category
   * and the supplier must be found by id; the line is appended. The first
   * failure ends the loop with None.
   */
  method PrepararDetalles(productosDb: map<int, Producto>, cats: map<int, Categoria>, provs: map<int, Proveedor>,
                          items: seq<Item>)
    returns (detalles: Option<seq<DetalleVenta>>, total: int)
    ensures detalles.Some? <==> forall i | 0 <= i < |items| :: VendibleEn(productosDb, cats, provs, items[i])
    ensures detalles.Some? ==> && (forall i | 0 <= i < |items| :: items[i].productoId in productosDb)
                               && detalles.value == DetallesDe(productosDb, items)
                               && total == TotalDe(detalles.value)
  {
    var ds: seq<DetalleVenta> := [];
    total := 0;
    var i := 0;
    while i < |items|
      invariant 0 <= i <= |items|
      invariant forall j | 0 <= j < i :: VendibleEn(productosDb, cats, provs, items[j])
      invariant |ds| == i
      invariant forall j | 0 <= j < i :: items[j].productoId in productosDb && ds[j] == DetalleDeItem(productosDb, items[j])
      invariant total == TotalDe(ds)
    {
      var pid := items[i].productoId;
      var cantidad := items[i].cantidad;
      if pid !in productosDb {
        return None, total;
      }
      var info := productosDb[pid];
      var precio := info.precio;
      var subtotal := cantidad * precio;
      total := total + subtotal;
      var vinculos := VinculosEncontrados(cats, provs, info);
      if !vinculos {
        return None, total;
      }
      TotalAlAgregar(ds, DetalleVenta(pid, cantidad, precio, subtotal));
      ds := ds + [DetalleVenta(pid, cantidad, precio, subtotal)];
      i := i + 1;
    }
    detalles := Some(ds);
  }

  /**
   * One pass of the write loop: `insertar_factura_detalle` then
   * `descontar_stock`. The line's product was checked, so the insert stores
   * its row; its result is ignored, as in the loop.
   */
  method EscribirLinea(db: Database, fid: int, d: DetalleVenta)
    requires db.Valid() && fid in db.tablas.facturas && Congelable(db.tablas, d.productoId)
    modifies db
    ensures db.Valid()
    ensures db.tablas == Paso(old(db.tablas), fid, d)
  {
    var _ := InsertarFacturaDetalle(db, fid, d.productoId, d.cantidad, d.precioUnitario, d.totalLinea);
    DescontarStock(db, d.productoId, d.cantidad);
  }

  /** The write loop of `registrar_venta`: one `EscribirLinea` per line, in order. */
  method EscribirVenta(db: Database, fid: int, ds: seq<DetalleVenta>)
    requires db.Valid() && fid in db.tablas.facturas
    requires forall i | 0 <= i < |ds| :: Congelable(db.tablas, ds[i].productoId)
    modifies db
    ensures db.Valid()
    ensures db.tablas == Escribir(old(db.tablas), fid, ds)
  {
    ghost var t0 := db.tablas;
    var i := 0;
    while i < |ds|
      invariant 0 <= i <= |ds|
      invariant db.tablas == Escribir(t0, fid, ds[..i])
    {
      assert ds[..i + 1][..i] == ds[..i];
      EscribirValido(t0, fid, ds[..i]);
      EscribirConservaCongelable(t0, fid, ds[..i], ds[i].productoId);
      EscribirLinea(db, fid, ds[i]);
      i := i + 1;
    }
    assert ds[..i] == ds;
    EscribirValido(t0, fid, ds);
  }

  /** The tables after `insertar_factura`: the header under the next invoice id. */
  function ConCabecera(t: Tablas, fecha: string, clienteId: int, total: int): Tablas
    requires clienteId in t.clientes
  {
    t.(facturas := t.facturas[t.sigFactura := FacturaDe(t.clientes, fecha, clienteId, total)],
       sigFactura := t.sigFactura + 1)
  }

  /** The committing half of `registrar_venta`: `insertar_factura` with the summed total, then the write loop. */
  method Confirmar(db: Database, fecha: string, clienteId: int, ds: seq<DetalleVenta>, total: int) returns (fid: int)
    requires db.Valid() && clienteId in db.tablas.clientes && total == TotalDe(ds)
    requires forall i | 0 <= i < |ds| :: Congelable(db.tablas, ds[i].productoId)
    modifies db
    ensures db.Valid()
    ensures fid == old(db.tablas.sigFactura)
    ensures db.tablas == Confirmada(old(db.tablas), fecha, clienteId, ds)
  {
    var r := InsertarFactura(db, fecha, clienteId, total);
    fid := r.value;
    EscribirVenta(db, fid, ds);
  }

  /**
   * `registrar_venta`: BEGIN; an unknown client, or an item whose product,
   * category or supplier is not found, rolls back and returns None; otherwise
   * the header is written with the summed total, then the lines and stock
   * decrements, and the commit returns the new invoice id.
   */
  method RegistrarVenta(db: Database, fecha: string, clienteId: int, items: seq<Item>) returns (r: Option<int>)
    requires db.Valid()
    modifies db
    ensures db.Valid()
    ensures (r, db.tablas) == Venta(old(db.tablas), fecha, clienteId, items)
  {
    var inicio := db.tablas;
    var cliente := ClienteValido(db.tablas.clientes, clienteId);
    if !cliente {
      db.Rollback(inicio);
      return None;
    }
    var productosDb := Instantanea(ListarTabla(db.tablas.productos));
    DiccionarioDeListado(inicio.productos);
    var detalles, total := PrepararDetalles(productosDb, db.tablas.categorias, db.tablas.proveedores, items);
    if detalles.None? {
      db.Rollback(inicio);
      return None;
    }
    TodosCongelables(inicio, items);
    var fid := Confirmar(db, fecha, clienteId, detalles.value, total);
    r := Some(fid);
  }

  /**
   * A sale is registered exactly when the client and every item's product,
   * category and supplier are stored; it then gets the next invoice id, and a
   * refused sale leaves every table as it was.
   */
  lemma VentaRegistraSiValida(t: Tablas, fecha: string, clienteId: int, items: seq<Item>)
    requires TablasValidas(t)
    ensures var (r, t2) := Venta(t, fecha, clienteId, items);
      && (r.Some? <==> clienteId in t.clientes && forall i | 0 <= i < |items| :: Congelable(t, items[i].productoId))
      && (r.None? ==> t2 == t)
      && (r.Some? ==> r.value == t.sigFactura && r.value !in t.facturas)
  {
    forall i | 0 <= i < |items| ensures Vendible(t, items[i]) <==> Congelable(t, items[i].productoId) {
      VendibleSiCongelable(t, items[i]);
    }
  }

  /** Writing the header keeps the tables valid: a fresh id, naming a stored client. */
  lemma CabeceraValida(t: Tablas, fecha: string, clienteId: int, total: int)
    requires TablasValidas(t) && clienteId in t.clientes
    ensures TablasValidas(ConCabecera(t, fecha, clienteId, total))
    ensures t.sigFactura in ConCabecera(t, fecha, clienteId, total).facturas
  {
    var r := ConCabecera(t, fecha, clienteId, total);
    assert Unicidad(r) by {
      assert r.categorias == t.categorias && r.proveedores == t.proveedores && r.clientes == t.clientes;
    }
  }

  /** A registered sale leaves the tables valid: counters fresh, columns unique, every reference resolved. */
  lemma VentaConservaValidez(t: Tablas, fecha: string, clienteId: int, items: seq<Item>)
    requires TablasValidas(t)
    ensures TablasValidas(Venta(t, fecha, clienteId, items).1)
  {
    var (r, t2) := Venta(t, fecha, clienteId, items);
    if r.Some? {
      var ds := DetallesDe(t.productos, items);
      var t1 := ConCabecera(t, fecha, clienteId, TotalDe(ds));
      CabeceraValida(t, fecha, clienteId, TotalDe(ds));
      forall i | 0 <= i < |ds| ensures Congelable(t1, ds[i].productoId) {
        assert Congelable(t, ds[i].productoId);
      }
      EscribirValido(t1, t.sigFactura, ds);
    }
  }

  /** The lines of a list of items take out of each product what the items ask for. */
  lemma {:induction false} SumaDetallesDeItems(prods: map<int, Producto>, items: seq<Item>, pid: int)
    requires forall i | 0 <= i < |items| :: items[i].productoId in prods
    ensures SumaDetalles(DetallesDe(prods, items), pid) == SumaCantidades(items, pid)
    decreases |items|
  {
    if items != [] {
      var n := |items| - 1;
      assert DetallesDe(prods, items)[..n] == DetallesDe(prods, items[..n]);
      SumaDetallesDeItems(prods, items[..n], pid);
    }
  }

  /** After the write loop each product has lost the units its lines name. */
  lemma {:induction false} EscribirDescuenta(t: Tablas, fid: int, ds: seq<DetalleVenta>, k: int)
    requires forall i | 0 <= i < |ds| :: Congelable(t, ds[i].productoId)
    requires k in t.productos
    ensures Escribir(t, fid, ds).productos[k].stock == t.productos[k].stock - SumaDetalles(ds, k)
    decreases |ds|
  {
    if ds != [] {
      EscribirDescuenta(t, fid, ds[..|ds| - 1], k);
    }
  }

  /**
   * A registered sale takes out of every product exactly the units the items
   * ask for, summed over repeated items, with no lower bound; nothing else of
   * a product changes and no product appears or disappears.
   */
  lemma VentaDescuentaStock(t: Tablas, fecha: string, clienteId: int, items: seq<Item>)
    requires Venta(t, fecha, clienteId, items).0.Some?
    ensures var t2 := Venta(t, fecha, clienteId, items).1;
      && t2.productos.Keys == t.productos.Keys
      && forall k | k in t.productos ::
           t2.productos[k] == t.productos[k].(stock := t.productos[k].stock - SumaCantidades(items, k))
  {
    var ds := DetallesDe(t.productos, items);
    var t1 := ConCabecera(t, fecha, clienteId, TotalDe(ds));
    forall i | 0 <= i < |ds| ensures Congelable(t1, ds[i].productoId) {
      assert Congelable(t, ds[i].productoId);
    }
    EscribirSoloStock(t1, t.sigFactura, ds);
    forall k | k in t.productos
      ensures Escribir(t1, t.sigFactura, ds).productos[k].stock == t.productos[k].stock - SumaCantidades(items, k)
    {
      EscribirDescuenta(t1, t.sigFactura, ds, k);
      SumaDetallesDeItems(t.productos, items, k);
    }
  }

  /** After the write loop the detail ids are the old ones and `sigDetalle` up to `sigDetalle + |ds|`. */
  lemma {:induction false} EscribirClaveDetalle(t: Tablas, fid: int, ds: seq<DetalleVenta>, k: int)
    requires forall i | 0 <= i < |ds| :: Congelable(t, ds[i].productoId)
    ensures k in Escribir(t, fid, ds).detalles <==> k in t.detalles || t.sigDetalle <= k < t.sigDetalle + |ds|
    decreases |ds|
  {
    if ds != [] {
      EscribirClaveDetalle(t, fid, ds[..|ds| - 1], k);
    }
  }

  /** A detail row stored below `sigDetalle` is untouched by the write loop. */
  lemma {:induction false} EscribirDetalleViejo(t: Tablas, fid: int, ds: seq<DetalleVenta>, k: int)
    requires forall i | 0 <= i < |ds| :: Congelable(t, ds[i].productoId)
    requires k in t.detalles && k < t.sigDetalle
    ensures k in Escribir(t, fid, ds).detalles && Escribir(t, fid, ds).detalles[k] == t.detalles[k]
    decreases |ds|
  {
    if ds != [] {
      EscribirDetalleViejo(t, fid, ds[..|ds| - 1], k);
    }
  }

  /**
   * Line `j` is stored under id `sigDetalle + j`, naming the invoice and with
   * the names it had before the loop: the loop changes only stock.
   */
  lemma {:induction false} EscribirDetalleNuevo(t: Tablas, fid: int, ds: seq<DetalleVenta>, j: int)
    requires forall i | 0 <= i < |ds| :: Congelable(t, ds[i].productoId)
    requires 0 <= j < |ds|
    ensures t.sigDetalle + j in Escribir(t, fid, ds).detalles
    ensures Escribir(t, fid, ds).detalles[t.sigDetalle + j] == Congelado(t, fid, ds[j])
    decreases |ds|
  {
    var n := |ds| - 1;
    var previas := Escribir(t, fid, ds[..n]);
    EscribirConservaCongelable(t, fid, ds[..n], ds[n].productoId);
    if j == n {
      EscribirSoloStock(t, fid, ds[..n]);
      assert previas.productos[ds[n].productoId] == t.productos[ds[n].productoId].(stock := previas.productos[ds[n].productoId].stock);
    } else {
      EscribirDetalleNuevo(t, fid, ds[..n], j);
      assert ds[..n][j] == ds[j];
    }
  }

  /** The rows a sale's lines get, in order. */
  function FilasNuevas(t: Tablas, fid: int, ds: seq<DetalleVenta>): (r: seq<Fila<Detalle>>)
    requires forall i | 0 <= i < |ds| :: Congelable(t, ds[i].productoId)
    ensures |r| == |ds|
    ensures forall j | 0 <= j < |ds| ::
              r[j] == Fila(t.sigDetalle + j, Congelado(t, fid, ds[j]))
    decreases |ds|
  {
    if ds == [] then []
    else
      var n := |ds| - 1;
      FilasNuevas(t, fid, ds[..n])
        + [Fila(t.sigDetalle + n, Congelado(t, fid, ds[n]))]
  }

  /** A detail row naming invoice `fid` after the write loop is one of the new rows. */
  lemma LineaDeVentaEsNueva(t: Tablas, fid: int, ds: seq<DetalleVenta>, k: int)
    requires forall i | 0 <= i < |ds| :: Congelable(t, ds[i].productoId)
    requires ClavesBajo(t.detalles, t.sigDetalle)
    requires forall k | k in t.detalles :: t.detalles[k].facturaId != fid
    requires k in Escribir(t, fid, ds).detalles && Escribir(t, fid, ds).detalles[k].facturaId == fid
    ensures Fila(k, Escribir(t, fid, ds).detalles[k]) in FilasNuevas(t, fid, ds)
  {
    var d := Escribir(t, fid, ds).detalles;
    var b := FilasNuevas(t, fid, ds);
    EscribirClaveDetalle(t, fid, ds, k);
    if k in t.detalles {
      EscribirDetalleViejo(t, fid, ds, k);
    }
    var j := k - t.sigDetalle;
    EscribirDetalleNuevo(t, fid, ds, j);
    assert b[j] == Fila(k, d[k]);
  }

  /** Each new row is a detail row naming invoice `fid` after the write loop. */
  lemma NuevaEsLineaDeVenta(t: Tablas, fid: int, ds: seq<DetalleVenta>, j: int)
    requires forall i | 0 <= i < |ds| :: Congelable(t, ds[i].productoId)
    requires 0 <= j < |ds|
    ensures var x := FilasNuevas(t, fid, ds)[j];
      x.id in Escribir(t, fid, ds).detalles && Escribir(t, fid, ds).detalles[x.id] == x.datos && x.datos.facturaId == fid
  {
    EscribirDetalleNuevo(t, fid, ds, j);
  }

  /**
   * When no stored row names invoice `fid`, the lines `obtener_detalle_venta`
   * finds for it after the write loop are exactly the new rows, in order.
   */
  lemma LineasDeVenta(t: Tablas, fid: int, ds: seq<DetalleVenta>)
    requires forall i | 0 <= i < |ds| :: Congelable(t, ds[i].productoId)
    requires ClavesBajo(t.detalles, t.sigDetalle)
    requires forall k | k in t.detalles :: t.detalles[k].facturaId != fid
    ensures LineasDeFactura(Escribir(t, fid, ds).detalles, fid) == FilasNuevas(t, fid, ds)
  {
    var a := LineasDeFactura(Escribir(t, fid, ds).detalles, fid);
    var b := FilasNuevas(t, fid, ds);
    var d := Escribir(t, fid, ds).detalles;
    LineasDeFacturaCorrecto(d, fid);
    forall x | x in a ensures x in b {
      LineaDeVentaEsNueva(t, fid, ds, x.id);
    }
    forall x | x in b ensures x in a {
      var j := IndiceDe(b, x);
      NuevaEsLineaDeVenta(t, fid, ds, j);
    }
    CrecientesIguales(a, b);
  }

  /** The sum of the `total_linea` column of a detail listing. */
  function SumaLineas(ls: seq<LineaVenta>): int
  {
    if ls == [] then 0 else SumaLineas(ls[..|ls| - 1]) + ls[|ls| - 1].totalLinea
  }

  lemma {:induction false} SumaLineasEsTotal(ls: seq<LineaVenta>, ds: seq<DetalleVenta>)
    requires |ls| == |ds| && forall i | 0 <= i < |ds| :: ls[i].totalLinea == ds[i].totalLinea
    ensures SumaLineas(ls) == TotalDe(ds)
    decreases |ds|
  {
    if ds != [] {
      SumaLineasEsTotal(ls[..|ls| - 1], ds[..|ds| - 1]);
    }
  }

  /**
   * The row the detail listing should show for item `it` of a sale to
   * `clienteId` on `fecha`: the next invoice id, the client's name, email and
   * DNI, the product's name, its category's name and its price as they are in
   * `t`, the quantity, the line total, and the invoice total `total`.
   */
  function LineaEsperada(t: Tablas, fecha: string, clienteId: int, it: Item, total: int): LineaVenta
    requires clienteId in t.clientes && Congelable(t, it.productoId)
  {
    var p := t.productos[it.productoId];
    var c := t.clientes[clienteId];
    LineaVenta(t.sigFactura, fecha, clienteId, c.nombre, c.email, c.dni, it.productoId, p.nombre,
               t.categorias[p.categoriaId.value].nombre, it.cantidad, p.precio, it.cantidad * p.precio, total)
  }

  /** A sale whose client and products are stored commits its lines under the next invoice id. */
  lemma VentaConfirma(t: Tablas, fecha: string, clienteId: int, items: seq<Item>)
    requires TablasValidas(t)
    requires clienteId in t.clientes && forall i | 0 <= i < |items| :: Congelable(t, items[i].productoId)
    ensures forall i | 0 <= i < |items| :: items[i].productoId in t.productos
    ensures Venta(t, fecha, clienteId, items) == (Some(t.sigFactura), Confirmada(t, fecha, clienteId, DetallesDe(t.productos, items)))
  {
    forall i | 0 <= i < |items| ensures Vendible(t, items[i]) {
      VendibleSiCongelable(t, items[i]);
    }
  }

  /** The detail listing of a just-confirmed invoice: its header joined with the new rows, in order. */
  lemma DetalleDeConfirmada(t: Tablas, fecha: string, clienteId: int, ds: seq<DetalleVenta>)
    requires TablasValidas(t)
    requires clienteId in t.clientes && forall i | 0 <= i < |ds| :: Congelable(t, ds[i].productoId)
    ensures var t1 := ConCabecera(t, fecha, clienteId, TotalDe(ds));
            var t2 := Confirmada(t, fecha, clienteId, ds);
      && (forall i | 0 <= i < |ds| :: Congelable(t1, ds[i].productoId))
      && ObtenerDetalleVenta(t2.facturas, t2.detalles, t.sigFactura)
         == Lineas(t.sigFactura, FacturaDe(t.clientes, fecha, clienteId, TotalDe(ds)), FilasNuevas(t1, t.sigFactura, ds))
  {
    var fid := t.sigFactura;
    var t1 := ConCabecera(t, fecha, clienteId, TotalDe(ds));
    forall i | 0 <= i < |ds| ensures Congelable(t1, ds[i].productoId) {
      assert Congelable(t, ds[i].productoId);
    }
    forall k | k in t1.detalles ensures t1.detalles[k].facturaId != fid {
      assert t.detalles[k].facturaId in t.facturas;
    }
    LineasDeVenta(t1, fid, ds);
  }

  /** One joined row of the new invoice shows its item as `LineaEsperada` describes. */
  lemma LineaDeItemCorrecta(t: Tablas, t1: Tablas, f: Factura, fecha: string, clienteId: int, total: int,
                            ds: seq<DetalleVenta>, it: Item, i: int)
    requires clienteId in t.clientes && it.productoId in t.productos && Congelable(t, it.productoId)
    requires t1.productos == t.productos && t1.categorias == t.categorias && t1.proveedores == t.proveedores
    requires f == FacturaDe(t.clientes, fecha, clienteId, total)
    requires 0 <= i < |ds| && ds[i] == DetalleDeItem(t.productos, it)
    requires forall j | 0 <= j < |ds| :: Congelable(t1, ds[j].productoId)
    ensures LineaDe(t.sigFactura, f, FilasNuevas(t1, t.sigFactura, ds)[i].datos) == LineaEsperada(t, fecha, clienteId, it, total)
  {
  }

  /**
   * After a sale, `obtener_detalle_venta` of the new invoice shows one row per
   * item, in the order of the items, each with the client, product, category,
   * quantity and price of the moment of the sale; every row repeats the
   * invoice total, which is the sum of the listed line totals.
   */
  lemma VentaDetalle(t: Tablas, fecha: string, clienteId: int, items: seq<Item>)
    requires TablasValidas(t)
    requires clienteId in t.clientes && forall i | 0 <= i < |items| :: Congelable(t, items[i].productoId)
    ensures Venta(t, fecha, clienteId, items).0 == Some(t.sigFactura)
    ensures var t2 := Venta(t, fecha, clienteId, items).1;
            var ls := ObtenerDetalleVenta(t2.facturas, t2.detalles, t.sigFactura);
      && |ls| == |items|
      && forall i | 0 <= i < |items| :: ls[i] == LineaEsperada(t, fecha, clienteId, items[i], SumaLineas(ls))
  {
    VentaConfirma(t, fecha, clienteId, items);
    var ds := DetallesDe(t.productos, items);
    forall i | 0 <= i < |ds| ensures Congelable(t, ds[i].productoId) {
      assert Congelable(t, items[i].productoId);
    }
    DetalleDeConfirmada(t, fecha, clienteId, ds);
    var t1 := ConCabecera(t, fecha, clienteId, TotalDe(ds));
    var t2 := Confirmada(t, fecha, clienteId, ds);
    LineasDeItems(t, t1, FacturaDe(t.clientes, fecha, clienteId, TotalDe(ds)), fecha, clienteId, TotalDe(ds), ds, items,
                  ObtenerDetalleVenta(t2.facturas, t2.detalles, t.sigFactura));
  }

  /** VentaDetalle's rows, item by item, over any invoice header `f` carrying `total`. */
  lemma LineasDeItems(t: Tablas, t1: Tablas, f: Factura, fecha: string, clienteId: int, total: int,
                      ds: seq<DetalleVenta>, items: seq<Item>, ls: seq<LineaVenta>)
    requires clienteId in t.clientes && forall i | 0 <= i < |items| :: Congelable(t, items[i].productoId)
    requires t1.productos == t.productos && t1.categorias == t.categorias && t1.proveedores == t.proveedores
    requires f == FacturaDe(t.clientes, fecha, clienteId, total) && total == TotalDe(ds)
    requires |ds| == |items|
    requires forall i | 0 <= i < |items| :: items[i].productoId in t.productos && ds[i] == DetalleDeItem(t.productos, items[i])
    requires forall j | 0 <= j < |ds| :: Congelable(t1, ds[j].productoId)
    requires ls == Lineas(t.sigFactura, f, FilasNuevas(t1, t.sigFactura, ds))
    ensures |ls| == |items|
    ensures forall i | 0 <= i < |items| :: ls[i] == LineaEsperada(t, fecha, clienteId, items[i], SumaLineas(ls))
  {
    SumaLineasEsTotal(ls, ds);
    forall i | 0 <= i < |items| ensures ls[i] == LineaEsperada(t, fecha, clienteId, items[i], SumaLineas(ls)) {
      LineaDeItemCorrecta(t, t1, f, fecha, clienteId, total, ds, items[i], i);
    }
  }
}
