/**
 * gestor_productos/productos_db.py: the writers of the `productos` table and its
 * three read views. `categoria_id` and `proveedor_id` are foreign keys: a write
 * that would name a missing category or supplier, and a delete of a product
 * some invoice line names, are refused (sqlite3.IntegrityError -> False).
 * `listar_productos_crudos` is `BaseDatos.ListarTabla(db.tablas.productos)`.
 */
module ProductosDb {
  import opened Opcion
  import opened BaseDatos

  /** Both references of a product can be stored: NULL or an existing row. */
  predicate RefsValidas(categoriaId: Option<int>, proveedorId: Option<int>,
                        cats: map<int, Categoria>, provs: map<int, Proveedor>)
  {
    RefValida(categoriaId, cats) && RefValida(proveedorId, provs)
  }

  /** `insertar_producto`: one new row under a fresh id with exactly the five given columns. */
  method InsertarProducto(db: Database, nombre: string, categoriaId: Option<int>, proveedorId: Option<int>,
                          stock: int, precio: int) returns (ok: bool)
    requires db.Valid()
    modifies db
    ensures db.Valid()
    ensures ok <==> RefsValidas(categoriaId, proveedorId, old(db.tablas.categorias), old(db.tablas.proveedores))
    ensures ok ==> var t := old(db.tablas);
                   && t.sigProducto !in t.productos
                   && db.tablas == t.(productos := t.productos[t.sigProducto :=
                                                    Producto(nombre, categoriaId, proveedorId, stock, precio)],
                                      sigProducto := t.sigProducto + 1)
    ensures !ok ==> db.tablas == old(db.tablas)
  {
    var t := db.tablas;
    if !RefsValidas(categoriaId, proveedorId, t.categorias, t.proveedores) {
      return false;
    }
    db.tablas := t.(productos := t.productos[t.sigProducto := Producto(nombre, categoriaId, proveedorId, stock, precio)],
                    sigProducto := t.sigProducto + 1);
    ok := true;
  }

  /**
   * `modificar_producto`: all five columns of the row with that id are overwritten;
   * no other row changes. An id with no row updates nothing and still reports success.
   */
  method ModificarProducto(db: Database, id: int, nombre: string, categoriaId: Option<int>,
                           proveedorId: Option<int>, stock: int, precio: int) returns (ok: bool)
    requires db.Valid()
    modifies db
    ensures db.Valid()
    ensures ok <==> !(id in old(db.tablas.productos)
                      && !RefsValidas(categoriaId, proveedorId, old(db.tablas.categorias), old(db.tablas.proveedores)))
    ensures ok && id in old(db.tablas.productos) ==>
              db.tablas == old(db.tablas).(productos := old(db.tablas.productos)[id :=
                                              Producto(nombre, categoriaId, proveedorId, stock, precio)])
    ensures !ok || id !in old(db.tablas.productos) ==> db.tablas == old(db.tablas)
  {
    var t := db.tablas;
    if id in t.productos {
      if !RefsValidas(categoriaId, proveedorId, t.categorias, t.proveedores) {
        return false;
      }
      db.tablas := t.(productos := t.productos[id := Producto(nombre, categoriaId, proveedorId, stock, precio)]);
    }
    ok := true;
  }

  /**
   * `eliminar_producto`: only the row with that id disappears; the foreign key of
   * `factura_detalle` refuses the DELETE of a product that has been sold.
   */
  method EliminarProducto(db: Database, id: int) returns (ok: bool)
    requires db.Valid()
    modifies db
    ensures db.Valid()
    ensures ok <==> !ProductoReferenciado(old(db.tablas.detalles), id)
    ensures ok ==> db.tablas == old(db.tablas).(productos := old(db.tablas.productos) - {id})
    ensures !ok ==> db.tablas == old(db.tablas)
  {
    var t := db.tablas;
    if ProductoReferenciado(t.detalles, id) {
      return false;
    }
    db.tablas := t.(productos := t.productos - {id});
    ok := true;
  }

  /** A row of `listar_productos`: the two ids are replaced by the names they point to. */
  datatype ProductoListado = ProductoListado(id: int, nombre: string, categoria: string, proveedor: string,
                                             stock: int, precio: int)

  /** Both inner joins find their row: neither reference is NULL nor dangling. */
  predicate Resuelve(p: Producto, cats: map<int, Categoria>, provs: map<int, Proveedor>)
  {
    && p.categoriaId.Some? && p.categoriaId.value in cats
    && p.proveedorId.Some? && p.proveedorId.value in provs
  }

  function Unido(f: Fila<Producto>, cats: map<int, Categoria>, provs: map<int, Proveedor>): ProductoListado
    requires Resuelve(f.datos, cats, provs)
  {
    ProductoListado(f.id, f.datos.nombre, cats[f.datos.categoriaId.value].nombre,
                    provs[f.datos.proveedorId.value].nombre, f.datos.stock, f.datos.precio)
  }

  predicate ListadoCreciente(r: seq<ProductoListado>)
  {
    forall i, j | 0 <= i < j < |r| :: r[i].id < r[j].id
  }

  /** The join condition as a row filter. */
  function SeUne(cats: map<int, Categoria>, provs: map<int, Proveedor>): Fila<Producto> -> bool
  {
    (f: Fila<Producto>) => Resuelve(f.datos, cats, provs)
  }

  /** The product rows both inner joins keep, in id order. */
  function Unibles(cats: map<int, Categoria>, provs: map<int, Proveedor>, prods: map<int, Producto>)
    : seq<Fila<Producto>>
  {
    FiltrarFilas(ListarTabla(prods), SeUne(cats, provs))
  }

  /** Every kept row can be joined. */
  lemma UniblesResuelven(cats: map<int, Categoria>, provs: map<int, Proveedor>, prods: map<int, Producto>)
    ensures forall f | f in Unibles(cats, provs, prods) :: Resuelve(f.datos, cats, provs)
  {
    FiltrarFilasCorrecto(ListarTabla(prods), SeUne(cats, provs));
    forall f | f in Unibles(cats, provs, prods) ensures Resuelve(f.datos, cats, provs) {
      assert SeUne(cats, provs)(f);
    }
  }

  /** The kept rows are the stored products whose references both resolve, in id order. */
  lemma UniblesCorrecto(cats: map<int, Categoria>, provs: map<int, Proveedor>, prods: map<int, Producto>)
    ensures var fs := Unibles(cats, provs, prods);
      && IdsCrecientes(fs)
      && (forall f | f in fs :: f.id in prods && f.datos == prods[f.id] && Resuelve(f.datos, cats, provs))
      && (forall k | k in prods && Resuelve(prods[k], cats, provs) :: Fila(k, prods[k]) in fs)
  {
    var ts := ListarTabla(prods);
    var fs := Unibles(cats, provs, prods);
    FiltrarFilasCorrecto(ts, SeUne(cats, provs));
    UniblesResuelven(cats, provs, prods);
    forall f | f in fs ensures f.id in prods && f.datos == prods[f.id] {
      var j := IndiceDe(ts, f);
    }
    forall k | k in prods && Resuelve(prods[k], cats, provs) ensures Fila(k, prods[k]) in fs {
      ListadoCompleto(prods, k);
      assert SeUne(cats, provs)(Fila(k, prods[k]));
    }
  }

  /** Replaces both ids of each row by the names they point to. */
  function Nombrar(fs: seq<Fila<Producto>>, cats: map<int, Categoria>, provs: map<int, Proveedor>)
    : (r: seq<ProductoListado>)
    requires forall f | f in fs :: Resuelve(f.datos, cats, provs)
    ensures |r| == |fs|
    ensures forall i | 0 <= i < |r| :: r[i] == Unido(fs[i], cats, provs)
  {
    if fs == [] then [] else [Unido(fs[0], cats, provs)] + Nombrar(fs[1..], cats, provs)
  }

  /**
   * `listar_productos`: `productos JOIN categorias JOIN proveedores ORDER BY
   * id_producto`.
   */
  function ListarProductos(cats: map<int, Categoria>, provs: map<int, Proveedor>, prods: map<int, Producto>)
    : seq<ProductoListado>
  {
    UniblesResuelven(cats, provs, prods);
    Nombrar(Unibles(cats, provs, prods), cats, provs)
  }

  /**
   * The joined listing holds exactly the products whose category and supplier
   * both exist, once each and in id order, with the two names in place of the ids.
   */
  lemma ListarProductosCorrecto(cats: map<int, Categoria>, provs: map<int, Proveedor>, prods: map<int, Producto>)
    ensures var r := ListarProductos(cats, provs, prods);
      && ListadoCreciente(r)
      && (forall x | x in r :: x.id in prods && Resuelve(prods[x.id], cats, provs)
                               && x == Unido(Fila(x.id, prods[x.id]), cats, provs))
      && (forall k | k in prods && Resuelve(prods[k], cats, provs) :: Unido(Fila(k, prods[k]), cats, provs) in r)
  {
    var fs := Unibles(cats, provs, prods);
    var r := ListarProductos(cats, provs, prods);
    UniblesCorrecto(cats, provs, prods);
    forall x | x in r
      ensures x.id in prods && Resuelve(prods[x.id], cats, provs) && x == Unido(Fila(x.id, prods[x.id]), cats, provs)
    {
      var i := IndiceDe(r, x);
      assert fs[i] in fs;
    }
    forall k | k in prods && Resuelve(prods[k], cats, provs)
      ensures Unido(Fila(k, prods[k]), cats, provs) in r
    {
      var i := IndiceDe(fs, Fila(k, prods[k]));
    }
  }

  /**
   * `listar_tabla_producto`: `SELECT * FROM productos WHERE id_producto = ?`, the
   * first row of the table with that id: the stored row, or None when there is none.
   */
  function ListarTablaProducto(prods: map<int, Producto>, id: int): (r: Option<Fila<Producto>>)
    ensures r == if id in prods then Some(Fila(id, prods[id])) else None
  {
    BuscarEnListado(prods, id);
    BuscarPorId(ListarTabla(prods), id)
  }
}
