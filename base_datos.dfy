/**
 * The SQLite database of db/data_base.py, seen as one map per table
 * (primary key -> row) plus the AUTOINCREMENT counter of each table.
 * Money columns (REAL in SQLite) are integer cents.
 */
module BaseDatos {
  import opened Opcion
  import opened Orden
  import opened Texto

  datatype Categoria = Categoria(nombre: string)
  datatype Proveedor = Proveedor(nombre: string, telefono: string, email: string, cuit: string)
  /** `categoria_id` and `proveedor_id` are nullable columns. */
  datatype Producto = Producto(nombre: string, categoriaId: Option<int>, proveedorId: Option<int>,
                               stock: int, precio: int)
  datatype Cliente = Cliente(nombre: string, telefono: string, email: string, dni: string)
  /** An invoice header; the client's name, email and DNI are copies frozen at sale time. */
  datatype Factura = Factura(fecha: string, clienteId: int, nombreCliente: string,
                             emailCliente: string, dniCliente: string, total: int)
  /** An invoice line; the three names are copies frozen at sale time. */
  datatype Detalle = Detalle(facturaId: int, productoId: int, cantidad: int, precioUnitario: int,
                             totalLinea: int, nombreProducto: string, nombreCategoria: string,
                             nombreProveedor: string)

  /** A row as `SELECT *` returns it: the primary key and the other columns. */
  datatype Fila<T> = Fila(id: int, datos: T)

  /** `ORDER BY id ASC` over a primary key: strictly increasing ids, so no row twice. */
  predicate IdsCrecientes<T>(r: seq<Fila<T>>)
  {
    forall i, j | 0 <= i < j < |r| :: r[i].id < r[j].id
  }

  function FilasDe<T>(m: map<int, T>, ks: seq<int>): (r: seq<Fila<T>>)
    requires forall i | 0 <= i < |ks| :: ks[i] in m
    ensures |r| == |ks|
    ensures forall i | 0 <= i < |r| :: r[i] == Fila(ks[i], m[ks[i]])
  {
    if ks == [] then [] else [Fila(ks[0], m[ks[0]])] + FilasDe(m, ks[1..])
  }

  /**
   * `SELECT * FROM t ORDER BY id ASC`: the rows in ascending order of primary
   * key, each with the columns stored under that key; ListadoCompleto adds
   * that no row is missing.
   */
  function ListarTabla<T>(m: map<int, T>): (r: seq<Fila<T>>)
    ensures |r| == |m|
    ensures forall i | 0 <= i < |r| :: r[i].id in m && r[i].datos == m[r[i].id]
    ensures IdsCrecientes(r)
  {
    FilasDe(m, ClavesOrdenadas(m.Keys))
  }

  /** Every stored row appears in the listing. */
  lemma ListadoCompleto<T>(m: map<int, T>, k: int)
    requires k in m
    ensures Fila(k, m[k]) in ListarTabla(m)
  {
    var ks := ClavesOrdenadas(m.Keys);
    var i :| 0 <= i < |ks| && ks[i] == k;
    assert ListarTabla(m)[i] == Fila(k, m[k]);
  }

  /** The `for fila in listado: if fila[0] == id: return fila` scan of the id validators. */
  function BuscarPorId<T>(filas: seq<Fila<T>>, id: int): (r: Option<Fila<T>>)
    ensures r.Some? ==> r.value in filas && r.value.id == id
    ensures r.None? ==> forall i | 0 <= i < |filas| :: filas[i].id != id
  {
    if filas == [] then None
    else if filas[0].id == id then Some(filas[0])
    else BuscarPorId(filas[1..], id)
  }

  /** The linear scan over the ordered listing finds exactly the row stored under that key. */
  lemma BuscarEnListado<T>(m: map<int, T>, id: int)
    ensures BuscarPorId(ListarTabla(m), id) == if id in m then Some(Fila(id, m[id])) else None
  {
    if id in m {
      ListadoCompleto(m, id);
    }
  }

  /** A `WHERE` clause over an ordered listing: the rows that satisfy `p`, order kept. */
  function FiltrarFilas<T>(rs: seq<Fila<T>>, p: Fila<T> -> bool): seq<Fila<T>>
  {
    if rs == [] then [] else (if p(rs[0]) then [rs[0]] else []) + FiltrarFilas(rs[1..], p)
  }

  /** The filter keeps exactly the rows that satisfy `p`, in the order of the listing. */
  lemma {:induction false} FiltrarFilasCorrecto<T>(rs: seq<Fila<T>>, p: Fila<T> -> bool)
    ensures forall x | x in FiltrarFilas(rs, p) :: x in rs && p(x)
    ensures forall x | x in rs && p(x) :: x in FiltrarFilas(rs, p)
    ensures IdsCrecientes(rs) ==> IdsCrecientes(FiltrarFilas(rs, p))
  {
    if rs != [] {
      var resto := FiltrarFilas(rs[1..], p);
      FiltrarFilasCorrecto(rs[1..], p);
      assert rs == [rs[0]] + rs[1..];
      if IdsCrecientes(rs) {
        forall x | x in resto ensures rs[0].id < x.id {
          var k := IndiceDe(rs[1..], x);
          assert rs[k + 1] == x;
        }
      }
    }
  }

  /** A filter every row passes keeps the listing as it is. */
  lemma {:induction false} FiltrarFilasTodas<T>(rs: seq<Fila<T>>, p: Fila<T> -> bool)
    requires forall x | x in rs :: p(x)
    ensures FiltrarFilas(rs, p) == rs
  {
    if rs != [] {
      assert rs[0] in rs;
      FiltrarFilasTodas(rs[1..], p);
      assert rs == [rs[0]] + rs[1..];
    }
  }

  /** The position of a row known to be in a listing. */
  lemma IndiceDe<T>(s: seq<T>, x: T) returns (i: int)
    requires x in s
    ensures 0 <= i < |s| && s[i] == x
  {
    i :| 0 <= i < |s| && s[i] == x;
  }

  /** Two listings in strictly increasing id order with the same rows are the same listing. */
  lemma {:induction false} CrecientesIguales<T>(a: seq<Fila<T>>, b: seq<Fila<T>>)
    requires IdsCrecientes(a) && IdsCrecientes(b)
    requires forall x :: x in a <==> x in b
    ensures a == b
    decreases |a|
  {
    if a == [] {
      assert b == [] by {
        assert forall x :: x !in b;
        Cabeza(b);
      }
    } else {
      var j := IndiceDe(b, a[0]);
      var i := IndiceDe(a, b[0]);
      assert a[0] == b[0];
      forall x ensures x in a[1..] <==> x in b[1..] {
        Cola(a, x);
        Cola(b, x);
      }
      CrecientesIguales(a[1..], b[1..]);
      assert a == [a[0]] + a[1..];
      assert b == [b[0]] + b[1..];
    }
  }

  lemma Cabeza<T>(s: seq<T>)
    ensures s != [] ==> s[0] in s
  {
  }

  /** In a strictly increasing listing a row is in the tail exactly when it is there and is not the head. */
  lemma Cola<T>(s: seq<Fila<T>>, x: Fila<T>)
    ensures IdsCrecientes(s) && s != [] ==> (x in s[1..] <==> x in s && x != s[0])
  {
    if IdsCrecientes(s) && s != [] {
      assert s == [s[0]] + s[1..];
      if x in s[1..] {
        var k := IndiceDe(s[1..], x);
        assert s[k + 1] == x;
      }
    }
  }

  /**
   * The lookup of the `obtener_*_por_id_validado` validators: text that is not
   * all decimal digits (the empty text included) finds nothing; otherwise the
   * scan of the ordered listing for that id.
   */
  function ObtenerPorIdValidado<T>(m: map<int, T>, idStr: string): (r: Option<Fila<T>>)
    ensures r.Some? <==> EsNumero(idStr) && ValorDecimal(idStr) in m
    ensures r.Some? ==> r.value == Fila(ValorDecimal(idStr), m[ValorDecimal(idStr)])
  {
    if !EsNumero(idStr) then None
    else
      BuscarEnListado(m, ValorDecimal(idStr));
      BuscarPorId(ListarTabla(m), ValorDecimal(idStr))
  }

  /** What `str(id)` gives back for a stored non-negative id is found again. */
  lemma ObtenerPorIdDeStr<T>(m: map<int, T>, id: int)
    requires id in m && id >= 0
    ensures ObtenerPorIdValidado(m, StrEntero(id)) == Some(Fila(id, m[id]))
  {
    StrEnteroEsNumero(id);
  }

  /** A Python value as the validators compare it: an `int` never equals a `str`. */
  datatype Valor = Entero(n: int) | Cadena(s: string)

  /** The non-NULL values a reference column takes over a listing. */
  function RefsDe<T>(filas: seq<Fila<T>>, ref: T -> Option<int>): set<int>
  {
    if filas == [] then {}
    else
      var v := ref(filas[|filas| - 1].datos);
      RefsDe(filas[..|filas| - 1], ref) + (if v.Some? then {v.value} else {})
  }

  lemma {:induction false} RefsDeCorrecto<T>(filas: seq<Fila<T>>, ref: T -> Option<int>, c: int)
    ensures c in RefsDe(filas, ref) <==> exists j | 0 <= j < |filas| :: ref(filas[j].datos) == Some(c)
  {
    if filas != [] {
      var n := |filas| - 1;
      RefsDeCorrecto(filas[..n], ref, c);
      if exists j | 0 <= j < |filas| :: ref(filas[j].datos) == Some(c) {
        var j :| 0 <= j < |filas| && ref(filas[j].datos) == Some(c);
        if j < n {
          assert filas[..n][j] == filas[j];
        }
      }
    }
  }

  /** Over a whole table: the values some stored row holds in that column. */
  lemma RefsDeTabla<T>(m: map<int, T>, ref: T -> Option<int>, c: int)
    ensures c in RefsDe(ListarTabla(m), ref) <==> exists k :: k in m && ref(m[k]) == Some(c)
  {
    var fs := ListarTabla(m);
    RefsDeCorrecto(fs, ref, c);
    if exists k :: k in m && ref(m[k]) == Some(c) {
      var k :| k in m && ref(m[k]) == Some(c);
      ListadoCompleto(m, k);
      var j := IndiceDe(fs, Fila(k, m[k]));
    }
  }

  /** The first loop of every `listar_*_eliminables`: the set of ids a column of the dependent rows holds. */
  method RecogerRefs<T>(filas: seq<Fila<T>>, ref: T -> Option<int>) returns (s: set<int>)
    ensures s == RefsDe(filas, ref)
  {
    s := {};
    var i := 0;
    while i < |filas|
      invariant 0 <= i <= |filas|
      invariant s == RefsDe(filas[..i], ref)
    {
      assert filas[..i + 1][..i] == filas[..i];
      var v := ref(filas[i].datos);
      if v.Some? {
        s := s + {v.value};
      }
      i := i + 1;
    }
    assert filas[..i] == filas;
  }

  /** The `if fila[0] not in usados` test. */
  function FueraDe<T>(usados: set<int>): Fila<T> -> bool
  {
    (f: Fila<T>) => f.id !in usados
  }

  /** Filtering a listing that grew by one row at the end. */
  lemma {:induction false} FiltrarFilasAlFinal<T>(rs: seq<Fila<T>>, x: Fila<T>, p: Fila<T> -> bool)
    ensures FiltrarFilas(rs + [x], p) == FiltrarFilas(rs, p) + (if p(x) then [x] else [])
  {
    if rs == [] {
      assert rs + [x] == [x];
    } else {
      var ys := rs + [x];
      var cabeza := if p(rs[0]) then [rs[0]] else [];
      var cola := if p(x) then [x] else [];
      assert ys[0] == rs[0] && ys[1..] == rs[1..] + [x];
      FiltrarFilasAlFinal(rs[1..], x, p);
      calc {
        FiltrarFilas(ys, p);
        cabeza + FiltrarFilas(rs[1..] + [x], p);
        cabeza + (FiltrarFilas(rs[1..], p) + cola);
        (cabeza + FiltrarFilas(rs[1..], p)) + cola;
      }
    }
  }

  /** The second loop of every `listar_*_eliminables`: the listed rows whose id is not in `usados`, order kept. */
  method QuitarUsados<T>(todas: seq<Fila<T>>, usados: set<int>) returns (r: seq<Fila<T>>)
    ensures r == FiltrarFilas(todas, FueraDe(usados))
  {
    r := [];
    var i := 0;
    while i < |todas|
      invariant 0 <= i <= |todas|
      invariant r == FiltrarFilas(todas[..i], FueraDe(usados))
    {
      FiltrarFilasAlFinal(todas[..i], todas[i], FueraDe(usados));
      assert todas[..i + 1] == todas[..i] + [todas[i]];
      if todas[i].id !in usados {
        r := r + [todas[i]];
      }
      i := i + 1;
    }
    assert todas[..i] == todas;
  }

  /**
   * A set difference over a table: the stored rows whose id is not in `usados`,
   * each once and in id order, and no other row.
   */
  lemma EliminablesCorrecto<T>(m: map<int, T>, usados: set<int>)
    ensures var r := FiltrarFilas(ListarTabla(m), FueraDe(usados));
      && IdsCrecientes(r)
      && (forall x | x in r :: x.id in m && x.datos == m[x.id] && x.id !in usados)
      && (forall k | k in m && k !in usados :: Fila(k, m[k]) in r)
  {
    var ts := ListarTabla(m);
    var r := FiltrarFilas(ts, FueraDe(usados));
    FiltrarFilasCorrecto(ts, FueraDe(usados));
    forall x | x in r ensures x.id in m && x.datos == m[x.id] && x.id !in usados {
      var i := IndiceDe(ts, x);
      assert FueraDe(usados)(x);
    }
    forall k | k in m && k !in usados ensures Fila(k, m[k]) in r {
      ListadoCompleto(m, k);
      assert FueraDe(usados)(Fila(k, m[k]));
    }
  }

  /** All the tables at one instant: what a transaction can roll back to. */
  datatype Tablas = Tablas(
    categorias: map<int, Categoria>, proveedores: map<int, Proveedor>,
    productos: map<int, Producto>, clientes: map<int, Cliente>,
    facturas: map<int, Factura>, detalles: map<int, Detalle>,
    sigCategoria: int, sigProveedor: int, sigProducto: int, sigCliente: int,
    sigFactura: int, sigDetalle: int)

  /** Every key lies in [1, sig): AUTOINCREMENT starts at 1 and never hands out a used id. */
  predicate ClavesBajo<T>(m: map<int, T>, sig: int)
  {
    1 <= sig && forall k | k in m :: 1 <= k < sig
  }

  /** A nullable foreign-key column: NULL, or the key of an existing row. */
  predicate RefValida<T>(ref: Option<int>, m: map<int, T>)
  {
    ref.Some? ==> ref.value in m
  }

  /** Some product row names category `id` in `categoria_id`. */
  predicate CategoriaReferenciada(prods: map<int, Producto>, id: int)
  {
    exists k :: k in prods && prods[k].categoriaId == Some(id)
  }

  /** Some product row names supplier `id` in `proveedor_id`. */
  predicate ProveedorReferenciado(prods: map<int, Producto>, id: int)
  {
    exists k :: k in prods && prods[k].proveedorId == Some(id)
  }

  /** Some invoice row names client `id` in `cliente_id`. */
  predicate ClienteReferenciado(facts: map<int, Factura>, id: int)
  {
    exists k :: k in facts && facts[k].clienteId == id
  }

  /** Some invoice line names product `id` in `producto_id`. */
  predicate ProductoReferenciado(dets: map<int, Detalle>, id: int)
  {
    exists k :: k in dets && dets[k].productoId == id
  }

  /**
   * The FOREIGN KEY clauses of db/data_base.py, which every connection enforces
   * (`PRAGMA foreign_keys = ON`): no row names a row that does not exist.
   */
  predicate Integridad(t: Tablas)
  {
    && (forall k | k in t.productos ::
          RefValida(t.productos[k].categoriaId, t.categorias)
          && RefValida(t.productos[k].proveedorId, t.proveedores))
    && (forall k | k in t.facturas :: t.facturas[k].clienteId in t.clientes)
    && (forall k | k in t.detalles ::
          t.detalles[k].facturaId in t.facturas && t.detalles[k].productoId in t.productos)
  }

  /** The UNIQUE columns of db/data_base.py: no two categories share a name, suppliers a CUIT, clients a DNI. */
  predicate Unicidad(t: Tablas)
  {
    && (forall i, j | i in t.categorias && j in t.categorias && i != j :: t.categorias[i].nombre != t.categorias[j].nombre)
    && (forall i, j | i in t.proveedores && j in t.proveedores && i != j :: t.proveedores[i].cuit != t.proveedores[j].cuit)
    && (forall i, j | i in t.clientes && j in t.clientes && i != j :: t.clientes[i].dni != t.clientes[j].dni)
  }

  /** What the engine guarantees between statements: fresh counters, unique columns and no dangling reference. */
  predicate TablasValidas(t: Tablas)
  {
    && ClavesBajo(t.categorias, t.sigCategoria)
    && ClavesBajo(t.proveedores, t.sigProveedor)
    && ClavesBajo(t.productos, t.sigProducto)
    && ClavesBajo(t.clientes, t.sigCliente)
    && ClavesBajo(t.facturas, t.sigFactura)
    && ClavesBajo(t.detalles, t.sigDetalle)
    && Unicidad(t)
    && Integridad(t)
  }

  /** The connection `obtener_conexion()` opens: the contents of the database file. */
  class Database {
    var tablas: Tablas

    ghost predicate Valid()
      reads this
    {
      TablasValidas(tablas)
    }

    /** `crear_tablas()` on a fresh file: every table empty, every counter at 1. */
    constructor ()
      ensures Valid()
      ensures tablas == Tablas(map[], map[], map[], map[], map[], map[], 1, 1, 1, 1, 1, 1)
    {
      tablas := Tablas(map[], map[], map[], map[], map[], map[], 1, 1, 1, 1, 1, 1);
    }

    /** `conexion.rollback()`: every table back to the state taken at BEGIN. */
    method Rollback(t: Tablas)
      modifies this
      ensures tablas == t
    {
      tablas := t;
    }
  }
}
