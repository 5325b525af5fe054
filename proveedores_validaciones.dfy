/**
 * gestor_proveedores/proveedores_validaciones.py: the CUIT check, the id
 * lookup, the list of suppliers no product points to, and the test whether a
 * supplier has products.
 */
module ProveedoresValidaciones {
  import opened Opcion
  import opened Texto
  import opened BaseDatos
  import opened ProveedoresDb
  import opened ProductosDb

  /** The CUITs of a listing, in its order. */
  function Cuits(fs: seq<Fila<Proveedor>>): (r: seq<string>)
    ensures |r| == |fs|
    ensures forall i | 0 <= i < |fs| :: r[i] == fs[i].datos.cuit
  {
    if fs == [] then [] else [fs[0].datos.cuit] + Cuits(fs[1..])
  }

  /**
   * `validar_cuit`: the empty CUIT is the flag's answer; any other must be
   * eleven decimal digits and, unless it equals `cuit_actual`, held by no
   * stored supplier.
   */
  function ValidarCuit(cuit: string, cuitActual: Option<string>, permitirVacio: bool,
                       provs: map<int, Proveedor>): (ok: bool)
    ensures cuit == "" ==> (ok <==> permitirVacio)
    ensures cuit != "" ==>
              (ok <==> && |cuit| == 11 && (forall i | 0 <= i < |cuit| :: '0' <= cuit[i] <= '9')
                       && (cuitActual == Some(cuit) || !CuitUsado(provs, cuit)))
  {
    if cuit == "" then permitirVacio
    else if !SoloDigitos(cuit) || |cuit| != 11 then false
    else
      var existentes := Cuits(ListarTabla(provs));
      if cuitActual.Some? && cuit == cuitActual.value then true
      else
        assert CuitUsado(provs, cuit) <==> cuit in existentes by {
          if CuitUsado(provs, cuit) {
            var k :| k in provs && provs[k].cuit == cuit;
            ListadoCompleto(provs, k);
            var i := IndiceDe(ListarTabla(provs), Fila(k, provs[k]));
            assert existentes[i] == cuit;
          }
          if cuit in existentes {
            var i := IndiceDe(existentes, cuit);
            assert ListarTabla(provs)[i].id in provs;
          }
        }
        cuit !in existentes
  }

  /** A CUIT the check accepts for a new supplier is one `insertar_proveedor` stores. */
  lemma CuitValidoSeInserta(cuit: string, provs: map<int, Proveedor>)
    requires ValidarCuit(cuit, None, false, provs)
    ensures !CuitUsado(provs, cuit)
  {
  }

  /**
   * On an edit (`cuit_actual` is the supplier's own CUIT) an accepted non-empty
   * CUIT is one `modificar_proveedor` stores: keeping the own CUIT is no clash,
   * because no other supplier can hold it.
   */
  lemma CuitValidoSeModifica(t: Tablas, id: int, cuit: string, permitirVacio: bool)
    requires TablasValidas(t) && id in t.proveedores && cuit != ""
    requires ValidarCuit(cuit, Some(t.proveedores[id].cuit), permitirVacio, t.proveedores)
    ensures !CuitUsadoPorOtro(t.proveedores, cuit, id)
  {
    if cuit != t.proveedores[id].cuit {
      assert !CuitUsado(t.proveedores, cuit);
    } else {
      forall k | k in t.proveedores && k != id ensures t.proveedores[k].cuit != cuit {
        assert Unicidad(t);
      }
    }
  }

  /** `obtener_proveedor_por_id_validado`: all-digit text naming a stored supplier finds it; anything else finds nothing. */
  function ObtenerProveedorPorIdValidado(provs: map<int, Proveedor>, idStr: string): (r: Option<Fila<Proveedor>>)
    ensures r.Some? <==> EsNumero(idStr) && ValorDecimal(idStr) in provs
    ensures r.Some? ==> r.value.id == ValorDecimal(idStr) && r.value.datos == provs[r.value.id]
  {
    ObtenerPorIdValidado(provs, idStr)
  }

  function ProveedorDe(p: Producto): Option<int> { p.proveedorId }

  /** The supplier ids `proveedor_id` holds over the raw product listing, NULLs left out. */
  function ProveedoresUsados(prods: map<int, Producto>): set<int>
  {
    RefsDe(ListarTabla(prods), ProveedorDe)
  }

  lemma ProveedoresUsadosSonReferenciados(prods: map<int, Producto>, c: int)
    ensures c in ProveedoresUsados(prods) <==> ProveedorReferenciado(prods, c)
  {
    RefsDeTabla(prods, ProveedorDe, c);
  }

  /**
   * `listar_proveedores_eliminables`: one pass over `listar_productos_crudos()`
   * collects the non-NULL supplier ids, a second pass over `listar_proveedores()`
   * keeps the rows whose id is not among them.
   */
  method ListarProveedoresEliminables(db: Database) returns (r: seq<Fila<Proveedor>>)
    ensures r == FiltrarFilas(ListarTabla(db.tablas.proveedores), FueraDe(ProveedoresUsados(db.tablas.productos)))
  {
    var todos := ListarTabla(db.tablas.proveedores);
    var productos := ListarTabla(db.tablas.productos);
    var conProductos := RecogerRefs(productos, ProveedorDe);
    r := QuitarUsados(todos, conProductos);
  }

  /**
   * The eliminable suppliers are exactly the stored ones no product names,
   * each once, in the order of `listar_proveedores` and taken from it.
   */
  lemma ProveedoresEliminablesCorrecto(t: Tablas)
    ensures var r := FiltrarFilas(ListarTabla(t.proveedores), FueraDe(ProveedoresUsados(t.productos)));
      && IdsCrecientes(r)
      && (forall x | x in r :: x in ListarTabla(t.proveedores) && !ProveedorReferenciado(t.productos, x.id))
      && (forall k | k in t.proveedores && !ProveedorReferenciado(t.productos, k) :: Fila(k, t.proveedores[k]) in r)
  {
    var usados := ProveedoresUsados(t.productos);
    var r := FiltrarFilas(ListarTabla(t.proveedores), FueraDe(usados));
    EliminablesCorrecto(t.proveedores, usados);
    FiltrarFilasCorrecto(ListarTabla(t.proveedores), FueraDe(usados));
    forall x | x in r ensures !ProveedorReferenciado(t.productos, x.id) {
      ProveedoresUsadosSonReferenciados(t.productos, x.id);
    }
    forall k | k in t.proveedores && !ProveedorReferenciado(t.productos, k) ensures Fila(k, t.proveedores[k]) in r {
      ProveedoresUsadosSonReferenciados(t.productos, k);
    }
  }

  /**
   * `proveedor_tiene_productos` as written: it scans `listar_productos()` and
   * compares column 3 of each row, the supplier NAME, with the integer id.
   * A `str` never equals an `int`, so the scan never returns True.
   */
  method ProveedorTieneProductos(db: Database, idProveedor: int) returns (r: bool)
    ensures !r
  {
    var productos := ListarProductos(db.tablas.categorias, db.tablas.proveedores, db.tablas.productos);
    var i := 0;
    while i < |productos|
      invariant 0 <= i <= |productos|
    {
      if Cadena(productos[i].proveedor) == Entero(idProveedor) {
        return true;
      }
      i := i + 1;
    }
    r := false;
  }

  /** The scan as written says "no products" of a supplier that has one. */
  lemma ProveedorConProductosNoDetectado(t: Tablas)
    requires t.productos == map[1 := Producto("Yerba", Some(1), Some(1), 10, 150000)]
    ensures ProveedorReferenciado(t.productos, 1)
  {
    assert t.productos[1].proveedorId == Some(1);
  }

  /**
   * The documented rule: the early-return scan over the raw product rows,
   * comparing `proveedor_id` with the id. True exactly when some product names
   * the supplier, i.e. when the supplier is not eliminable.
   */
  method ProveedorTieneProductosCorregido(db: Database, idProveedor: int) returns (r: bool)
    ensures r <==> ProveedorReferenciado(db.tablas.productos, idProveedor)
    ensures r <==> idProveedor in ProveedoresUsados(db.tablas.productos)
  {
    ghost var prods := db.tablas.productos;
    var productos := ListarTabla(db.tablas.productos);
    RefsDeCorrecto(productos, ProveedorDe, idProveedor);
    ProveedoresUsadosSonReferenciados(prods, idProveedor);
    var i := 0;
    while i < |productos|
      invariant 0 <= i <= |productos|
      invariant forall j | 0 <= j < i :: ProveedorDe(productos[j].datos) != Some(idProveedor)
    {
      if productos[i].datos.proveedorId == Some(idProveedor) {
        assert ProveedorDe(productos[i].datos) == Some(idProveedor);
        return true;
      }
      i := i + 1;
    }
    r := false;
  }
}
