/**
 * gestor_categorias/categorias_validaciones.py: the id lookup, the check that
 * a category name is new up to case, accents and surrounding blanks, and the
 * list of categories no product points to.
 */
module CategoriasValidaciones {
  import opened Opcion
  import opened Texto
  import opened BaseDatos
  import opened CategoriasDb

  /** `obtener_categoria_por_id_validado`: all-digit text naming a stored category finds it; anything else finds nothing. */
  function ObtenerCategoriaPorIdValidado(cats: map<int, Categoria>, idStr: string): (r: Option<Fila<Categoria>>)
    ensures r.Some? <==> EsNumero(idStr) && ValorDecimal(idStr) in cats
    ensures r.Some? ==> r.value.id == ValorDecimal(idStr) && r.value.datos == cats[r.value.id]
  {
    ObtenerPorIdValidado(cats, idStr)
  }

  /** The normalised names of a listing, in its order. */
  function Normalizados(fs: seq<Fila<Categoria>>): (r: seq<string>)
    ensures |r| == |fs|
    ensures forall i | 0 <= i < |fs| :: r[i] == Normalizar(fs[i].datos.nombre)
  {
    if fs == [] then [] else [Normalizar(fs[0].datos.nombre)] + Normalizados(fs[1..])
  }

  /** Some stored category has the same normalised name. */
  predicate Choca(cats: map<int, Categoria>, nombre: string)
  {
    exists k :: k in cats && Normalizar(cats[k].nombre) == Normalizar(nombre)
  }

  /** A non-empty `nombre_actual` that normalises like the new name: the edit keeps its own name. */
  predicate EsElActual(nombre: string, nombreActual: Option<string>)
  {
    nombreActual.Some? && nombreActual.value != "" && Normalizar(nombre) == Normalizar(nombreActual.value)
  }

  /**
   * `validar_nombre_categoria`: the empty name is refused; a name that is the
   * current one is accepted; any other name is accepted exactly when no stored
   * category has the same normalised name.
   */
  function ValidarNombreCategoria(nombre: string, nombreActual: Option<string>, cats: map<int, Categoria>): (ok: bool)
    ensures ok <==> nombre != "" && (EsElActual(nombre, nombreActual) || !Choca(cats, nombre))
  {
    if nombre == "" then false
    else
      var existentes := Normalizados(ListarTabla(cats));
      if EsElActual(nombre, nombreActual) then true
      else
        assert Choca(cats, nombre) <==> Normalizar(nombre) in existentes by {
          if Choca(cats, nombre) {
            var k :| k in cats && Normalizar(cats[k].nombre) == Normalizar(nombre);
            ListadoCompleto(cats, k);
            var i := IndiceDe(ListarTabla(cats), Fila(k, cats[k]));
            assert existentes[i] == Normalizar(nombre);
          }
          if Normalizar(nombre) in existentes {
            var i := IndiceDe(existentes, Normalizar(nombre));
            assert ListarTabla(cats)[i].id in cats;
          }
        }
        Normalizar(nombre) !in existentes
  }

  /**
   * The check is stricter than the UNIQUE column: a name it accepts for a new
   * category is one `insertar_categoria` stores.
   */
  lemma NombreValidoSeInserta(nombre: string, cats: map<int, Categoria>)
    requires ValidarNombreCategoria(nombre, None, cats)
    ensures !NombreUsado(cats, nombre)
  {
  }

  /**
   * Names that differ only in case or accents are the same name to the check:
   * without `nombre_actual`, re-typing a stored name, or a variant of it, is refused.
   */
  lemma ChocaSinDistinguirMayusculas(cats: map<int, Categoria>, id: int, nombre: string)
    requires id in cats && Normalizar(nombre) == Normalizar(cats[id].nombre)
    ensures !ValidarNombreCategoria(nombre, None, cats)
  {
  }

  /**
   * Given the category's own name as `nombre_actual`, an edit that keeps that
   * name, or changes only its case or accents, is accepted.
   */
  lemma EdicionConservaNombre(cats: map<int, Categoria>, id: int, nombre: string)
    requires id in cats && nombre != "" && cats[id].nombre != ""
    requires Normalizar(nombre) == Normalizar(cats[id].nombre)
    ensures ValidarNombreCategoria(nombre, Some(cats[id].nombre), cats)
  {
  }

  function CategoriaDe(p: Producto): Option<int> { p.categoriaId }

  /** The category ids `categoria_id` holds over the raw product listing, NULLs left out. */
  function CategoriasUsadas(prods: map<int, Producto>): set<int>
  {
    RefsDe(ListarTabla(prods), CategoriaDe)
  }

  lemma CategoriasUsadasSonReferenciadas(prods: map<int, Producto>, c: int)
    ensures c in CategoriasUsadas(prods) <==> CategoriaReferenciada(prods, c)
  {
    RefsDeTabla(prods, CategoriaDe, c);
  }

  /**
   * `listar_categorias_eliminables`: one pass over `listar_productos_crudos()`
   * collects the non-NULL category ids, a second pass over `listar_categorias()`
   * keeps the rows whose id is not among them.
   */
  method ListarCategoriasEliminables(db: Database) returns (r: seq<Fila<Categoria>>)
    ensures r == FiltrarFilas(ListarTabla(db.tablas.categorias), FueraDe(CategoriasUsadas(db.tablas.productos)))
  {
    var todas := ListarTabla(db.tablas.categorias);
    var productos := ListarTabla(db.tablas.productos);
    var conProductos := RecogerRefs(productos, CategoriaDe);
    r := QuitarUsados(todas, conProductos);
  }

  /**
   * The eliminable categories are exactly the stored ones no product names,
   * each once, in the order of `listar_categorias` and taken from it.
   */
  lemma CategoriasEliminablesCorrecto(t: Tablas)
    ensures var r := FiltrarFilas(ListarTabla(t.categorias), FueraDe(CategoriasUsadas(t.productos)));
      && IdsCrecientes(r)
      && (forall x | x in r :: x in ListarTabla(t.categorias) && !CategoriaReferenciada(t.productos, x.id))
      && (forall k | k in t.categorias && !CategoriaReferenciada(t.productos, k) :: Fila(k, t.categorias[k]) in r)
  {
    var usados := CategoriasUsadas(t.productos);
    var r := FiltrarFilas(ListarTabla(t.categorias), FueraDe(usados));
    EliminablesCorrecto(t.categorias, usados);
    FiltrarFilasCorrecto(ListarTabla(t.categorias), FueraDe(usados));
    forall x | x in r ensures !CategoriaReferenciada(t.productos, x.id) {
      CategoriasUsadasSonReferenciadas(t.productos, x.id);
    }
    forall k | k in t.categorias && !CategoriaReferenciada(t.productos, k) ensures Fila(k, t.categorias[k]) in r {
      CategoriasUsadasSonReferenciadas(t.productos, k);
    }
  }
}
