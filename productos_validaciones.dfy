/**
 * gestor_productos/productos_validaciones.py: the id lookup through
 * `listar_tabla_producto`, and the stock and price checks of the product forms.
 */
module ProductosValidaciones {
  import opened Opcion
  import opened Texto
  import opened BaseDatos
  import opened ProductosDb

  /**
   * `obtener_producto_por_id_validado`: text that is not all decimal digits finds
   * nothing; otherwise the row `listar_tabla_producto` returns for that id.
   */
  function ObtenerProductoPorIdValidado(prods: map<int, Producto>, idStr: string): (r: Option<Fila<Producto>>)
    ensures r.Some? <==> EsNumero(idStr) && ValorDecimal(idStr) in prods
    ensures r.Some? ==> r.value.id == ValorDecimal(idStr) && r.value.datos == prods[r.value.id]
  {
    if !EsNumero(idStr) then None else ListarTablaProducto(prods, ValorDecimal(idStr))
  }

  /** The id the program prints for a stored product is found again, whatever its other columns. */
  lemma ProductoPorIdDeStr(prods: map<int, Producto>, id: int)
    requires id in prods && id >= 0
    ensures ObtenerProductoPorIdValidado(prods, StrEntero(id)) == Some(Fila(id, prods[id]))
  {
    StrEnteroEsNumero(id);
  }

  /**
   * `validar_stock`: `int()` of the text, which ignores surrounding blanks; a
   * negative value, or text that is no integer (ValueError), gives None.
   */
  function ValidarStock(stockStr: string): (r: Option<int>)
    ensures r.Some? <==> ParseEntero(Recortar(stockStr)).Some? && ParseEntero(Recortar(stockStr)).value >= 0
    ensures r.Some? ==> r.value >= 0 && r == ParseEntero(Recortar(stockStr))
  {
    match ParseEntero(Recortar(stockStr))
    case None => None
    case Some(v) => if v < 0 then None else Some(v)
  }

  /** What `str` writes has no blank at either end. */
  lemma RecortarStrEntero(i: int)
    ensures Recortar(StrEntero(i)) == StrEntero(i)
  {
    var s := StrEntero(i);
    if i < 0 {
      assert s[0] == '-';
    }
    assert EsNumero(Decimal(if i < 0 then -i else i));
    assert !EsEspacio(s[0]) && !EsEspacio(s[|s| - 1]);
  }

  /**
   * The stock check reads back every count the program writes: a non-negative
   * value is accepted as itself, a negative one is refused.
   */
  lemma ValidarStockDeStr(i: int)
    ensures ValidarStock(StrEntero(i)) == if i >= 0 then Some(i) else None
  {
    RecortarStrEntero(i);
    ParseEnteroDeStr(i);
  }

  /**
   * `validar_precio`, the positivity rule: `precio` is what `float()` read
   * (None for ValueError), in cents; only a strictly positive price passes.
   */
  function ValidarPrecio(precio: Option<int>): (r: Option<int>)
    ensures r.Some? <==> precio.Some? && precio.value > 0
    ensures r.Some? ==> r == precio
  {
    match precio
    case None => None
    case Some(p) => if p <= 0 then None else Some(p)
  }
}
