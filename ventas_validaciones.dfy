/**
 * gestor_ventas/ventas_validaciones.py: `cargar_productos_para_venta`, the
 * dialogue that builds the item list of a sale. The keyboard is the sequence
 * `entradas` of the lines typed, in order; each is stripped as the prompt
 * helper does. Running out of lines is the EOFError `input()` raises, which
 * this function does not catch.
 */
module VentasValidaciones {
  import opened Opcion
  import opened Texto
  import opened BaseDatos
  import opened ProductosDb
  import opened ProductosValidaciones

  /** One `{"producto_id": ..., "cantidad": ...}` of the list. */
  datatype Item = Item(productoId: int, cantidad: int)

  /** How the dialogue ends. */
  datatype Carga =
    | Cancelado
    | Cargados(items: seq<Item>)
      /** The typed lines ran out: EOFError escapes the function. */
    | EntradaAgotada

  /** Which question the dialogue is waiting on. */
  datatype Fase = PidiendoId | PidiendoCantidad(elegido: Fila<Producto>) | PidiendoSeguir

  /** Units of product `pid` the items ask for. */
  function SumaCantidades(items: seq<Item>, pid: int): int
  {
    if items == [] then 0
    else
      var ultimo := items[|items| - 1];
      SumaCantidades(items[..|items| - 1], pid) + (if ultimo.productoId == pid then ultimo.cantidad else 0)
  }

  /**
   * The largest quantity accepted for the chosen product: its stock as read
   * at selection (`acumulado` false, as written), or that stock minus what the
   * list already holds of it (`acumulado` true).
   */
  function Tope(elegido: Fila<Producto>, items: seq<Item>, acumulado: bool): int
  {
    if acumulado then elegido.datos.stock - SumaCantidades(items, elegido.id) else elegido.datos.stock
  }

  /** `return productos if productos else "CANCELADO"`. */
  function Final(items: seq<Item>): Carga
  {
    if items == [] then Cancelado else Cargados(items)
  }

  /** The dialogue from phase `fase`, with `items` chosen so far, answering the lines `entradas`. */
  function Dialogo(prods: map<int, Producto>, fase: Fase, items: seq<Item>, entradas: seq<string>,
                   acumulado: bool): Carga
    decreases |entradas|
  {
    if entradas == [] then EntradaAgotada
    else
      var e := Recortar(entradas[0]);
      var resto := entradas[1..];
      match fase
      case PidiendoId =>
        if EsCancelar(e) then Cancelado
        else
          var elegido := ObtenerProductoPorIdValidado(prods, e);
          if elegido.None? then Dialogo(prods, PidiendoId, items, resto, acumulado)
          else Dialogo(prods, PidiendoCantidad(elegido.value), items, resto, acumulado)
      case PidiendoCantidad(p) =>
        if EsCancelar(e) then Cancelado
        else if !EsNumero(e) then Dialogo(prods, fase, items, resto, acumulado)
        else
          var cantidad := ValorDecimal(e);
          if cantidad <= 0 || cantidad > Tope(p, items, acumulado) then Dialogo(prods, fase, items, resto, acumulado)
          else Dialogo(prods, PidiendoSeguir, items + [Item(p.id, cantidad)], resto, acumulado)
      case PidiendoSeguir =>
        if EsSeguir(e) then Dialogo(prods, PidiendoId, items, resto, acumulado) else Final(items)
  }

  /** The whole function: no joined product at all cancels before the first question. */
  function Cargar(t: Tablas, entradas: seq<string>, acumulado: bool): Carga
  {
    if ListarProductos(t.categorias, t.proveedores, t.productos) == [] then Cancelado
    else Dialogo(t.productos, PidiendoId, [], entradas, acumulado)
  }

  /** One answer to the id question. */
  lemma PasoId(prods: map<int, Producto>, items: seq<Item>, entradas: seq<string>, pos: int, acumulado: bool)
    requires 0 <= pos < |entradas|
    ensures var e := Recortar(entradas[pos]);
      var elegido := ObtenerProductoPorIdValidado(prods, e);
      Dialogo(prods, PidiendoId, items, entradas[pos..], acumulado)
      == if EsCancelar(e) then Cancelado
         else if elegido.None? then Dialogo(prods, PidiendoId, items, entradas[pos + 1..], acumulado)
         else Dialogo(prods, PidiendoCantidad(elegido.value), items, entradas[pos + 1..], acumulado)
  {
    assert entradas[pos..][1..] == entradas[pos + 1..];
  }

  /** One answer to the quantity question. */
  lemma PasoCantidad(prods: map<int, Producto>, p: Fila<Producto>, items: seq<Item>, entradas: seq<string>, pos: int,
                     acumulado: bool)
    requires 0 <= pos < |entradas|
    ensures var e := Recortar(entradas[pos]);
      var fase := PidiendoCantidad(p);
      Dialogo(prods, fase, items, entradas[pos..], acumulado)
      == if EsCancelar(e) then Cancelado
         else if !EsNumero(e) || ValorDecimal(e) <= 0 || ValorDecimal(e) > Tope(p, items, acumulado)
         then Dialogo(prods, fase, items, entradas[pos + 1..], acumulado)
         else Dialogo(prods, PidiendoSeguir, items + [Item(p.id, ValorDecimal(e))], entradas[pos + 1..], acumulado)
  {
    assert entradas[pos..][1..] == entradas[pos + 1..];
  }

  /** One answer to "add another?". */
  lemma PasoSeguir(prods: map<int, Producto>, items: seq<Item>, entradas: seq<string>, pos: int, acumulado: bool)
    requires 0 <= pos < |entradas|
    ensures Dialogo(prods, PidiendoSeguir, items, entradas[pos..], acumulado)
            == if EsSeguir(Recortar(entradas[pos])) then Dialogo(prods, PidiendoId, items, entradas[pos + 1..], acumulado)
               else Final(items)
  {
    assert entradas[pos..][1..] == entradas[pos + 1..];
  }

  /**
   * The inner loop of `cargar_productos_para_venta`: ask for a quantity of the
   * chosen product until one is all digits, positive and at most the stock read
   * at selection. `fin` is the end of the dialogue when the lines run out or
   * the user cancels; otherwise the quantity and the position after it.
   */
  method PedirCantidad(prods: map<int, Producto>, p: Fila<Producto>, productos: seq<Item>,
                       entradas: seq<string>, desde: int)
    returns (fin: Option<Carga>, cantidad: int, pos: int)
    requires 0 <= desde <= |entradas|
    ensures fin.Some? ==> fin.value == Dialogo(prods, PidiendoCantidad(p), productos, entradas[desde..], false)
    ensures fin.None? ==> && desde < pos <= |entradas|
                          && Dialogo(prods, PidiendoCantidad(p), productos, entradas[desde..], false)
                             == Dialogo(prods, PidiendoSeguir, productos + [Item(p.id, cantidad)], entradas[pos..], false)
  {
    ghost var objetivo := Dialogo(prods, PidiendoCantidad(p), productos, entradas[desde..], false);
    var stockDisponible := p.datos.stock;
    pos := desde;
    while true
      invariant desde <= pos <= |entradas|
      invariant Dialogo(prods, PidiendoCantidad(p), productos, entradas[pos..], false) == objetivo
      decreases |entradas| - pos
    {
      if pos == |entradas| {
        return Some(EntradaAgotada), 0, pos;
      }
      PasoCantidad(prods, p, productos, entradas, pos, false);
      var cantidadInput := Recortar(entradas[pos]);
      pos := pos + 1;
      if EsCancelar(cantidadInput) {
        return Some(Cancelado), 0, pos;
      }
      if !EsNumero(cantidadInput) {
        continue;
      }
      cantidad := ValorDecimal(cantidadInput);
      if cantidad <= 0 || cantidad > stockDisponible {
        continue;
      }
      return None, cantidad, pos;
    }
  }

  /**
   * The rest of a round once a product is chosen: the quantity loop, the item
   * appended, and the question "add another?"; `fin` is the end of the
   * dialogue, when there is one.
   */
  method Completar(prods: map<int, Producto>, p: Fila<Producto>, productos: seq<Item>, entradas: seq<string>, desde: int)
    returns (fin: Option<Carga>, nuevos: seq<Item>, pos: int)
    requires 0 <= desde <= |entradas|
    ensures fin.Some? ==> fin.value == Dialogo(prods, PidiendoCantidad(p), productos, entradas[desde..], false)
    ensures fin.None? ==> && desde < pos <= |entradas|
                          && Dialogo(prods, PidiendoId, nuevos, entradas[pos..], false)
                             == Dialogo(prods, PidiendoCantidad(p), productos, entradas[desde..], false)
  {
    var cantidad;
    fin, cantidad, pos := PedirCantidad(prods, p, productos, entradas, desde);
    nuevos := productos;
    if fin.Some? {
      return;
    }
    nuevos := productos + [Item(p.id, cantidad)];
    if pos == |entradas| {
      return Some(EntradaAgotada), nuevos, pos;
    }
    PasoSeguir(prods, nuevos, entradas, pos, false);
    var continuar := Recortar(entradas[pos]);
    pos := pos + 1;
    if !EsSeguir(continuar) {
      fin := Some(Final(nuevos));
    }
  }

  /**
   * One round of the outer loop of `cargar_productos_para_venta`: ask for a
   * product id; an invalid one ends the round, to be asked again, a valid one
   * goes on to the quantity.
   */
  method Ronda(prods: map<int, Producto>, productos: seq<Item>, entradas: seq<string>, desde: int)
    returns (fin: Option<Carga>, nuevos: seq<Item>, pos: int)
    requires 0 <= desde < |entradas|
    ensures fin.Some? ==> fin.value == Dialogo(prods, PidiendoId, productos, entradas[desde..], false)
    ensures fin.None? ==> && desde < pos <= |entradas|
                          && Dialogo(prods, PidiendoId, nuevos, entradas[pos..], false)
                             == Dialogo(prods, PidiendoId, productos, entradas[desde..], false)
  {
    PasoId(prods, productos, entradas, desde, false);
    var idProducto := Recortar(entradas[desde]);
    pos := desde + 1;
    nuevos := productos;
    if EsCancelar(idProducto) {
      return Some(Cancelado), nuevos, pos;
    }
    var elegido := ObtenerProductoPorIdValidado(prods, idProducto);
    if elegido.None? {
      return None, nuevos, pos;
    }
    fin, nuevos, pos := Completar(prods, elegido.value, productos, entradas, pos);
  }

  /** The outer loop of `cargar_productos_para_venta`, round after round until the dialogue ends. */
  method Dialogar(prods: map<int, Producto>, entradas: seq<string>) returns (r: Carga)
    ensures r == Dialogo(prods, PidiendoId, [], entradas, false)
  {
    assert entradas[0..] == entradas;
    var productos: seq<Item> := [];
    var pos := 0;
    while true
      invariant 0 <= pos <= |entradas|
      invariant Dialogo(prods, PidiendoId, productos, entradas[pos..], false)
                == Dialogo(prods, PidiendoId, [], entradas, false)
      decreases |entradas| - pos
    {
      if pos == |entradas| {
        return EntradaAgotada;
      }
      var fin;
      fin, productos, pos := Ronda(prods, productos, entradas, pos);
      if fin.Some? {
        return fin.value;
      }
    }
  }

  /**
   * `cargar_productos_para_venta`: with no joined product to show it cancels
   * at once; otherwise the dialogue decides.
   */
  method CargarProductosParaVenta(db: Database, entradas: seq<string>) returns (r: Carga)
    ensures r == Cargar(db.tablas, entradas, false)
  {
    var disponibles := ListarProductos(db.tablas.categorias, db.tablas.proveedores, db.tablas.productos);
    if disponibles == [] {
      return Cancelado;
    }
    r := Dialogar(db.tablas.productos, entradas);
  }

  /** An item the inner loop accepts: a stored product and 0 < cantidad <= its stock. */
  predicate ItemAceptado(prods: map<int, Producto>, it: Item)
  {
    it.productoId in prods && 0 < it.cantidad <= prods[it.productoId].stock
  }

  /** The product chosen at the id question is a stored row, as the lookup returned it. */
  predicate FaseValida(prods: map<int, Producto>, fase: Fase)
  {
    fase.PidiendoCantidad? ==> fase.elegido.id in prods && fase.elegido.datos == prods[fase.elegido.id]
  }

  lemma {:induction false} SumaNoNegativa(prods: map<int, Producto>, items: seq<Item>, pid: int)
    requires forall i | 0 <= i < |items| :: ItemAceptado(prods, items[i])
    ensures SumaCantidades(items, pid) >= 0
  {
    if items != [] {
      SumaNoNegativa(prods, items[..|items| - 1], pid);
    }
  }

  /**
   * Whatever is typed, a list the dialogue returns is non-empty, keeps the items
   * chosen before, and every item in it names a stored product with a quantity
   * between 1 and that product's stock.
   */
  lemma {:induction false} DialogoAceptaSoloValidos(prods: map<int, Producto>, fase: Fase, items: seq<Item>,
                                                    entradas: seq<string>, acumulado: bool)
    requires FaseValida(prods, fase)
    requires forall i | 0 <= i < |items| :: ItemAceptado(prods, items[i])
    requires fase.PidiendoSeguir? ==> items != []
    ensures var r := Dialogo(prods, fase, items, entradas, acumulado);
      r.Cargados? ==> && r.items != [] && items <= r.items
                      && forall i | 0 <= i < |r.items| :: ItemAceptado(prods, r.items[i])
    decreases |entradas|
  {
    if entradas != [] {
      var e := Recortar(entradas[0]);
      var resto := entradas[1..];
      match fase
      case PidiendoId =>
        if !EsCancelar(e) {
          var elegido := ObtenerProductoPorIdValidado(prods, e);
          if elegido.None? {
            DialogoAceptaSoloValidos(prods, PidiendoId, items, resto, acumulado);
          } else {
            DialogoAceptaSoloValidos(prods, PidiendoCantidad(elegido.value), items, resto, acumulado);
          }
        }
      case PidiendoCantidad(p) =>
        if !EsCancelar(e) {
          if !EsNumero(e) {
            DialogoAceptaSoloValidos(prods, fase, items, resto, acumulado);
          } else {
            var cantidad := ValorDecimal(e);
            if cantidad <= 0 || cantidad > Tope(p, items, acumulado) {
              DialogoAceptaSoloValidos(prods, fase, items, resto, acumulado);
            } else {
              SumaNoNegativa(prods, items, p.id);
              var nuevos := items + [Item(p.id, cantidad)];
              assert ItemAceptado(prods, nuevos[|items|]);
              DialogoAceptaSoloValidos(prods, PidiendoSeguir, nuevos, resto, acumulado);
            }
          }
        }
      case PidiendoSeguir =>
        if EsSeguir(e) {
          DialogoAceptaSoloValidos(prods, PidiendoId, items, resto, acumulado);
        }
    }
  }

  /** The list `cargar_productos_para_venta` returns is non-empty and every item in it passed the quantity rule. */
  lemma CargaAceptaSoloValidos(t: Tablas, entradas: seq<string>, acumulado: bool)
    ensures var r := Cargar(t, entradas, acumulado);
      r.Cargados? ==> r.items != [] && forall i | 0 <= i < |r.items| :: ItemAceptado(t.productos, r.items[i])
  {
    DialogoAceptaSoloValidos(t.productos, PidiendoId, [], entradas, acumulado);
  }

  /** A quantity answer that is not all digits is ignored: the same question is asked again. */
  lemma CantidadNoNumericaSeIgnora(prods: map<int, Producto>, p: Fila<Producto>, items: seq<Item>, e: string,
                                   resto: seq<string>, acumulado: bool)
    requires !EsCancelar(Recortar(e)) && !EsNumero(Recortar(e))
    ensures Dialogo(prods, PidiendoCantidad(p), items, [e] + resto, acumulado)
            == Dialogo(prods, PidiendoCantidad(p), items, resto, acumulado)
  {
    assert ([e] + resto)[1..] == resto;
  }

  /** No product of the list is asked for in more units than it has in stock. */
  predicate NoSobrevende(prods: map<int, Producto>, items: seq<Item>)
  {
    forall k | k in prods :: SumaCantidades(items, k) == 0 || SumaCantidades(items, k) <= prods[k].stock
  }

  lemma SumaAlAgregar(items: seq<Item>, it: Item, pid: int)
    ensures SumaCantidades(items + [it], pid)
            == SumaCantidades(items, pid) + (if it.productoId == pid then it.cantidad else 0)
  {
    assert (items + [it])[..|items|] == items;
  }

  /** With the quantity bounded by what is left of the stock, the list never oversells. */
  lemma {:induction false} DialogoAcumuladoNoSobrevende(prods: map<int, Producto>, fase: Fase, items: seq<Item>,
                                                        entradas: seq<string>)
    requires FaseValida(prods, fase)
    requires forall i | 0 <= i < |items| :: ItemAceptado(prods, items[i])
    requires NoSobrevende(prods, items)
    ensures var r := Dialogo(prods, fase, items, entradas, true);
      r.Cargados? ==> NoSobrevende(prods, r.items)
    decreases |entradas|
  {
    if entradas != [] {
      var e := Recortar(entradas[0]);
      var resto := entradas[1..];
      match fase
      case PidiendoId =>
        if !EsCancelar(e) {
          var elegido := ObtenerProductoPorIdValidado(prods, e);
          if elegido.None? {
            DialogoAcumuladoNoSobrevende(prods, PidiendoId, items, resto);
          } else {
            DialogoAcumuladoNoSobrevende(prods, PidiendoCantidad(elegido.value), items, resto);
          }
        }
      case PidiendoCantidad(p) =>
        if !EsCancelar(e) {
          if !EsNumero(e) {
            DialogoAcumuladoNoSobrevende(prods, fase, items, resto);
          } else {
            var cantidad := ValorDecimal(e);
            if cantidad <= 0 || cantidad > Tope(p, items, true) {
              DialogoAcumuladoNoSobrevende(prods, fase, items, resto);
            } else {
              SumaNoNegativa(prods, items, p.id);
              var it := Item(p.id, cantidad);
              var nuevos := items + [it];
              forall k | k in prods
                ensures SumaCantidades(nuevos, k) == 0 || SumaCantidades(nuevos, k) <= prods[k].stock
              {
                SumaAlAgregar(items, it, k);
              }
              assert ItemAceptado(prods, nuevos[|items|]);
              DialogoAcumuladoNoSobrevende(prods, PidiendoSeguir, nuevos, resto);
            }
          }
        }
      case PidiendoSeguir =>
        if EsSeguir(e) {
          DialogoAcumuladoNoSobrevende(prods, PidiendoId, items, resto);
        }
    }
  }

  /**
   * The loader with the intended bound: a quantity is accepted only up to the
   * stock left after the items already in the list. Its list never asks for
   * more of a product than the product has.
   */
  function CargarCorregido(t: Tablas, entradas: seq<string>): (r: Carga)
    ensures r.Cargados? ==> NoSobrevende(t.productos, r.items)
    ensures r.Cargados? ==> r.items != [] && forall i | 0 <= i < |r.items| :: ItemAceptado(t.productos, r.items[i])
  {
    DialogoAcumuladoNoSobrevende(t.productos, PidiendoId, [], entradas);
    CargaAceptaSoloValidos(t, entradas, true);
    Cargar(t, entradas, true)
  }

  /** The sample tables of the oversell example: one product with five units, category and supplier stored. */
  predicate TablasDeEjemplo(t: Tablas)
  {
    && t.categorias == map[1 := Categoria("Almacen")]
    && t.proveedores == map[1 := Proveedor("Don Pedro", "", "", "")]
    && t.productos == map[1 := Producto("Yerba", Some(1), Some(1), 5, 150000)]
  }

  lemma EjemploListado(t: Tablas)
    requires TablasDeEjemplo(t)
    ensures ListarProductos(t.categorias, t.proveedores, t.productos) != []
  {
    ListarProductosCorrecto(t.categorias, t.proveedores, t.productos);
    assert Resuelve(t.productos[1], t.categorias, t.proveedores);
  }

  lemma EjemploLineas()
    ensures Recortar("1") == "1" && Recortar("5") == "5" && Recortar("s") == "s" && Recortar("n") == "n"
    ensures EsNumero("5") && ValorDecimal("5") == 5 && !EsNumero("n")
  {
    assert "5"[..0] == [];
  }

  lemma EjemploElegido(t: Tablas)
    requires TablasDeEjemplo(t)
    ensures ObtenerProductoPorIdValidado(t.productos, "1") == Some(Fila(1, t.productos[1]))
  {
    assert ValorDecimal("1") == 1 by {
      assert "1"[..0] == [];
    }
  }

  /** The facts about the sample tables and typed lines both example lemmas use. */
  lemma HechosDelEjemplo(t: Tablas)
    requires TablasDeEjemplo(t)
    ensures ListarProductos(t.categorias, t.proveedores, t.productos) != []
    ensures Recortar("1") == "1" && Recortar("5") == "5" && Recortar("s") == "s" && Recortar("n") == "n"
    ensures EsNumero("5") && ValorDecimal("5") == 5 && !EsNumero("n")
    ensures ObtenerProductoPorIdValidado(t.productos, "1") == Some(Fila(1, t.productos[1]))
    ensures SumaCantidades([Item(1, 5)], 1) == 5
  {
    EjemploListado(t);
    EjemploLineas();
    EjemploElegido(t);
    assert [Item(1, 5)][..0] == [];
  }

  /** The typed lines of the example: product 1, five units, yes, product 1, five units, no. */
  predicate LineasDeEjemplo(es: seq<string>)
  {
    |es| == 6 && es[0] == "1" && es[1] == "5" && es[2] == "s" && es[3] == "1" && es[4] == "5" && es[5] == "n"
  }

  /** The first round of the example is the same for both loaders: five units of product 1 go in. */
  lemma EjemploPrimeraRonda(t: Tablas, es: seq<string>, acumulado: bool)
    requires TablasDeEjemplo(t) && LineasDeEjemplo(es)
    ensures Cargar(t, es, acumulado) == Dialogo(t.productos, PidiendoId, [Item(1, 5)], es[3..], acumulado)
  {
    var prods := t.productos;
    var p := Fila(1, prods[1]);
    var uno := [Item(1, 5)];
    HechosDelEjemplo(t);
    calc {
      Cargar(t, es, acumulado);
      { assert es[0..] == es; }
      Dialogo(prods, PidiendoId, [], es[0..], acumulado);
      { PasoId(prods, [], es, 0, acumulado); }
      Dialogo(prods, PidiendoCantidad(p), [], es[1..], acumulado);
      { PasoCantidad(prods, p, [], es, 1, acumulado); assert [] + [Item(p.id, 5)] == uno; }
      Dialogo(prods, PidiendoSeguir, uno, es[2..], acumulado);
      { PasoSeguir(prods, uno, es, 2, acumulado); }
      Dialogo(prods, PidiendoId, uno, es[3..], acumulado);
    }
  }

  /**
   * The loader as written bounds every quantity by the stock read at selection,
   * not by what is left after the items already chosen: with five units of one
   * product, choosing it twice with five units each is accepted, ten units in all.
   */
  lemma SobreventaComoEscrito(t: Tablas, es: seq<string>)
    requires TablasDeEjemplo(t) && LineasDeEjemplo(es)
    ensures Cargar(t, es, false) == Cargados([Item(1, 5), Item(1, 5)])
    ensures SumaCantidades([Item(1, 5), Item(1, 5)], 1) > t.productos[1].stock
  {
    var prods := t.productos;
    var p := Fila(1, prods[1]);
    var uno := [Item(1, 5)];
    var dos := [Item(1, 5), Item(1, 5)];
    HechosDelEjemplo(t);
    assert SumaCantidades(dos, 1) == 10 by {
      assert dos[..1] == uno;
    }
    calc {
      Cargar(t, es, false);
      { EjemploPrimeraRonda(t, es, false); }
      Dialogo(prods, PidiendoId, uno, es[3..], false);
      { PasoId(prods, uno, es, 3, false); }
      Dialogo(prods, PidiendoCantidad(p), uno, es[4..], false);
      { PasoCantidad(prods, p, uno, es, 4, false); assert uno + [Item(p.id, 5)] == dos; }
      Dialogo(prods, PidiendoSeguir, dos, es[5..], false);
      { PasoSeguir(prods, dos, es, 5, false); }
      Cargados(dos);
    }
  }

  /**
   * On the same tables and lines the corrected loader refuses the second five
   * units, since none are left, and keeps asking until the lines run out.
   */
  lemma CorregidoNoSobrevende(t: Tablas, es: seq<string>)
    requires TablasDeEjemplo(t) && LineasDeEjemplo(es)
    ensures CargarCorregido(t, es) == EntradaAgotada
  {
    var prods := t.productos;
    var p := Fila(1, prods[1]);
    var uno := [Item(1, 5)];
    HechosDelEjemplo(t);
    calc {
      Cargar(t, es, true);
      { EjemploPrimeraRonda(t, es, true); }
      Dialogo(prods, PidiendoId, uno, es[3..], true);
      { PasoId(prods, uno, es, 3, true); }
      Dialogo(prods, PidiendoCantidad(p), uno, es[4..], true);
      { PasoCantidad(prods, p, uno, es, 4, true); }
      Dialogo(prods, PidiendoCantidad(p), uno, es[5..], true);
      { PasoCantidad(prods, p, uno, es, 5, true); }
      Dialogo(prods, PidiendoCantidad(p), uno, es[6..], true);
      { assert es[6..] == []; }
      EntradaAgotada;
    }
  }
}
