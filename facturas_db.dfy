/**
 * gestor_ventas/facturas_db.py: the three writers a sale runs inside its
 * transaction (invoice header, invoice line, stock decrement) and the two
 * invoice queries.
 */
module FacturasDb {
  import opened Opcion
  import opened Texto
  import opened BaseDatos
  import opened ProductosDb

  /**
   * `insertar_factura`: reads the client's current name, email and DNI and stores
   * them with the new header under a fresh id, which it returns. A missing client
   * raises ValueError, here the None result, and nothing is written.
   */
  method InsertarFactura(db: Database, fecha: string, clienteId: int, total: int) returns (r: Option<int>)
    requires db.Valid()
    modifies db
    ensures db.Valid()
    ensures r.Some? <==> clienteId in old(db.tablas.clientes)
    ensures r.Some? ==> var t := old(db.tablas);
              && r.value == t.sigFactura && r.value !in t.facturas
              && db.tablas == t.(facturas := t.facturas[r.value := FacturaDe(t.clientes, fecha, clienteId, total)],
                                 sigFactura := t.sigFactura + 1)
    ensures r.None? ==> db.tablas == old(db.tablas)
  {
    var t := db.tablas;
    if clienteId !in t.clientes {
      return None;
    }
    r := Some(t.sigFactura);
    db.tablas := t.(facturas := t.facturas[t.sigFactura := FacturaDe(t.clientes, fecha, clienteId, total)],
                    sigFactura := t.sigFactura + 1);
  }

  /** The header `insertar_factura` stores: the client's name, email and DNI as they are now. */
  function FacturaDe(cls: map<int, Cliente>, fecha: string, clienteId: int, total: int): Factura
    requires clienteId in cls
  {
    Factura(fecha, clienteId, cls[clienteId].nombre, cls[clienteId].email, cls[clienteId].dni, total)
  }

  /** How `insertar_factura_detalle` ends. */
  datatype ResultadoDetalle =
    | DetalleInsertado
      /** The join found no product, category or supplier: ValueError, which escapes. */
    | DatosNoEncontrados
      /** The engine refused the INSERT (the invoice does not exist): logged, and None is returned as on success. */
    | DetalleRechazado

  /** The line `insertar_factura_detalle` stores: the given numbers and the three names the join reads. */
  function DetalleDe(t: Tablas, facturaId: int, productoId: int, cantidad: int, precio: int, totalLinea: int): Detalle
    requires productoId in t.productos && Resuelve(t.productos[productoId], t.categorias, t.proveedores)
  {
    var p := t.productos[productoId];
    Detalle(facturaId, productoId, cantidad, precio, totalLinea, p.nombre,
            t.categorias[p.categoriaId.value].nombre, t.proveedores[p.proveedorId.value].nombre)
  }

  /** The product and both names it points to are there: the join of `insertar_factura_detalle` finds its row. */
  predicate Congelable(t: Tablas, productoId: int)
  {
    productoId in t.productos && Resuelve(t.productos[productoId], t.categorias, t.proveedores)
  }

  /**
   * `insertar_factura_detalle`: one new line under a fresh id that stores the given
   * quantity, unit price and line total unchanged and freezes the product,
   * category and supplier names.
   */
  method InsertarFacturaDetalle(db: Database, facturaId: int, productoId: int, cantidad: int, precio: int,
                                totalLinea: int) returns (r: ResultadoDetalle)
    requires db.Valid()
    modifies db
    ensures db.Valid()
    ensures r == DatosNoEncontrados <==> !Congelable(old(db.tablas), productoId)
    ensures r == DetalleRechazado <==> Congelable(old(db.tablas), productoId) && facturaId !in old(db.tablas.facturas)
    ensures r == DetalleInsertado ==> var t := old(db.tablas);
              && t.sigDetalle !in t.detalles
              && db.tablas == t.(detalles := t.detalles[t.sigDetalle :=
                                   DetalleDe(t, facturaId, productoId, cantidad, precio, totalLinea)],
                                 sigDetalle := t.sigDetalle + 1)
    ensures r != DetalleInsertado ==> db.tablas == old(db.tablas)
  {
    var t := db.tablas;
    if !Congelable(t, productoId) {
      return DatosNoEncontrados;
    }
    if facturaId !in t.facturas {
      return DetalleRechazado;
    }
    db.tablas := t.(detalles := t.detalles[t.sigDetalle := DetalleDe(t, facturaId, productoId, cantidad, precio, totalLinea)],
                    sigDetalle := t.sigDetalle + 1);
    r := DetalleInsertado;
  }

  /** The product table after `descontar_stock`. */
  function Descontado(prods: map<int, Producto>, productoId: int, cantidad: int): map<int, Producto>
  {
    if productoId in prods then prods[productoId := prods[productoId].(stock := prods[productoId].stock - cantidad)]
    else prods
  }

  /** `descontar_stock`: that one product loses `cantidad` units, with no lower bound; other rows keep theirs. */
  method DescontarStock(db: Database, productoId: int, cantidad: int)
    requires db.Valid()
    modifies db
    ensures db.Valid()
    ensures db.tablas == old(db.tablas).(productos := Descontado(old(db.tablas.productos), productoId, cantidad))
  {
    var t := db.tablas;
    db.tablas := t.(productos := Descontado(t.productos, productoId, cantidad));
  }

  /** A row of `listar_facturas`: id, date, frozen client name and total. */
  datatype FacturaListada = FacturaListada(id: int, fecha: string, nombreCliente: string, total: int)

  function Encabezado(f: Fila<Factura>): FacturaListada
  {
    FacturaListada(f.id, f.datos.fecha, f.datos.nombreCliente, f.datos.total)
  }

  function Proyectar(fs: seq<Fila<Factura>>): (r: seq<FacturaListada>)
    ensures |r| == |fs|
    ensures forall i | 0 <= i < |r| :: r[i] == Encabezado(fs[i])
  {
    if fs == [] then [] else [Encabezado(fs[0])] + Proyectar(fs[1..])
  }

  /** `ORDER BY fecha DESC`: no date is greater than one listed before it. */
  predicate FechaDesc(r: seq<FacturaListada>)
  {
    forall i, j | 0 <= i < j < |r| :: MenorOIgual(r[j].fecha, r[i].fecha)
  }

  /** Puts `x` before the first row whose date is not greater than its own. */
  function InsertarPorFecha(x: FacturaListada, s: seq<FacturaListada>): (r: seq<FacturaListada>)
    ensures multiset(r) == multiset(s) + multiset{x}
  {
    if s == [] then [x]
    else if MenorOIgual(s[0].fecha, x.fecha) then [x] + s
    else
      assert s == [s[0]] + s[1..];
      [s[0]] + InsertarPorFecha(x, s[1..])
  }

  /** Every row of `s` has a date no greater than `d`. */
  predicate NoPosterior(s: seq<FacturaListada>, d: string)
  {
    forall j | 0 <= j < |s| :: MenorOIgual(s[j].fecha, d)
  }

  lemma {:induction false} InsertarPorFechaCota(x: FacturaListada, s: seq<FacturaListada>, d: string)
    requires NoPosterior(s, d) && MenorOIgual(x.fecha, d)
    ensures NoPosterior(InsertarPorFecha(x, s), d)
  {
    var r := InsertarPorFecha(x, s);
    forall j | 0 <= j < |r| ensures MenorOIgual(r[j].fecha, d) {
      assert r[j] in multiset(s) + multiset{x} by {
        assert r[j] in multiset(r);
      }
      if r[j] != x {
        var k := IndiceDe(s, r[j]);
      }
    }
  }

  lemma {:induction false} InsertarPorFechaOrdena(x: FacturaListada, s: seq<FacturaListada>)
    requires FechaDesc(s)
    ensures FechaDesc(InsertarPorFecha(x, s))
  {
    if s == [] {
    } else if MenorOIgual(s[0].fecha, x.fecha) {
      forall j | 0 <= j < |s| ensures MenorOIgual(s[j].fecha, x.fecha) {
        if j > 0 {
          MenorOIgualTransitivo(s[j].fecha, s[0].fecha, x.fecha);
        }
      }
      assert InsertarPorFecha(x, s) == [x] + s;
    } else {
      InsertarPorFechaOrdena(x, s[1..]);
      MenorOIgualTotal(s[0].fecha, x.fecha);
      InsertarPorFechaCota(x, s[1..], s[0].fecha);
      assert InsertarPorFecha(x, s) == [s[0]] + InsertarPorFecha(x, s[1..]);
    }
  }

  /** Insertion sort by date, newest first; rows with the same date keep the order they had. */
  function OrdenarPorFecha(s: seq<FacturaListada>): (r: seq<FacturaListada>)
    ensures multiset(r) == multiset(s)
  {
    if s == [] then []
    else
      assert s == [s[0]] + s[1..];
      InsertarPorFecha(s[0], OrdenarPorFecha(s[1..]))
  }

  lemma {:induction false} OrdenarPorFechaOrdena(s: seq<FacturaListada>)
    ensures FechaDesc(OrdenarPorFecha(s))
  {
    if s != [] {
      OrdenarPorFechaOrdena(s[1..]);
      InsertarPorFechaOrdena(s[0], OrdenarPorFecha(s[1..]));
    }
  }

  /** `listar_facturas`: `SELECT id_factura, fecha, nombre_cliente, total FROM facturas ORDER BY fecha DESC`. */
  function ListarFacturas(facts: map<int, Factura>): seq<FacturaListada>
  {
    OrdenarPorFecha(Proyectar(ListarTabla(facts)))
  }

  /**
   * The invoice listing is sorted by date, newest first, and is a permutation of
   * the invoice rows: every stored invoice appears with its own date, client name
   * and total, and nothing else does.
   */
  lemma ListarFacturasCorrecto(facts: map<int, Factura>)
    ensures var r := ListarFacturas(facts);
      && FechaDesc(r)
      && multiset(r) == multiset(Proyectar(ListarTabla(facts)))
      && |r| == |facts|
      && (forall x | x in r :: x.id in facts && x == Encabezado(Fila(x.id, facts[x.id])))
      && (forall k | k in facts :: Encabezado(Fila(k, facts[k])) in r)
  {
    var fs := ListarTabla(facts);
    var ps := Proyectar(fs);
    var r := ListarFacturas(facts);
    OrdenarPorFechaOrdena(ps);
    assert |r| == |ps| by {
      assert |multiset(r)| == |multiset(ps)|;
    }
    forall x | x in r ensures x.id in facts && x == Encabezado(Fila(x.id, facts[x.id])) {
      assert x in multiset(ps) by { assert x in multiset(r); }
      var i := IndiceDe(ps, x);
    }
    forall k | k in facts ensures Encabezado(Fila(k, facts[k])) in r {
      ListadoCompleto(facts, k);
      var i := IndiceDe(fs, Fila(k, facts[k]));
      assert ps[i] == Encabezado(Fila(k, facts[k]));
      assert ps[i] in multiset(r);
    }
  }

  /** A row of `obtener_detalle_venta`: the invoice header, one line, and the grand total again. */
  datatype LineaVenta = LineaVenta(
    idFactura: int, fecha: string, clienteId: int, nombreCliente: string, emailCliente: string,
    dniCliente: string, productoId: int, nombreProducto: string, nombreCategoria: string,
    cantidad: int, precioUnitario: int, totalLinea: int, total: int)

  function LineaDe(fid: int, f: Factura, d: Detalle): LineaVenta
  {
    LineaVenta(fid, f.fecha, f.clienteId, f.nombreCliente, f.emailCliente, f.dniCliente,
               d.productoId, d.nombreProducto, d.nombreCategoria, d.cantidad, d.precioUnitario,
               d.totalLinea, f.total)
  }

  /** The `WHERE id_factura = ?` condition on detail rows. */
  function DeFactura(fid: int): Fila<Detalle> -> bool
  {
    (d: Fila<Detalle>) => d.datos.facturaId == fid
  }

  /** The lines of invoice `fid`, in the order of their ids. */
  function LineasDeFactura(dets: map<int, Detalle>, fid: int): seq<Fila<Detalle>>
  {
    FiltrarFilas(ListarTabla(dets), DeFactura(fid))
  }

  /** The joined rows for the lines `ls` of header `f`, one per line, in order. */
  function Lineas(fid: int, f: Factura, ls: seq<Fila<Detalle>>): (r: seq<LineaVenta>)
    ensures |r| == |ls|
    ensures forall i | 0 <= i < |ls| :: r[i] == LineaDe(fid, f, ls[i].datos)
  {
    if ls == [] then [] else [LineaDe(fid, f, ls[0].datos)] + Lineas(fid, f, ls[1..])
  }

  lemma LineasDeFacturaCorrecto(dets: map<int, Detalle>, fid: int)
    ensures var ls := LineasDeFactura(dets, fid);
      && IdsCrecientes(ls)
      && (forall x | x in ls :: x.id in dets && x.datos == dets[x.id] && x.datos.facturaId == fid)
      && (forall k | k in dets && dets[k].facturaId == fid :: Fila(k, dets[k]) in ls)
  {
    var fs := ListarTabla(dets);
    FiltrarFilasCorrecto(fs, DeFactura(fid));
    forall x | x in LineasDeFactura(dets, fid) ensures x.id in dets && x.datos == dets[x.id] {
      var i := IndiceDe(fs, x);
    }
    forall k | k in dets && dets[k].facturaId == fid ensures Fila(k, dets[k]) in LineasDeFactura(dets, fid) {
      ListadoCompleto(dets, k);
    }
  }

  /** `obtener_detalle_venta`: `facturas JOIN factura_detalle ... WHERE id_factura = ?`. */
  function ObtenerDetalleVenta(facts: map<int, Factura>, dets: map<int, Detalle>, fid: int): seq<LineaVenta>
  {
    if fid !in facts then []
    else
      Lineas(fid, facts[fid], LineasDeFactura(dets, fid))
  }

  /**
   * One row per line of the invoice, in line-id order, each repeating the header
   * and the grand total; no rows when the invoice is missing or has no lines.
   */
  lemma ObtenerDetalleVentaCorrecto(facts: map<int, Factura>, dets: map<int, Detalle>, fid: int)
    ensures var r := ObtenerDetalleVenta(facts, dets, fid);
            var ls := LineasDeFactura(dets, fid);
      && (fid in facts ==> |r| == |ls| && forall i | 0 <= i < |r| :: r[i] == LineaDe(fid, facts[fid], ls[i].datos))
      && (r == [] <==> fid !in facts || !(exists k :: k in dets && dets[k].facturaId == fid))
  {
    var ls := LineasDeFactura(dets, fid);
    assert ls == [] <==> !(exists k :: k in dets && dets[k].facturaId == fid) by {
      LineasDeFacturaCorrecto(dets, fid);
      if exists k :: k in dets && dets[k].facturaId == fid {
        var k :| k in dets && dets[k].facturaId == fid;
        assert Fila(k, dets[k]) in ls;
      } else {
        Cabeza(ls);
      }
    }
  }
}
