# Inventory and sales ledger — a Dafny model

This project models the core of *sistema_gestor_inventario*, a console
inventory and sales ledger kept in SQLite. The model covers:

- **Tables.** The six tables (categories, suppliers, products, clients,
  invoices, invoice lines) are one map per table, from primary key to row, in
  the class `BaseDatos.Database`. The AUTOINCREMENT counter of each table is
  kept beside its map. Its invariant `Valid()` is what the engine guarantees
  between statements:
  - every key is below its counter;
  - the UNIQUE columns hold no duplicate (category name, supplier CUIT,
    client DNI);
  - no foreign key dangles.
- **Table writers and listings.** The `*_db.py` functions are methods on that
  class: insert, overwrite by id, delete by id. They state the whole new state
  and the cases in which the engine refuses the write (UNIQUE, FOREIGN KEY).
  The listings are functions:
  - ordered by id;
  - the inner join that drops orphan products;
  - the LEFT JOIN anti-join of the clients nobody has invoiced;
  - the invoice listing sorted by date;
  - the joined detail of one invoice.
- **Field checks.** Name, phone, email, DNI, CUIT, category name, stock, price
  and the id lookups by typed text.
- **Deletable rows and guarded deletes.** The lists of categories, suppliers
  and clients no row depends on, and the delete dialogues that only delete a
  row from that list.
- **The item loader.** The dialogue that builds a sale's item list: the typed
  lines are a sequence of strings.
- **`registrar_venta`.** One transaction that checks the client and every
  item, then writes the invoice header, one line per item and the stock
  decrements, or rolls everything back.

Money is integer cents, so `round(cantidad * precio, 2)` is the exact
product. The clock reading of a sale is the `fecha` parameter. The keyboard
is the sequence of lines typed; when it runs out, that is the EOFError
`input()` raises.

The code and the specification disagree in three places, and the model
follows the code:

- `registrar_venta` with an empty item list commits an invoice with total 0
  and no lines. No error is raised.
- `registrar_venta` does not check quantity against stock. Stock can go
  negative.
- In the item loop the line total is added to the invoice total before the
  category and supplier checks run. A failed check rolls back, so the total is
  never written.

## Model

| member | source | states |
|---|---|---|
| BaseDatos.Database.constructor | db/data_base.py:12-113 | A fresh database has every table empty and every counter at 1, and satisfies the engine invariant (fresh keys, UNIQUE columns, no dangling foreign key) |
| BaseDatos.Database.Rollback | gestor_ventas/ventas_gestor.py:122-126 | `rollback()` puts every table back to the state taken at BEGIN |
| BaseDatos.ListarTabla | gestor_categorias/categorias_db.py:74-90 | `listar_categorias`, and likewise `listar_proveedores`, `listar_clientes` and `listar_productos_crudos`: each stored row with its columns, once, in strictly increasing id order, as many rows as the table has |
| BaseDatos.ListadoCompleto | gestor_categorias/categorias_db.py:84 | No stored row is missing from an ordered listing |
| BaseDatos.BuscarPorId | gestor_categorias/categorias_validaciones.py:30-35 | The scan of a listing for an id finds a listed row with that id, or None exactly when no listed row has it |
| BaseDatos.BuscarEnListado | gestor_categorias/categorias_validaciones.py:22-37 | The scan over the ordered listing finds exactly the row stored under that key, or None when there is none |
| BaseDatos.ObtenerPorIdValidado | gestor_clientes/clientes_validaciones.py:85-98 | The id validators find a row exactly when the text is all decimal digits and names a stored key; the empty text finds nothing |
| BaseDatos.ObtenerPorIdDeStr | gestor_clientes/clientes_validaciones.py:85-98 | `str()` of a stored non-negative id is found again by the validator |
| BaseDatos.FiltrarFilasCorrecto | gestor_categorias/categorias_validaciones.py:91-94 | The filter of the eliminables loops keeps exactly the rows that pass the test, taken from the listing and in its order |
| BaseDatos.RecogerRefs | gestor_categorias/categorias_validaciones.py:83-89 | The first loop collects exactly the non-NULL values the reference column takes over the rows |
| BaseDatos.RefsDeTabla | gestor_categorias/categorias_validaciones.py:83-89 | A value is collected iff some stored dependent row names it |
| BaseDatos.QuitarUsados | gestor_categorias/categorias_validaciones.py:91-94 | The second loop keeps the listed rows whose id was not collected, in order |
| BaseDatos.EliminablesCorrecto | gestor_categorias/categorias_validaciones.py:83-96 | The filtered listing is the set difference: every stored row whose id is unused appears once, in id order, and no other row appears |
| BaseDatos.CrecientesIguales | gestor_clientes/clientes_validaciones.py:109-126 | Two id-ordered listings with the same rows are the same listing |
| CategoriasDb.InsertarCategoria | gestor_categorias/categorias_db.py:10-29 | `insertar_categoria` succeeds iff no row holds the name (UNIQUE); it then adds exactly one row under the next id, and otherwise changes nothing |
| CategoriasDb.ModificarCategoria | gestor_categorias/categorias_db.py:31-51 | Only the name of that id changes, refused iff another row holds the name; an absent id changes nothing and reports success |
| CategoriasDb.EliminarCategoria | gestor_categorias/categorias_db.py:53-72 | Only that id disappears; the foreign key refuses it iff some product names the category, and then nothing changes |
| ProveedoresDb.InsertarProveedor | gestor_proveedores/proveedores_db.py:10-35 | One new row with the four given columns under the next id, iff no supplier holds the CUIT; otherwise nothing changes |
| ProveedoresDb.ModificarProveedor | gestor_proveedores/proveedores_db.py:37-64 | Name, phone, email and CUIT of that id only are overwritten, refused iff another supplier holds the CUIT |
| ProveedoresDb.EliminarProveedor | gestor_proveedores/proveedores_db.py:66-85 | Only that id disappears, refused while a product names it |
| ClientesDb.InsertarCliente | gestor_clientes/clientes_db.py:11-36 | One new row with the four given columns under the next id, iff no client holds the DNI; otherwise nothing changes |
| ClientesDb.ModificarCliente | gestor_clientes/clientes_db.py:38-65 | Name, phone, email and DNI of that id only are overwritten, refused iff another client holds the DNI |
| ClientesDb.EliminarCliente | gestor_clientes/clientes_db.py:67-86 | Only that id disappears, refused while an invoice names the client |
| ClientesDb.Emparejar | gestor_clientes/clientes_db.py:120-124 | The join rows of one client carry a non-NULL invoice client id and are empty iff the client has no invoice |
| ClientesDb.SoloNulosDeUnidas | gestor_clientes/clientes_db.py:120-124 | A client's LEFT JOIN rows survive `IS NULL` exactly when it has no invoice, as one row |
| ClientesDb.AntiJoinEsFiltro | gestor_clientes/clientes_db.py:120-124 | LEFT JOIN followed by `IS NULL` is the filter that drops every client with an invoice, order kept |
| ClientesDb.SinFacturasCorrecto | gestor_clientes/clientes_db.py:106-126 | `listar_clientes_sin_facturas` holds every client no invoice names exactly once, in id order, and never a client with an invoice |
| ProductosDb.InsertarProducto | gestor_productos/productos_db.py:10-36 | One new row with exactly the five given columns under the next id, iff both references are NULL or stored; otherwise nothing changes |
| ProductosDb.ModificarProducto | gestor_productos/productos_db.py:38-66 | All five columns of that id only are overwritten, refused iff a reference would dangle |
| ProductosDb.EliminarProducto | gestor_productos/productos_db.py:68-87 | Only that id disappears, refused while an invoice line names the product |
| ProductosDb.UniblesCorrecto | gestor_productos/productos_db.py:99-111 | The rows the two inner joins keep are the stored products whose category and supplier both exist, in id order |
| ProductosDb.Nombrar | gestor_productos/productos_db.py:99-105 | Each kept row gets its two ids replaced by the names they point to, one output row per input row |
| ProductosDb.ListarProductosCorrecto | gestor_productos/productos_db.py:89-117 | `listar_productos` holds exactly the products whose category and supplier exist, once each, in id order, with the two names in place of the ids |
| ProductosDb.ListarTablaProducto | gestor_productos/productos_db.py:119-138 | `listar_tabla_producto` returns the row stored under the id, or None when there is none |
| FacturasDb.InsertarFactura | gestor_ventas/facturas_db.py:10-42 | A header is written iff the client exists, under the next id, which is returned, and with the client's current name, email and DNI; a missing client writes nothing |
| FacturasDb.InsertarFacturaDetalle | gestor_ventas/facturas_db.py:44-84 | A line is written iff product, category and supplier all join and the invoice exists; it stores quantity, price and line total unchanged with the three names frozen, and is otherwise refused with nothing written |
| FacturasDb.DescontarStock | gestor_ventas/facturas_db.py:86-101 | Only that product's stock drops by the quantity, with no lower bound; every other row and table is unchanged |
| FacturasDb.Proyectar | gestor_ventas/facturas_db.py:113-118 | The listing's columns are id, date, frozen client name and total of each invoice row |
| FacturasDb.InsertarPorFechaOrdena | gestor_ventas/facturas_db.py:113-118 | Inserting one invoice row into a list sorted newest first keeps it sorted |
| FacturasDb.OrdenarPorFecha | gestor_ventas/facturas_db.py:113-118 | The date sort is a permutation of its input |
| FacturasDb.OrdenarPorFechaOrdena | gestor_ventas/facturas_db.py:113-118 | The date sort's output is ordered by date, newest first |
| FacturasDb.ListarFacturasCorrecto | gestor_ventas/facturas_db.py:103-128 | `listar_facturas` is sorted by date descending and is a permutation of the invoice rows: every stored invoice appears with its own columns and nothing else does |
| FacturasDb.LineasDeFacturaCorrecto | gestor_ventas/facturas_db.py:143-157 | The lines selected for an invoice are exactly its stored lines, in id order |
| FacturasDb.ObtenerDetalleVentaCorrecto | gestor_ventas/facturas_db.py:130-168 | `obtener_detalle_venta` gives one row per line of that invoice, in line order, each repeating the header and grand total; no rows when the invoice is missing or has no lines |
| ValidacionesGenerales.ValidarNombre | core/validaciones_generales.py:7-25 | A name is accepted iff it is non-empty or the empty answer is allowed |
| ValidacionesGenerales.ValidarTelefono | core/validaciones_generales.py:27-48 | The empty phone is the flag's answer; any other is accepted iff all its characters are decimal digits |
| ValidacionesGenerales.TelefonoDeNumero | core/validaciones_generales.py:45-48 | Every decimal numeral is an acceptable phone |
| ValidacionesGenerales.ValidarEmail | core/validaciones_generales.py:50-71 | The empty email is the flag's answer; any other is accepted iff it contains both '@' and '.' |
| ValidacionesGenerales.EmailSinOrden | core/validaciones_generales.py:68-71 | The email check requires no order: a dot before the '@' passes as well as one after it |
| CategoriasValidaciones.ObtenerCategoriaPorIdValidado | gestor_categorias/categorias_validaciones.py:10-37 | Non-digit text finds nothing; all-digit text finds the category stored under that number, or nothing |
| CategoriasValidaciones.ValidarNombreCategoria | gestor_categorias/categorias_validaciones.py:39-72 | The empty name is refused; a name that normalises like a non-empty `nombre_actual` is accepted; otherwise accepted iff no stored category has the same normalised name |
| CategoriasValidaciones.NombreValidoSeInserta | gestor_categorias/categorias_validaciones.py:57-70 | A name the check accepts for a new category does not violate the UNIQUE column |
| CategoriasValidaciones.ChocaSinDistinguirMayusculas | gestor_categorias/categorias_gestor.py:69 | Without `nombre_actual`, a stored name or a case/accent variant of it is refused |
| CategoriasValidaciones.EdicionConservaNombre | gestor_categorias/categorias_validaciones.py:65-66 | With the category's own name as `nombre_actual`, keeping that name (or a case/accent variant) is accepted |
| CategoriasValidaciones.CategoriasUsadasSonReferenciadas | gestor_categorias/categorias_validaciones.py:83-89 | An id is collected from the raw products iff some product names that category |
| CategoriasValidaciones.ListarCategoriasEliminables | gestor_categorias/categorias_validaciones.py:74-96 | The two loops return the category listing filtered by the set of referenced ids |
| CategoriasValidaciones.CategoriasEliminablesCorrecto | gestor_categorias/categorias_validaciones.py:83-96 | The eliminable categories are exactly the stored ones no product names, each once, in listing order, and a subset of `listar_categorias()` |
| ProveedoresValidaciones.ValidarCuit | gestor_proveedores/proveedores_validaciones.py:9-46 | The empty CUIT is the flag's answer; any other must be 11 decimal digits and, unless equal to `cuit_actual`, held by no supplier |
| ProveedoresValidaciones.CuitValidoSeInserta | gestor_proveedores/proveedores_validaciones.py:43-45 | An accepted CUIT for a new supplier does not violate the UNIQUE column |
| ProveedoresValidaciones.CuitValidoSeModifica | gestor_proveedores/proveedores_validaciones.py:40-45 | On an edit with the own CUIT as `cuit_actual`, an accepted CUIT is held by no other supplier |
| ProveedoresValidaciones.ObtenerProveedorPorIdValidado | gestor_proveedores/proveedores_validaciones.py:49-71 | Non-digit text finds nothing; all-digit text finds the supplier stored under that number, or nothing |
| ProveedoresValidaciones.ProveedoresUsadosSonReferenciados | gestor_proveedores/proveedores_validaciones.py:80-86 | An id is collected from the raw products iff some product names that supplier |
| ProveedoresValidaciones.ListarProveedoresEliminables | gestor_proveedores/proveedores_validaciones.py:73-93 | The two loops return the supplier listing filtered by the set of referenced ids |
| ProveedoresValidaciones.ProveedoresEliminablesCorrecto | gestor_proveedores/proveedores_validaciones.py:80-93 | The eliminable suppliers are exactly the stored ones no product names, each once, in listing order |
| ProveedoresValidaciones.ProveedorTieneProductos | gestor_proveedores/proveedores_validaciones.py:95-109 | As written, the scan compares the supplier name column with an int and always answers False |
| ProveedoresValidaciones.ProveedorConProductosNoDetectado | gestor_proveedores/proveedores_validaciones.py:95-109 | In a state where product 1 names supplier 1, the supplier has a product, while the scan as written answers False for every supplier |
| ProveedoresValidaciones.ProveedorTieneProductosCorregido | gestor_proveedores/proveedores_validaciones.py:95-109 | The documented rule: True iff some product names the supplier, i.e. iff its id is among the referenced ids |
| ClientesValidaciones.ValidarDni | gestor_clientes/clientes_validaciones.py:11-46 | The empty DNI is the flag's answer; any other must be 6 to 8 decimal digits and, unless equal to `dni_actual`, held by no client |
| ClientesValidaciones.DniValidoSeInserta | gestor_clientes/clientes_validaciones.py:40-45 | An accepted DNI for a new client does not violate the UNIQUE column |
| ClientesValidaciones.DniValidoSeModifica | gestor_clientes/clientes_validaciones.py:40-45 | On an edit with the own DNI as `dni_actual`, an accepted DNI is held by no other client |
| ClientesValidaciones.CoincideNombre | gestor_clientes/clientes_validaciones.py:65-71 | The regular expression matches iff the text is non-empty and every character is in the class |
| ClientesValidaciones.ValidarNombreCliente | gestor_clientes/clientes_validaciones.py:49-71 | The empty name is the flag's answer; any other is accepted iff every character is an ASCII letter, one of áéíóúÁÉÍÓÚñÑ, or whitespace |
| ClientesValidaciones.NombreConOtroCaracter | gestor_clientes/clientes_validaciones.py:65-71 | A name with a digit or an accented letter outside the class is refused |
| ClientesValidaciones.ObtenerClientePorIdValidado | gestor_clientes/clientes_validaciones.py:73-98 | Non-digit text finds nothing; all-digit text finds the client stored under that number, or nothing |
| ClientesValidaciones.RecogerNombres | gestor_clientes/clientes_validaciones.py:113-116 | The first loop collects column 2 of each invoice listing row, the frozen client name |
| ClientesValidaciones.QuitarPorValor | gestor_clientes/clientes_validaciones.py:118-124 | The second loop keeps the clients whose int id is not among the collected values |
| ClientesValidaciones.FiltroPorNombreNoQuita | gestor_clientes/clientes_validaciones.py:113-124 | That filter removes no client from any listing, clients with invoices included |
| ClientesValidaciones.ListarClientesEliminables | gestor_clientes/clientes_validaciones.py:100-125 | As written, the result is exactly `listar_clientes_sin_facturas()` |
| ClientesValidaciones.ClientesUsadosSonReferenciados | gestor_clientes/clientes_validaciones.py:113-116 | An id is in the invoices' `cliente_id` column iff an invoice names that client |
| ClientesValidaciones.ClientesEliminablesCorrecto | gestor_clientes/clientes_validaciones.py:109-126 | Filtering the whole client listing by the invoices' `cliente_id` gives exactly the anti-join listing |
| ClientesValidaciones.ListarClientesEliminablesCorregido | gestor_clientes/clientes_validaciones.py:100-125 | With the filter reading `cliente_id`, the result is the anti-join listing because the filter is right |
| ProductosValidaciones.ObtenerProductoPorIdValidado | gestor_productos/productos_validaciones.py:8-31 | Non-digit text, the empty text included, finds nothing; all-digit text finds the product under that id, or nothing |
| ProductosValidaciones.ProductoPorIdDeStr | gestor_productos/productos_validaciones.py:24-31 | `str()` of a stored non-negative product id is found again |
| ProductosValidaciones.ValidarStock | gestor_productos/productos_validaciones.py:33-53 | The stripped text parsed as an integer is returned when it is at least 0; negative or non-integer text gives None |
| ProductosValidaciones.ValidarStockDeStr | gestor_productos/productos_validaciones.py:45-53 | Every count the program writes reads back as itself when non-negative, and is refused when negative |
| ProductosValidaciones.ValidarPrecio | gestor_productos/productos_validaciones.py:67-72 | A price is accepted iff it was read and is strictly positive |
| VentasValidaciones.PasoCantidad | gestor_ventas/ventas_validaciones.py:46-65 | One answer to the quantity question: cancel ends with CANCELADO; a non-digit, zero or over-stock answer asks again; an accepted one appends the item |
| VentasValidaciones.Dialogar | gestor_ventas/ventas_validaciones.py:28-71 | The nested prompting loops end exactly as the dialogue function says for the typed lines |
| VentasValidaciones.CargarProductosParaVenta | gestor_ventas/ventas_validaciones.py:11-71 | No joined product cancels at once; otherwise the result is the dialogue's outcome |
| VentasValidaciones.DialogoAceptaSoloValidos | gestor_ventas/ventas_validaciones.py:43-71 | Whatever is typed, a returned list is non-empty, keeps the items chosen before, and each item names a stored product with 0 < cantidad <= its stock |
| VentasValidaciones.CargaAceptaSoloValidos | gestor_ventas/ventas_validaciones.py:23-26 | The loader's list is never empty and every item passed the quantity rule; an empty one becomes CANCELADO |
| VentasValidaciones.CantidadNoNumericaSeIgnora | gestor_ventas/ventas_validaciones.py:52-54 | A quantity answer that is not all digits is ignored and the question is asked again |
| VentasValidaciones.SobreventaComoEscrito | gestor_ventas/ventas_validaciones.py:43-65 | With five units in stock, choosing the product twice with five units each is accepted: ten units in all |
| VentasValidaciones.DialogoAcumuladoNoSobrevende | gestor_ventas/ventas_validaciones.py:56-60 | Bounding each quantity by the stock left after the items already chosen never oversells a product |
| VentasValidaciones.CargarCorregido | gestor_ventas/ventas_validaciones.py:56-60 | The corrected loader returns a non-empty list of accepted items that never asks for more of a product than its stock |
| VentasValidaciones.CorregidoNoSobrevende | gestor_ventas/ventas_validaciones.py:56-60 | On the oversell example the corrected loader refuses the second five units |
| VentasGestor.ClienteValido | gestor_ventas/ventas_gestor.py:46-51 | The client check by `str(cliente_id)` passes iff the id is non-negative and stored |
| VentasGestor.VinculosEncontrados | gestor_ventas/ventas_gestor.py:81-90 | The link checks by `str()` of the product's ids pass iff neither is NULL and both name stored rows |
| VentasGestor.BuscarPorRef | gestor_ventas/ventas_gestor.py:82-87 | `str(None)` and negative ids are found by no validator; a stored non-negative id is |
| VentasGestor.VendibleSiCongelable | gestor_ventas/ventas_gestor.py:67-90 | An item passes the loop's checks iff its product, category and supplier join, as `insertar_factura_detalle` needs |
| VentasGestor.DiccionarioDeListado | gestor_ventas/ventas_gestor.py:53-62 | The dictionary built from `listar_productos_crudos()` is the product table itself |
| VentasGestor.Instantanea | gestor_ventas/ventas_gestor.py:54-62 | The snapshot loop builds the id-keyed dictionary of the rows, later rows overwriting earlier ones |
| VentasGestor.DetallesDe | gestor_ventas/ventas_gestor.py:76-79 | One line per item, in order, each with the snapshot price and `cantidad * precio` |
| VentasGestor.TotalAlAgregar | gestor_ventas/ventas_gestor.py:79 | Appending a line adds its line total to the invoice total |
| VentasGestor.PrepararDetalles | gestor_ventas/ventas_gestor.py:64-97 | The item loop succeeds iff every item is in the snapshot with category and supplier found; the lines are then one per item from the snapshot and the total is their sum |
| VentasGestor.EscribirLinea | gestor_ventas/ventas_gestor.py:106-115 | One pass writes the frozen line under the next id and decrements that product's stock |
| VentasGestor.EscribirVenta | gestor_ventas/ventas_gestor.py:106-115 | The write loop leaves the tables as the lines written in order say |
| VentasGestor.Escribir | gestor_ventas/ventas_gestor.py:106-115 | The write loop changes only the line table, its counter and product stocks, with exactly one new line id per line |
| VentasGestor.EscribirValido | gestor_ventas/ventas_gestor.py:106-115 | The write loop keeps every key fresh and every reference resolved |
| VentasGestor.Confirmar | gestor_ventas/ventas_gestor.py:99-118 | The header gets the next invoice id and the summed total, then the lines are written |
| VentasGestor.RegistrarVenta | gestor_ventas/ventas_gestor.py:26-129 | The method's result and tables are those of the all-or-nothing sale function |
| VentasGestor.VentaRegistraSiValida | gestor_ventas/ventas_gestor.py:46-104 | A sale is registered iff the client and every item's product, category and supplier are stored; it gets the next invoice id; a refused sale changes no table |
| VentasGestor.CabeceraValida | gestor_ventas/facturas_db.py:26-38 | Writing the header keeps the tables valid and stores it under the next id |
| VentasGestor.VentaConservaValidez | gestor_ventas/ventas_gestor.py:99-120 | A registered sale leaves every key fresh, every UNIQUE column unique and every reference resolved |
| VentasGestor.SumaDetallesDeItems | gestor_ventas/ventas_gestor.py:92-97 | The lines take out of each product the sum of the items' quantities for it |
| VentasGestor.EscribirDescuenta | gestor_ventas/ventas_gestor.py:106-115 | After the write loop each product has lost the units its lines name |
| VentasGestor.VentaDescuentaStock | gestor_ventas/ventas_gestor.py:106-115 | A registered sale takes out of each product exactly the summed quantities, with no lower bound, and changes nothing else of any product |
| VentasGestor.EscribirDetalleNuevo | gestor_ventas/ventas_gestor.py:106-114 | Line j is stored under `sigDetalle + j`, naming the invoice, with the names frozen before the loop |
| VentasGestor.LineasDeVenta | gestor_ventas/ventas_gestor.py:106-114 | The new invoice's lines are exactly the new rows, in order |
| VentasGestor.SumaLineasEsTotal | gestor_ventas/ventas_gestor.py:77-79 | The listed line totals sum to the invoice total |
| VentasGestor.VentaConfirma | gestor_ventas/ventas_gestor.py:99-120 | A sale whose client and items join commits under the next invoice id |
| VentasGestor.VentaDetalle | gestor_ventas/ventas_gestor.py:92-120 | After a sale, the detail listing of the new invoice has one row per item, in item order, with the client, product, category, quantity and snapshot price; every row repeats the total, which is the sum of the line totals |
| BorradoProtegido.Elegir | gestor_categorias/categorias_gestor.py:100-112 | A chosen id names a stored row that the gate admits |
| BorradoProtegido.ElegirPrimera | gestor_categorias/categorias_gestor.py:100-112 | The first typed line naming an admitted row, after lines the loop rejects, is the one chosen |
| BorradoProtegido.PedirId | gestor_categorias/categorias_gestor.py:100-112 | The prompting loop ends with the choice the answers determine |
| BorradoProtegido.PrimeraRespuesta | gestor_categorias/categorias_gestor.py:100-112 | Typing `str(id)` of an admitted row first chooses that row |
| BorradoProtegido.BorrarCategoria | gestor_categorias/categorias_gestor.py:80-118 | The delete dialogue's outcome and tables are those of the guarded-delete function over the eliminable list |
| BorradoProtegido.BorradoCategoriaSeguro | gestor_categorias/categorias_gestor.py:106-114 | When every offered row is unreferenced, the delete is never refused; a deletion removes a stored, unreferenced category and nothing else; any other outcome changes nothing |
| BorradoProtegido.BorrarCategoriaNuncaFalla | gestor_categorias/categorias_gestor.py:109-118 | Gated by the eliminables list, the delete of a category is never refused |
| BorradoProtegido.CategoriaOfrecidaSeBorra | gestor_categorias/categorias_gestor.py:100-118 | An offered, unreferenced category whose id is typed first is deleted |
| BorradoProtegido.CategoriaLibreSeBorra | gestor_categorias/categorias_gestor.py:80-118 | Any stored category no product names is deleted when its id is typed |
| BorradoProtegido.BorrarProveedor | gestor_proveedores/proveedores_gestor.py:165-203 | The delete dialogue's outcome and tables are those of the guarded-delete function over the eliminable list |
| BorradoProtegido.BorradoProveedorSeguro | gestor_proveedores/proveedores_gestor.py:191-199 | When every offered row is unreferenced, the delete is never refused; a deletion removes a stored, unreferenced supplier and nothing else |
| BorradoProtegido.BorrarProveedorNuncaFalla | gestor_proveedores/proveedores_gestor.py:191-203 | Gated by the eliminables list, the delete of a supplier is never refused |
| BorradoProtegido.ProveedorOfrecidaSeBorra | gestor_proveedores/proveedores_gestor.py:180-203 | An offered, unreferenced supplier whose id is typed first is deleted |
| BorradoProtegido.ProveedorLibreSeBorra | gestor_proveedores/proveedores_gestor.py:165-203 | Any stored supplier no product names is deleted when its id is typed |
| BorradoProtegido.BorrarCliente | gestor_clientes/clientes_gestor.py:161-200 | The delete dialogue's outcome and tables are those of the guarded-delete function over the eliminable list |
| BorradoProtegido.BorradoClienteSeguro | gestor_clientes/clientes_gestor.py:187-195 | When every offered row is unreferenced, the delete is never refused; a deletion removes a stored client without invoices and nothing else |
| BorradoProtegido.BorrarClienteNuncaFalla | gestor_clientes/clientes_gestor.py:187-200 | Gated by the eliminables list, the delete of a client is never refused |
| BorradoProtegido.ClienteOfrecidaSeBorra | gestor_clientes/clientes_gestor.py:176-200 | An offered client without invoices whose id is typed first is deleted |
| BorradoProtegido.ClienteLibreSeBorra | gestor_clientes/clientes_gestor.py:161-200 | Any stored client no invoice names is deleted when its id is typed |
| BorradoProtegido.BorrarProductoBuscaProveedor | gestor_productos/productos_gestor.py:253 | As written, a product's id is refused when no supplier has it, and a supplier's id is accepted and reported deleted though no product is deleted |
| BorradoProtegido.BorrarProducto | gestor_productos/productos_gestor.py:234-262 | The corrected delete dialogue's outcome and tables are those of the product delete function |
| BorradoProtegido.BorradoProductoCorrecto | gestor_productos/productos_gestor.py:247-262 | A deletion removes a stored, unsold product and nothing else; a refusal names a stored, sold product and changes nothing; any other outcome changes nothing |
| BorradoProtegido.ProductoElegidoSeBorra | gestor_productos/productos_gestor.py:247-262 | A stored product whose id is typed first is deleted unless an invoice line names it, and then refused |

## Left out

- The console around the core is not modelled: menus, prompts, Rich tables,
  success and error messages, and the add and edit dialogues. Only the delete
  dialogues and the sale's item loader are modelled; the keyboard is a
  sequence of typed lines.
- The PDF export in gestor_ventas/exportar_factura.py is left out: it writes
  files through fpdf.
- core/logger.py and the seed data are left out. Logging has no effect on the
  tables.
- db/data_base.py table creation is not modelled as code. Its UNIQUE columns
  and its FOREIGN KEY clauses are the invariant `BaseDatos.TablasValidas`,
  which every writer assumes and keeps.
- `normalizar_texto` is `Texto.Normalizar`. It folds case and accents only for
  ASCII and the Latin-1 block. Other characters are dropped, where NFKD would
  decompose some of them.
- `formatear_nombre` and `formatear_email` are left out: they only change how a
  name or email is written, not whether it is accepted.
- `obtener_fecha_actual` reads the clock. The date is a parameter of the sale.
- Floating-point money is not modelled: prices and totals are integer cents,
  and `round()` is exact. `validar_precio` is modelled from the already-read
  value, with a failed `float()` as None.
- SQLite is modelled only in part:
  - `lastrowid` is the table's counter;
  - the separate connections the validators open during a sale read the same
    tables;
  - disk, lock and other engine errors are not modelled. The writers then
    return False and the listings [], but here only UNIQUE and FOREIGN KEY
    refusals fail a write.
- Concurrency is not modelled.
- `str.isdigit` and `int()` accept only ASCII digits here. The Unicode digits
  Python also accepts are not modelled.
- `insertar_factura_detalle` raising ValueError inside a sale is not modelled.
  The sale's own checks make the join succeed, and
  `VentasGestor.VendibleSiCongelable` proves this.
- `VentasGestor.RegistrarVenta`: a failure of `insertar_factura` after the
  client check is not modelled as a separate path. It cannot happen, since the
  same tables were just read.

## Findings

| source | as written | input that shows it | evidently intended | confidence | as-written member | corrected member |
|---|---|---|---|---|---|---|
| gestor_proveedores/proveedores_validaciones.py:107 | compares `producto[3]` of `listar_productos()`, the supplier NAME, with the integer id, so the function always returns False | product 1 with `proveedor_id` 1; `proveedor_tiene_productos(1)` | True iff some product's `proveedor_id` is the id | not executed | ProveedoresValidaciones.ProveedorConProductosNoDetectado | ProveedoresValidaciones.ProveedorTieneProductosCorregido |
| gestor_clientes/clientes_validaciones.py:115 | collects `factura[2]` of `listar_facturas()`, the frozen client NAME, so the second filter removes no client | any client with an invoice, offered to the filter | filter by the invoices' `cliente_id` | not executed | ClientesValidaciones.FiltroPorNombreNoQuita | ClientesValidaciones.ClientesEliminablesCorrecto |
| gestor_ventas/ventas_validaciones.py:57 | each quantity is bounded by the stock read when the product was chosen, not by what is left after the items already in the list | stock 5; lines "1", "5", "s", "1", "5", "n" | bound by the stock minus the quantities already chosen for that product | not executed | VentasValidaciones.SobreventaComoEscrito | VentasValidaciones.CorregidoNoSobrevende |
| gestor_categorias/categorias_gestor.py:69 | `validar_nombre_categoria(nuevo_nombre)` without `nombre_actual`, so re-typing the current name, or changing only its case or accents, is refused | category "Almacén" edited to "almacen" | pass the category's own name as `nombre_actual` | not executed | CategoriasValidaciones.ChocaSinDistinguirMayusculas | CategoriasValidaciones.EdicionConservaNombre |
| gestor_productos/productos_gestor.py:253 | the product delete validates its id with `obtener_proveedor_por_id_validado` | product 2 with supplier 1; typing "2" is asked again as unknown, typing "1" reports product 1 deleted while no row goes | look the id up among products | not executed | BorradoProtegido.BorrarProductoBuscaProveedor | BorradoProtegido.BorradoProductoCorrecto |
