/**
 * gestor_proveedores/proveedores_db.py: the writers of the `proveedores` table.
 * `cuit` is a UNIQUE column: a write that would store a CUIT another row already
 * holds fails (sqlite3.IntegrityError -> False). The listing `listar_proveedores`
 * is `BaseDatos.ListarTabla(db.tablas.proveedores)`.
 */
module ProveedoresDb {
  import opened BaseDatos

  predicate CuitUsado(provs: map<int, Proveedor>, cuit: string)
  {
    exists k :: k in provs && provs[k].cuit == cuit
  }

  predicate CuitUsadoPorOtro(provs: map<int, Proveedor>, cuit: string, id: int)
  {
    exists k :: k in provs && k != id && provs[k].cuit == cuit
  }

  /** `insertar_proveedor`: one new row under a fresh id, unless the CUIT is taken. */
  method InsertarProveedor(db: Database, nombre: string, telefono: string, email: string, cuit: string)
    returns (ok: bool)
    requires db.Valid()
    modifies db
    ensures db.Valid()
    ensures ok <==> !CuitUsado(old(db.tablas.proveedores), cuit)
    ensures ok ==> var t := old(db.tablas);
                   && t.sigProveedor !in t.proveedores
                   && db.tablas == t.(proveedores := t.proveedores[t.sigProveedor := Proveedor(nombre, telefono, email, cuit)],
                                      sigProveedor := t.sigProveedor + 1)
    ensures !ok ==> db.tablas == old(db.tablas)
  {
    var t := db.tablas;
    if CuitUsado(t.proveedores, cuit) {
      return false;
    }
    db.tablas := t.(proveedores := t.proveedores[t.sigProveedor := Proveedor(nombre, telefono, email, cuit)],
                    sigProveedor := t.sigProveedor + 1);
    ok := true;
  }

  /**
   * `modificar_proveedor`: the four columns of the row with that id are overwritten;
   * no other row changes. An id with no row updates nothing and still reports success.
   */
  method ModificarProveedor(db: Database, id: int, nombre: string, telefono: string, email: string, cuit: string)
    returns (ok: bool)
    requires db.Valid()
    modifies db
    ensures db.Valid()
    ensures ok <==> !(id in old(db.tablas.proveedores) && CuitUsadoPorOtro(old(db.tablas.proveedores), cuit, id))
    ensures ok && id in old(db.tablas.proveedores) ==>
              db.tablas == old(db.tablas).(proveedores := old(db.tablas.proveedores)[id := Proveedor(nombre, telefono, email, cuit)])
    ensures !ok || id !in old(db.tablas.proveedores) ==> db.tablas == old(db.tablas)
  {
    var t := db.tablas;
    if id in t.proveedores {
      if CuitUsadoPorOtro(t.proveedores, cuit, id) {
        return false;
      }
      db.tablas := t.(proveedores := t.proveedores[id := Proveedor(nombre, telefono, email, cuit)]);
    }
    ok := true;
  }

  /**
   * `eliminar_proveedor`: only the row with that id disappears; the foreign key
   * refuses the DELETE while a product names the supplier.
   */
  method EliminarProveedor(db: Database, id: int) returns (ok: bool)
    requires db.Valid()
    modifies db
    ensures db.Valid()
    ensures ok <==> !ProveedorReferenciado(old(db.tablas.productos), id)
    ensures ok ==> db.tablas == old(db.tablas).(proveedores := old(db.tablas.proveedores) - {id})
    ensures !ok ==> db.tablas == old(db.tablas)
  {
    var t := db.tablas;
    if ProveedorReferenciado(t.productos, id) {
      return false;
    }
    db.tablas := t.(proveedores := t.proveedores - {id});
    ok := true;
  }
}
