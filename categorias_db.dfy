/**
 * gestor_categorias/categorias_db.py: the writers of the `categorias` table.
 * `nombre` is a UNIQUE column: a write that would store a name another row
 * already holds fails (sqlite3.IntegrityError -> False). The listing
 * `listar_categorias` is `BaseDatos.ListarTabla(db.tablas.categorias)`.
 */
module CategoriasDb {
  import opened BaseDatos

  predicate NombreUsado(cats: map<int, Categoria>, nombre: string)
  {
    exists k :: k in cats && cats[k].nombre == nombre
  }

  predicate NombreUsadoPorOtra(cats: map<int, Categoria>, nombre: string, id: int)
  {
    exists k :: k in cats && k != id && cats[k].nombre == nombre
  }

  /** `insertar_categoria`: one new row under a fresh id, unless the name is taken. */
  method InsertarCategoria(db: Database, nombre: string) returns (ok: bool)
    requires db.Valid()
    modifies db
    ensures db.Valid()
    ensures ok <==> !NombreUsado(old(db.tablas.categorias), nombre)
    ensures ok ==> var t := old(db.tablas);
                   && t.sigCategoria !in t.categorias
                   && db.tablas == t.(categorias := t.categorias[t.sigCategoria := Categoria(nombre)],
                                      sigCategoria := t.sigCategoria + 1)
    ensures !ok ==> db.tablas == old(db.tablas)
  {
    var t := db.tablas;
    if NombreUsado(t.categorias, nombre) {
      return false;
    }
    db.tablas := t.(categorias := t.categorias[t.sigCategoria := Categoria(nombre)],
                    sigCategoria := t.sigCategoria + 1);
    ok := true;
  }

  /**
   * `modificar_categoria`: the row with that id gets the new name; no other row changes.
   * An id with no row updates nothing and still reports success.
   */
  method ModificarCategoria(db: Database, id: int, nuevoNombre: string) returns (ok: bool)
    requires db.Valid()
    modifies db
    ensures db.Valid()
    ensures ok <==> !(id in old(db.tablas.categorias) && NombreUsadoPorOtra(old(db.tablas.categorias), nuevoNombre, id))
    ensures ok && id in old(db.tablas.categorias) ==>
              db.tablas == old(db.tablas).(categorias := old(db.tablas.categorias)[id := Categoria(nuevoNombre)])
    ensures !ok || id !in old(db.tablas.categorias) ==> db.tablas == old(db.tablas)
  {
    var t := db.tablas;
    if id in t.categorias {
      if NombreUsadoPorOtra(t.categorias, nuevoNombre, id) {
        return false;
      }
      db.tablas := t.(categorias := t.categorias[id := Categoria(nuevoNombre)]);
    }
    ok := true;
  }

  /**
   * `eliminar_categoria`: only the row with that id disappears. While a product
   * still names the category the foreign key refuses the DELETE
   * (sqlite3.IntegrityError -> False) and nothing changes.
   */
  method EliminarCategoria(db: Database, id: int) returns (ok: bool)
    requires db.Valid()
    modifies db
    ensures db.Valid()
    ensures ok <==> !CategoriaReferenciada(old(db.tablas.productos), id)
    ensures ok ==> db.tablas == old(db.tablas).(categorias := old(db.tablas.categorias) - {id})
    ensures !ok ==> db.tablas == old(db.tablas)
  {
    var t := db.tablas;
    if CategoriaReferenciada(t.productos, id) {
      return false;
    }
    db.tablas := t.(categorias := t.categorias - {id});
    ok := true;
  }
}
