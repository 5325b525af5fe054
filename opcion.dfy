// Python's "value or None" results.
module Opcion {

  datatype Option<+T> = None | Some(value: T)

}
