/** The optional value shared by the catalog lookups and the form's preset table. */
module Wrappers {

  datatype Option<T> = None | Some(value: T)
}
