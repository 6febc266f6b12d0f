/** Optional values and fallible results, as the derive code uses `Option` and `syn::Result`. */
module Wrappers {

  datatype Option<T> = None | Some(value: T)

  datatype Result<T, E> = Ok(value: T) | Err(error: E)
}
