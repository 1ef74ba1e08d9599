/** Optional values and outcomes that may fail, used throughout the model in
  * place of Python's `None` and of raised exceptions. */
module Wrappers {
  datatype Option<T> = None | Some(value: T) {
    /** `d.get(key, default)` once the lookup has produced this option. */
    function GetOr(default: T): T {
      if Some? then value else default
    }
  }

  datatype Result<T, E> = Ok(value: T) | Err(error: E)
}
