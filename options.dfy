/** Optional values and results, used for the absent fields of a JSON document
    and for the error returns of the configuration loader. */
module Options {

  datatype Option<+T> = None | Some(value: T) {
    /** Python's `dict.get(key, default)` on a field that may be missing. */
    function GetOr(default: T): T {
      if Some? then value else default
    }
  }

  datatype Result<+T, +E> = Ok(value: T) | Err(error: E)
}
