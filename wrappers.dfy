/** The `null`-or-value results of the oracle: JavaScript `T | null` becomes `Option<T>`. */
module Wrappers {

  datatype Option<+T> = None | Some(value: T)
}
