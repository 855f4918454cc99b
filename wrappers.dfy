/** Optional values: a nullable SQL column, an absent request field or
    header, an unbound session. */
module Wrappers {

  datatype Option<+T> = None | Some(value: T)

}
