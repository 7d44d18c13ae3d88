/** Optional values: `None` stands for a missing value (a pandas NaN cell, a lookup that found nothing). */
module Wrappers {

  datatype Option<+T> = None | Some(value: T)
}
