/** Optional values. In the indicator columns `None` stands for pandas' NaN:
    a warm-up row that has no value yet. */
module Wrappers {

  datatype Option<+T> = None | Some(value: T)

}
