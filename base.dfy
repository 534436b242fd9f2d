/** Optional values: Python's `None` versus a present value. */
module Base {

  datatype Option<+T> = None | Some(value: T)

}
