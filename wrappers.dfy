/** Optional values: `None` also stands for "the Python call raised". */
module Wrappers {

  datatype Option<+T> = None | Some(value: T)

}
