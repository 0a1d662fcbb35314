/** Optional value; the tick's DAC output. */
module Wrappers {

  datatype Option<+T> = None | Some(value: T)
}
