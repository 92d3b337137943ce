/** A value that may be absent: a loaded image, a found preset, a drawn letterbox. */
module Wrappers {

  datatype Option<+T> = None | Some(value: T)
}
