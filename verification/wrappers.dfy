/** An optional value, standing for the nullable references of the watch face
    (a bitmap that may be absent, a stored value that may fail to read). */
module Wrappers {

  datatype Option<+T> = None | Some(value: T)
}
