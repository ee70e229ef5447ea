/** Python's `None`-or-value, and the raw byte strings that cross the sockets. */
module Wrappers {

  /** A value that may be absent; `None` plays the role of Python's `None`. */
  datatype Option<+T> = None | Some(value: T)

  /** One octet of a websocket or upstream audio frame. */
  type Byte = bv8

  /** A Python `bytes` object. */
  type Bytes = seq<Byte>
}
