/** Small shared vocabulary: optional values and bytes. */
module Wrappers {

  datatype Option<+T> = None | Some(value: T)

  /** An octet, as held in a QByteArray. */
  type Byte = b: int | 0 <= b < 256
}
