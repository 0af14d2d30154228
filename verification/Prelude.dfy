/** Types shared by every component of the model. */
module Prelude {

  datatype Option<+T> = None | Some(value: T)

  /** One octet, as stored in the library's `char` and `uint8_t` buffers. */
  type byte = b: int | 0 <= b < 256
}
