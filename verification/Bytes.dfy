/** Bytes and byte strings: the model's `uint8_t` and `std::string`. */
module Bytes {
  type byte = x: int | 0 <= x < 256

  /** A `std::string`: any sequence of bytes, not necessarily valid UTF-8. */
  type Text = seq<byte>
}
