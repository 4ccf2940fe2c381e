module Octets {
  newtype Byte = x: int | 0 <= x < 256
}
