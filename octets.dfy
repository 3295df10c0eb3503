/** The one byte type shared by the key store's buffers and the packet fields. */
module Octets {

  /** An unsigned 8-bit value: a `uint8_t` of the adapter, an octet of a packet. */
  type Octet = x: int | 0 <= x < 256
}
