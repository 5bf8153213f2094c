/** The bytes that datagrams, streams, addresses and files consist of. */
module Octets {
  type byte = b: int | 0 <= b < 256
}
