/** Addresses of sockets, as the media path and session descriptions name them. */
module Addresses {
  import opened Words

  datatype Ip = V4(word: u32) | V6(bits: u128)

  datatype Address = Address(ip: Ip, port: u16)
}
