/** Network addresses as the Rust standard library represents them. */
module Net {
  import opened Bytes

  /** `std::net::Ipv4Addr`: four octets, most significant first. */
  datatype Ipv4 = Ipv4(a: byte, b: byte, c: byte, d: byte)
  {
    function Octets(): (s: seq<byte>)
      ensures |s| == 4 && FromOctets(s) == this
    {
      [a, b, c, d]
    }
  }

  /** `Ipv4Addr::from([u8; 4])`. */
  function FromOctets(s: seq<byte>): Ipv4
    requires |s| == 4
  {
    Ipv4(s[0], s[1], s[2], s[3])
  }

  /** `std::net::SocketAddr` for IPv4 peers: an address and a 16-bit port. */
  datatype SocketAddr = SocketAddr(ip: Ipv4, port: nat)

  /** A 48-bit hardware (MAC) address. */
  datatype MacAddr = MacAddr(octets: seq<byte>)
}
