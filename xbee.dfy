/**
 * The XBee remote-AT command packet (`xbee::Command::new`) and the
 * address check that `xbee::Device::new` performs on the reply to its
 * `MY` probe.
 */
module Xbee {
  import opened Wrappers
  import opened Bytes
  import opened Net

  /**
   * The ten bytes in front of every command: preamble 0x4242, 0x0000, packet
   * id 0, no encryption, command id 2 (remote AT command), no command
   * options, frame id 1, config options 2 (apply immediately).
   */
  const HEADER: seq<byte> := [0x42, 0x42, 0x00, 0x00, 0x00, 0x00, 0x02, 0x00, 0x01, 0x02]
  const HEADER_LEN: nat := 10

  /** The AT command `MY` (the module's own IPv4 address). */
  const MY: seq<byte> := [0x4D, 0x59]

  /** The UDP port the modules listen on. */
  const XBEE_PORT: nat := 3054

  /** Size of the receive buffer `Device::new` reads the reply into. */
  const RX_LEN: nat := 16

  /**
   * The packet for AT command c with arguments a: the fixed header, the
   * command at offset 10, then the arguments.
   */
  function Packet(c: seq<byte>, a: seq<byte>): (p: seq<byte>)
    ensures |p| == HEADER_LEN + |c| + |a|
    ensures p[..HEADER_LEN] == HEADER
    ensures p[HEADER_LEN..HEADER_LEN + |c|] == c && p[HEADER_LEN + |c|..] == a
  {
    var p := HEADER + c + a;
    assert p[..HEADER_LEN] == HEADER;
    assert p[HEADER_LEN..HEADER_LEN + |c|] == c;
    assert p[HEADER_LEN + |c|..] == a;
    p
  }

  /**
   * Reading a packet back, given the length of its command: the inverse of
   * Packet, failing on anything that does not start with the header.
   */
  function Unpack(p: seq<byte>, commandLen: nat): (r: Option<(seq<byte>, seq<byte>)>)
    ensures r.Some? <==> |p| >= HEADER_LEN + commandLen && p[..HEADER_LEN] == HEADER
  {
    if |p| < HEADER_LEN + commandLen || p[..HEADER_LEN] != HEADER then None
    else Some((p[HEADER_LEN..HEADER_LEN + commandLen], p[HEADER_LEN + commandLen..]))
  }

  lemma PacketRoundTrip(c: seq<byte>, a: seq<byte>)
    ensures Unpack(Packet(c, a), |c|) == Some((c, a))
  {
  }

  /** Different commands of one length, or different arguments, give different packets. */
  lemma PacketInjective(c1: seq<byte>, a1: seq<byte>, c2: seq<byte>, a2: seq<byte>)
    requires |c1| == |c2| && Packet(c1, a1) == Packet(c2, a2)
    ensures c1 == c2 && a1 == a2
  {
    PacketRoundTrip(c1, a1);
    PacketRoundTrip(c2, a2);
  }

  /** The header is the same for every command and argument list. */
  lemma HeaderShared(c1: seq<byte>, a1: seq<byte>, c2: seq<byte>, a2: seq<byte>)
    ensures Packet(c1, a1)[..HEADER_LEN] == Packet(c2, a2)[..HEADER_LEN]
  {
  }

  /** The discovery probe: `MY` with no arguments, twelve bytes. */
  lemma ProbePacket()
    ensures Packet(MY, []) == HEADER + [0x4D, 0x59] && |Packet(MY, [])| == 12
  {
  }

  /** `Command::new`: the packet grown by successive `put_u16`, `put_u8` and `put` calls. */
  method NewCommand(command: seq<byte>, arguments: seq<byte>) returns (packet: seq<byte>)
    ensures packet == Packet(command, arguments)
  {
    ToBE16(0x4242);
    ToBE16(0x0000);
    var buf := new Buffer([]);
    buf.Put(ToBE(0x4242, 2));
    buf.Put(ToBE(0x0000, 2));
    assert buf.data == [0x42, 0x42, 0x00, 0x00];
    buf.Put([0x00]);
    buf.Put([0x00]);
    buf.Put([0x02]);
    buf.Put([0x00]);
    buf.Put([0x01]);
    buf.Put([0x02]);
    assert buf.data == HEADER;
    buf.Put(command);
    buf.Put(arguments);
    packet := buf.data;
  }

  /** `put_u16(0x4242)` and `put_u16(0x0000)` are the first four header bytes. */
  lemma HeaderBytes()
    ensures ToBE(0x4242, 2) + ToBE(0x0000, 2) + [0x00, 0x00, 0x02, 0x00, 0x01, 0x02] == HEADER
  {
    ToBE16(0x4242);
    ToBE16(0x0000);
  }

  datatype XbeeError = Ipv4Mismatch | IoError

  /** A module whose address has been confirmed; the socket is not modelled. */
  datatype Device = Device(addr: Ipv4)

  /**
   * The receive buffer after `recv_from` into `[0; 16]`: the first bytes of
   * the datagram, zeros after a short one, a longer one cut off.
   */
  function Received(reply: seq<byte>): (b: seq<byte>)
    ensures |b| == RX_LEN
    ensures forall i :: 0 <= i < RX_LEN ==> b[i] == if i < |reply| then reply[i] else 0
  {
    if |reply| >= RX_LEN then reply[..RX_LEN] else reply + seq(RX_LEN - |reply|, _ => 0)
  }

  /**
   * `Device::new` with the reply to the probe as input (None when binding,
   * connecting, sending or receiving failed).
   */
  method NewDevice(addr: Ipv4, reply: Option<seq<byte>>) returns (r: Result<Device, XbeeError>)
    ensures reply.None? ==> r == Err(IoError)
    ensures reply.Some? ==>
      (r.Ok? <==> Received(reply.value)[12..16] == addr.Octets())
    ensures r.Ok? ==> r.value == Device(addr)
    ensures r.Err? && reply.Some? ==> r.error == Ipv4Mismatch
  {
    var probe := NewCommand(MY, []);
    if reply.None? {
      return Err(IoError);
    }
    var rx := new byte[RX_LEN](_ => 0);
    var n := if |reply.value| < RX_LEN then |reply.value| else RX_LEN;
    var i := 0;
    while i < n
      invariant 0 <= i <= n
      invariant forall j :: 0 <= j < i ==> rx[j] == reply.value[j]
      invariant forall j :: i <= j < RX_LEN ==> rx[j] == 0
    {
      rx[i] := reply.value[i];
      i := i + 1;
    }
    assert rx[..] == Received(reply.value);
    if FromOctets(rx[12..16]) == addr {
      assert rx[12..16] == FromOctets(rx[12..16]).Octets();
      return Ok(Device(addr));
    }
    return Err(Ipv4Mismatch);
  }

  /** A reply of at most twelve bytes carries no address: only 0.0.0.0 matches it. */
  lemma ShortReplyRejected(addr: Ipv4, reply: seq<byte>)
    requires |reply| <= 12
    ensures Received(reply)[12..16] == addr.Octets() <==> addr == Ipv4(0, 0, 0, 0)
  {
    var b := Received(reply);
    assert b[12..16] == [b[12], b[13], b[14], b[15]];
  }

  /** A reply that echoes the address at bytes 12 to 15 is accepted. */
  lemma EchoAccepted(addr: Ipv4, prefix: seq<byte>, suffix: seq<byte>)
    requires |prefix| == 12
    ensures Received(prefix + addr.Octets() + suffix)[12..16] == addr.Octets()
  {
    var reply := prefix + addr.Octets() + suffix;
    var b := Received(reply);
    assert b[12..16] == reply[12..16];
    assert reply[12..16] == addr.Octets();
  }
}
