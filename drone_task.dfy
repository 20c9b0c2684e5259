/**
 * The drone's XBee configuration: the pin set-up sent at start-up, and the
 * two 16-bit digital-output masks (`OM`, which pins are driven, and `IO`,
 * which of them are high) that switch the UpCore and Pixhawk power rails.
 * Each send is one XBee datagram whose outcome is an input.
 */
module DroneTask {
  import opened Wrappers
  import opened Bytes
  import opened Io
  import Xbee

  const UPCORE_POWER_BIT_INDEX: nat := 11
  const PIXHAWK_POWER_BIT_INDEX: nat := 12
  const MUX_CONTROL_BIT_INDEX: nat := 4

  /** Pin modes: disabled, and digital output (low). */
  const PIN_DISABLE_OUTPUT: byte := 0
  const PIN_DIGITAL_OUTPUT: byte := 4

  /** The AT command names in ASCII. */
  const D7: seq<byte> := [0x44, 0x37]
  const D6: seq<byte> := [0x44, 0x36]
  const P3: seq<byte> := [0x50, 0x33]
  const P4: seq<byte> := [0x50, 0x34]
  const D4: seq<byte> := [0x44, 0x34]
  const D1: seq<byte> := [0x44, 0x31]
  const D2: seq<byte> := [0x44, 0x32]
  const OM: seq<byte> := [0x4F, 0x4D]
  const IO: seq<byte> := [0x49, 0x4F]

  /** `1 << index` as a `u16`. */
  function Bit(index: nat): (m: bv16)
    requires index < 16
    ensures m != 0 && m & (m - 1) == 0
  {
    (1 as bv16) << index
  }

  /** `to_be_bytes` of a `u16`: high byte first. */
  function MaskBytes(m: bv16): (b: seq<byte>)
    ensures |b| == 2 && FromBE(b) == m as int
  {
    FromToBE(m as int, 2);
    ToBE(m as int, 2)
  }

  /**
   * The set of driven pins for a power request: the UpCore bit when the
   * UpCore is mentioned, the Pixhawk bit when the Pixhawk is.
   */
  function ConfigMask(upcore: Option<bool>, pixhawk: Option<bool>): (m: bv16)
    ensures (m & Bit(UPCORE_POWER_BIT_INDEX) != 0) <==> upcore.Some?
    ensures (m & Bit(PIXHAWK_POWER_BIT_INDEX) != 0) <==> pixhawk.Some?
    ensures m & !(Bit(UPCORE_POWER_BIT_INDEX) | Bit(PIXHAWK_POWER_BIT_INDEX)) == 0
  {
    (if upcore.Some? then Bit(UPCORE_POWER_BIT_INDEX) else 0) |
    (if pixhawk.Some? then Bit(PIXHAWK_POWER_BIT_INDEX) else 0)
  }

  /** The pins driven high: a rail's bit exactly when that rail is to be switched on. */
  function SetMask(upcore: Option<bool>, pixhawk: Option<bool>): (m: bv16)
    ensures (m & Bit(UPCORE_POWER_BIT_INDEX) != 0) <==> upcore == Some(true)
    ensures (m & Bit(PIXHAWK_POWER_BIT_INDEX) != 0) <==> pixhawk == Some(true)
    ensures m & ConfigMask(upcore, pixhawk) == m
  {
    (if upcore == Some(true) then Bit(UPCORE_POWER_BIT_INDEX) else 0) |
    (if pixhawk == Some(true) then Bit(PIXHAWK_POWER_BIT_INDEX) else 0)
  }

  /** `OM` with the driven pins, then `IO` with the high ones. */
  function PowerCommands(upcore: Option<bool>, pixhawk: Option<bool>): seq<seq<byte>>
  {
    [Xbee.Packet(OM, MaskBytes(ConfigMask(upcore, pixhawk))), Xbee.Packet(IO, MaskBytes(SetMask(upcore, pixhawk)))]
  }

  /** The mask with only the multiplexer bit, used for both `OM` and `IO` at start-up. */
  function MuxMask(): (m: bv16)
    ensures MaskBytes(m) == [0x00, 0x10]
  {
    var m := Bit(MUX_CONTROL_BIT_INDEX);
    assert m as int == 16;
    ToBE16(16);
    m
  }

  /**
   * The start-up sequence: the four UART pins disabled, three pins as
   * digital outputs, then the multiplexer pin driven high.
   */
  function InitCommands(): (c: seq<seq<byte>>)
    ensures |c| == 9
  {
    [ Xbee.Packet(D7, [PIN_DISABLE_OUTPUT]), Xbee.Packet(D6, [PIN_DISABLE_OUTPUT]),
      Xbee.Packet(P3, [PIN_DISABLE_OUTPUT]), Xbee.Packet(P4, [PIN_DISABLE_OUTPUT]),
      Xbee.Packet(D4, [PIN_DIGITAL_OUTPUT]), Xbee.Packet(D1, [PIN_DIGITAL_OUTPUT]),
      Xbee.Packet(D2, [PIN_DIGITAL_OUTPUT]),
      Xbee.Packet(OM, MaskBytes(MuxMask())), Xbee.Packet(IO, MaskBytes(MuxMask())) ]
  }

  /** The command names of the start-up sequence, in the order they are sent. */
  const INIT_NAMES: seq<seq<byte>> := [D7, D6, P3, P4, D4, D1, D2, OM, IO]

  /** The receiving module reads each start-up packet back as its command and argument. */
  lemma InitCommandsRead(i: nat)
    requires i < 9
    ensures Xbee.Unpack(InitCommands()[i], 2) ==
      Some((INIT_NAMES[i], if i < 4 then [0x00] else if i < 7 then [0x04] else [0x00, 0x10]))
  {
    var c := InitCommands();
    var a := if i < 4 then [0x00] else if i < 7 then [0x04] else [0x00, 0x10];
    assert c[i] == Xbee.Packet(INIT_NAMES[i], a);
    Xbee.PacketRoundTrip(INIT_NAMES[i], a);
  }

  /** A power request for neither rail still sends both commands, with empty masks. */
  lemma NoRequestClearsNothing()
    ensures PowerCommands(None, None) == [Xbee.Packet(OM, [0x00, 0x00]), Xbee.Packet(IO, [0x00, 0x00])]
  {
    ToBE16(0);
  }

  /** The two masks of `set_power`, built with `|=`. */
  method BuildPowerMasks(upcore: Option<bool>, pixhawk: Option<bool>) returns (dioConfig: bv16, dioSet: bv16)
    ensures dioConfig == ConfigMask(upcore, pixhawk) && dioSet == SetMask(upcore, pixhawk)
  {
    dioConfig := 0;
    dioSet := 0;
    if upcore.Some? {
      dioConfig := dioConfig | Bit(UPCORE_POWER_BIT_INDEX);
      if upcore.value {
        dioSet := dioSet | Bit(UPCORE_POWER_BIT_INDEX);
      }
    }
    if pixhawk.Some? {
      dioConfig := dioConfig | Bit(PIXHAWK_POWER_BIT_INDEX);
      if pixhawk.value {
        dioSet := dioSet | Bit(PIXHAWK_POWER_BIT_INDEX);
      }
    }
  }

  /** `set_power`: `OM` then `IO` sent, each with `?`. */
  method SetPower(upcore: Option<bool>, pixhawk: Option<bool>, ok: seq<bool>) returns (sent: seq<seq<byte>>, success: bool)
    ensures (sent, success) == Transmit(PowerCommands(upcore, pixhawk), ok, 0)
  {
    var dioConfig, dioSet := BuildPowerMasks(upcore, pixhawk);
    var cmdOm := Xbee.NewCommand(OM, MaskBytes(dioConfig));
    var cmdIo := Xbee.NewCommand(IO, MaskBytes(dioSet));
    TransmitTwo(cmdOm, cmdIo, ok);
    if !Succeeds(ok, 0) {
      return [cmdOm], false;
    }
    if !Succeeds(ok, 1) {
      return [cmdOm, cmdIo], false;
    }
    return [cmdOm, cmdIo], true;
  }

  /** `init`: the nine commands built, then sent in a `for` loop with `?`. */
  method Init(ok: seq<bool>) returns (sent: seq<seq<byte>>, success: bool)
    ensures (sent, success) == Transmit(InitCommands(), ok, 0)
  {
    var dioConfig: bv16 := 0;
    var dioSet: bv16 := 0;
    dioConfig := dioConfig | Bit(MUX_CONTROL_BIT_INDEX);
    dioSet := dioSet | Bit(MUX_CONTROL_BIT_INDEX);
    var c0 := Xbee.NewCommand(D7, [PIN_DISABLE_OUTPUT]);
    var c1 := Xbee.NewCommand(D6, [PIN_DISABLE_OUTPUT]);
    var c2 := Xbee.NewCommand(P3, [PIN_DISABLE_OUTPUT]);
    var c3 := Xbee.NewCommand(P4, [PIN_DISABLE_OUTPUT]);
    var c4 := Xbee.NewCommand(D4, [PIN_DIGITAL_OUTPUT]);
    var c5 := Xbee.NewCommand(D1, [PIN_DIGITAL_OUTPUT]);
    var c6 := Xbee.NewCommand(D2, [PIN_DIGITAL_OUTPUT]);
    var c7 := Xbee.NewCommand(OM, MaskBytes(dioConfig));
    var c8 := Xbee.NewCommand(IO, MaskBytes(dioSet));
    var initCommands := [c0, c1, c2, c3, c4, c5, c6, c7, c8];
    assert initCommands == InitCommands();
    sent, success := SendAll(initCommands, ok);
  }
}
