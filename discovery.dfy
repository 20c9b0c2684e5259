/**
 * The stand-alone XBee discovery tool: it broadcasts `MY` probes, keeps a
 * table of the modules that answered keyed by the last four bytes of each
 * reply, forgets modules silent for half a second, and lists the table as
 * cards on every text message of a web-socket client. Time is a count of
 * milliseconds; device ids are supplied by the caller.
 */
module Discovery {
  import opened Wrappers
  import opened Bytes
  import Xbee

  /** Devices silent at least this long are removed. */
  const EXPIRY_MS: int := 500

  /** `xbee_command`: the same remote-AT packet as `Command::new`, built in a `BytesMut`. */
  method XbeeCommand(command: seq<byte>, arguments: seq<byte>) returns (packet: seq<byte>)
    ensures packet == Xbee.Packet(command, arguments)
    ensures packet[..Xbee.HEADER_LEN] == Xbee.HEADER
  {
    ToBE16(0x4242);
    ToBE16(0x0000);
    var buf := new Buffer([]);
    buf.Put(ToBE(0x4242, 2));
    buf.Put(ToBE(0x0000, 2));
    assert buf.data == [0x42, 0x42, 0x00, 0x00];
    buf.Put([0x00]);
    buf.Put([0x00]);
    buf.Put([0x02]);
    buf.Put([0x00]);
    buf.Put([0x01]);
    buf.Put([0x02]);
    assert buf.data == Xbee.HEADER;
    buf.Put(command);
    buf.Put(arguments);
    packet := buf.data;
  }

  datatype XbeeDevice = XbeeDevice(id: nat, lastSeen: int)

  /** The key of a reply: its last four bytes; replies shorter than that have none. */
  function ReplyKey(rx: seq<byte>): (k: Option<seq<byte>>)
    ensures k.Some? <==> |rx| >= 4
    ensures k.Some? ==> |k.value| == 4 && rx == rx[..|rx| - 4] + k.value
  {
    if |rx| < 4 then None else Some(rx[|rx| - 4..])
  }

  /** `retain`: a device stays while younger than the expiry, or when seen in the future. */
  predicate Alive(d: XbeeDevice, now: int)
  {
    now < d.lastSeen || now - d.lastSeen < EXPIRY_MS
  }

  /** The table after one datagram: the key's entry gets `now`, keeping its id when known. */
  function Refreshed(devices: map<seq<byte>, XbeeDevice>, rx: seq<byte>, now: int, freshId: nat): (d: map<seq<byte>, XbeeDevice>)
    ensures ReplyKey(rx).None? ==> d == devices
    ensures ReplyKey(rx).Some? ==> d.Keys == devices.Keys + {ReplyKey(rx).value}
    ensures forall k :: k in devices && Some(k) != ReplyKey(rx) ==> d[k] == devices[k]
    ensures ReplyKey(rx).Some? ==> d[ReplyKey(rx).value].lastSeen == now
  {
    match ReplyKey(rx)
    case None => devices
    case Some(k) => devices[k := XbeeDevice(if k in devices then devices[k].id else freshId, now)]
  }

  /** The table after expiry: the entries still alive, unchanged. */
  function Pruned(devices: map<seq<byte>, XbeeDevice>, now: int): (d: map<seq<byte>, XbeeDevice>)
    ensures d.Keys <= devices.Keys
    ensures forall k :: k in d ==> d[k] == devices[k] && Alive(d[k], now)
    ensures forall k :: k in devices && Alive(devices[k], now) ==> k in d
  {
    map k | k in devices && Alive(devices[k], now) :: devices[k]
  }

  /** A known module keeps its id however often it answers. */
  lemma RefreshKeepsIds(devices: map<seq<byte>, XbeeDevice>, rx: seq<byte>, now: int, freshId: nat)
    ensures forall k :: k in devices ==> Refreshed(devices, rx, now, freshId)[k].id == devices[k].id
  {
  }

  /** A module that has just answered survives an expiry at the same time. */
  lemma JustSeenSurvives(devices: map<seq<byte>, XbeeDevice>, rx: seq<byte>, now: int, freshId: nat)
    requires |rx| >= 4
    ensures rx[|rx| - 4..] in Pruned(Refreshed(devices, rx, now, freshId), now)
  {
    var d := Refreshed(devices, rx, now, freshId);
    assert Alive(d[rx[|rx| - 4..]], now);
  }

  /** Expiring twice at the same time removes nothing more. */
  lemma PruneIdempotent(devices: map<seq<byte>, XbeeDevice>, now: int)
    ensures Pruned(Pruned(devices, now), now) == Pruned(devices, now)
  {
  }

  datatype GuiCard = GuiCard(span: nat, key: seq<byte>, device: XbeeDevice, actions: seq<string>)
  datatype GuiContent = GuiContent(title: string, cards: seq<GuiCard>)

  class XbeeDevices {
    var devices: map<seq<byte>, XbeeDevice>

    /** `XbeeDevices::default()`. */
    constructor ()
      ensures devices == map[]
    {
      devices := map[];
    }

    /**
     * One received datagram: `entry(key).or_insert_with(new).last_seen = now`.
     * A known key keeps its id; an unknown one gets `freshId`.
     */
    method Receive(rx: seq<byte>, now: int, freshId: nat)
      modifies this
      ensures devices == Refreshed(old(devices), rx, now, freshId)
    {
      if |rx| >= 4 {
        var key := rx[|rx| - 4..];
        var device := if key in devices then devices[key] else XbeeDevice(freshId, 0);
        devices := devices[key := device.(lastSeen := now)];
      }
    }

    /** The periodic `retain` after each broadcast. */
    method Expire(now: int)
      modifies this
      ensures devices == Pruned(old(devices), now)
    {
      devices := map k | k in devices && Alive(devices[k], now) :: devices[k];
    }

    /**
     * The reply to one web-socket message: nothing for a non-text message;
     * otherwise "Connections" with one card per device, each four columns
     * wide with the single action "Connect", in the table's iteration order.
     */
    method Connected(isText: bool) returns (reply: Option<GuiContent>)
      ensures !isText ==> reply.None?
      ensures isText ==> reply.Some? && reply.value.title == "Connections"
      ensures isText ==> |reply.value.cards| == |devices|
      ensures isText ==> forall c :: c in reply.value.cards ==>
        c.span == 4 && c.actions == ["Connect"] && c.key in devices && devices[c.key] == c.device
      ensures isText ==> forall k :: k in devices ==> exists c :: c in reply.value.cards && c.key == k
    {
      if !isText {
        return None;
      }
      var cards: seq<GuiCard> := [];
      var remaining := devices.Keys;
      while remaining != {}
        invariant remaining <= devices.Keys
        invariant |cards| + |remaining| == |devices|
        invariant forall c :: c in cards ==>
          c.span == 4 && c.actions == ["Connect"] && c.key in devices && devices[c.key] == c.device
        invariant forall k :: k in devices && k !in remaining ==> exists c :: c in cards && c.key == k
        invariant forall c :: c in cards ==> c.key !in remaining
        decreases |remaining|
      {
        var key :| key in remaining;
        var card := GuiCard(4, key, devices[key], ["Connect"]);
        cards := cards + [card];
        remaining := remaining - {key};
      }
      assert |devices.Keys| == |devices|;
      return Some(GuiContent("Connections", cards));
    }
  }
}
