/**
 * What the browser client shows for a robot's links: the icon level of a
 * battery or signal reading, and the record kept for a link that is
 * connected or disconnected. The Raspberry Pi of a Pi-Puck, the DuoVero of
 * a BuilderBot and the XBee of a drone keep the same record (an address, a
 * battery and a signal reading, a terminal); readings and terminal output
 * only land while the link is connected.
 */
module ClientStatus {
  import opened Wrappers
  import opened Bytes
  import opened Net

  /** The text shown for a reading that has not arrived yet. */
  const UNKNOWN: string := "Unknown"

  /** The text shown for the signal of a link that is down. */
  const DISCONNECTED: string := "Disconnected"

  /**
   * The icon (1 to 4) for a percentage: 0..=24, 25..=49, 50..=74, and every
   * other value, negative ones included, shows 4.
   */
  function Level(value: int): (b: nat)
    ensures 1 <= b <= 4
    ensures b == 1 <==> 0 <= value <= 24
    ensures b == 2 <==> 25 <= value <= 49
    ensures b == 3 <==> 50 <= value <= 74
    ensures b == 4 <==> value < 0 || 75 <= value
  {
    if 0 <= value <= 24 then 1
    else if 25 <= value <= 49 then 2
    else if 50 <= value <= 74 then 3
    else 4
  }

  /** On percentages from 0 up the icon never falls as the value grows. */
  lemma LevelMonotone(a: int, b: int)
    requires 0 <= a <= b
    ensures Level(a) <= Level(b)
  {
  }

  /** The caption shown beside an icon: a message, or the percentage. */
  datatype Info = Text(text: string) | Percent(value: int)

  datatype Indicator = Indicator(level: nat, info: Info)

  /**
   * The icon and caption of a reading: level 0 with the given text while the
   * link is down (`None`), level 0 with the error's message while the
   * reading is an error, and otherwise `Level` of the value plus `offset`
   * (90 for a Wi-Fi signal, 0 for a battery or the XBee signal), captioned
   * with that same sum.
   */
  function Show(reading: Option<Result<int, string>>, offset: int, absent: string): (g: Indicator)
    ensures g.level <= 4
    ensures g.level == 0 <==> !(reading.Some? && reading.value.Ok?)
    ensures reading.None? ==> g.info == Text(absent)
    ensures reading.Some? && reading.value.Err? ==> g.info == Text(reading.value.error)
    ensures reading.Some? && reading.value.Ok? ==>
      g == Indicator(Level(reading.value.value + offset), Percent(reading.value.value + offset))
  {
    match reading
    case None => Indicator(0, Text(absent))
    case Some(Err(message)) => Indicator(0, Text(message))
    case Some(Ok(level)) => Indicator(Level(level + offset), Percent(level + offset))
  }

  /** A link as the client keeps it. */
  datatype Link =
    | Connected(addr: Ipv4, battery: Result<int, string>, signal: Result<int, string>, terminal: string)
    | Disconnected

  /** The updates a link takes: it comes up at an address, goes down, or reports a reading or terminal output. */
  datatype LinkEvent =
    | Up(addr: Ipv4)
    | Down
    | BatteryReading(level: int)
    | SignalReading(level: int)
    | Output(text: string)

  /**
   * One update: coming up makes a fresh record (both readings unknown, an
   * empty terminal) whatever the link was; going down discards the record;
   * a reading replaces that reading and output is appended to the terminal,
   * but only while connected: a link that is down ignores both.
   */
  function LinkAfter(l: Link, e: LinkEvent): (r: Link)
    ensures e.Up? ==> r == Connected(e.addr, Err(UNKNOWN), Err(UNKNOWN), [])
    ensures e.Down? ==> r == Disconnected
    ensures !e.Up? && !e.Down? ==> r.Connected? == l.Connected?
    ensures l.Disconnected? && !e.Up? ==> r == Disconnected
    ensures l.Connected? && !e.Up? && !e.Down? ==> (r.addr == l.addr &&
      r.battery == (if e.BatteryReading? then Ok(e.level) else l.battery) &&
      r.signal == (if e.SignalReading? then Ok(e.level) else l.signal) &&
      r.terminal == (if e.Output? then l.terminal + e.text else l.terminal))
  {
    match e
    case Up(addr) => Connected(addr, Err(UNKNOWN), Err(UNKNOWN), [])
    case Down => Disconnected
    case BatteryReading(level) => if l.Connected? then l.(battery := Ok(level)) else l
    case SignalReading(level) => if l.Connected? then l.(signal := Ok(level)) else l
    case Output(text) => if l.Connected? then l.(terminal := l.terminal + text) else l
  }

  /** A link after a run of updates, in order. */
  function Session(l: Link, events: seq<LinkEvent>): Link
    decreases |events|
  {
    if events == [] then l else Session(LinkAfter(l, events[0]), events[1..])
  }

  /** The terminal output of a run of updates, concatenated in order. */
  function OutputOf(events: seq<LinkEvent>): string
    decreases |events|
  {
    if events == [] then []
    else (if events[0].Output? then events[0].text else []) + OutputOf(events[1..])
  }

  /** The battery reading after a run of updates: the last one reported, or `current` if none was. */
  function LatestBattery(current: Result<int, string>, events: seq<LinkEvent>): Result<int, string>
    decreases |events|
  {
    if events == [] then current
    else LatestBattery(if events[0].BatteryReading? then Ok(events[0].level) else current, events[1..])
  }

  /** The signal reading after a run of updates: the last one reported, or `current` if none was. */
  function LatestSignal(current: Result<int, string>, events: seq<LinkEvent>): Result<int, string>
    decreases |events|
  {
    if events == [] then current
    else LatestSignal(if events[0].SignalReading? then Ok(events[0].level) else current, events[1..])
  }

  /** No update in the run brings the link up or down. */
  predicate Steady(events: seq<LinkEvent>)
  {
    forall i :: 0 <= i < |events| ==> !events[i].Up? && !events[i].Down?
  }

  /** Running two runs one after another is running their concatenation. */
  lemma {:induction false} SessionAppend(l: Link, a: seq<LinkEvent>, b: seq<LinkEvent>)
    ensures Session(l, a + b) == Session(Session(l, a), b)
    decreases |a|
  {
    if a != [] {
      assert (a + b)[0] == a[0] && (a + b)[1..] == a[1..] + b;
      SessionAppend(LinkAfter(l, a[0]), a[1..], b);
    } else {
      assert a + b == b;
    }
  }

  /**
   * While a link stays up, it keeps its address, each reading is the last
   * one reported, and its terminal gains all the output, in order.
   */
  lemma {:induction false} SessionWhileConnected(l: Link, events: seq<LinkEvent>)
    requires l.Connected? && Steady(events)
    ensures Session(l, events) ==
      Connected(l.addr, LatestBattery(l.battery, events), LatestSignal(l.signal, events), l.terminal + OutputOf(events))
    decreases |events|
  {
    if events == [] {
      assert l.terminal + [] == l.terminal;
    } else {
      var next := LinkAfter(l, events[0]);
      assert Steady(events[1..]) by {
        forall i | 0 <= i < |events[1..]| ensures !events[1..][i].Up? && !events[1..][i].Down? {
          assert events[1..][i] == events[i + 1];
        }
      }
      SessionWhileConnected(next, events[1..]);
      var head := if events[0].Output? then events[0].text else [];
      assert next.terminal == l.terminal + head;
      assert (l.terminal + head) + OutputOf(events[1..]) == l.terminal + (head + OutputOf(events[1..]));
    }
  }

  /** A link that is down stays down, and keeps nothing, until an update brings it up. */
  lemma {:induction false} SessionWhileDisconnected(l: Link, events: seq<LinkEvent>)
    requires l.Disconnected?
    requires forall i :: 0 <= i < |events| ==> !events[i].Up?
    ensures Session(l, events) == Disconnected
    decreases |events|
  {
    if events != [] {
      assert forall i :: 0 <= i < |events[1..]| ==> events[1..][i] == events[i + 1];
      SessionWhileDisconnected(LinkAfter(l, events[0]), events[1..]);
    }
  }

  /**
   * After the last time a link came up, at index `k`, the record holds that
   * address, only the readings reported since, and only the output written
   * since: nothing from an earlier connection survives.
   */
  lemma SessionAfterUp(l: Link, events: seq<LinkEvent>, k: nat)
    requires k < |events| && events[k].Up? && Steady(events[k + 1..])
    ensures Session(l, events) ==
      Connected(events[k].addr, LatestBattery(Err(UNKNOWN), events[k + 1..]),
        LatestSignal(Err(UNKNOWN), events[k + 1..]), OutputOf(events[k + 1..]))
  {
    var before := events[..k];
    var rest := events[k + 1..];
    assert events == before + ([events[k]] + rest);
    SessionAppend(l, before, [events[k]] + rest);
    var up := LinkAfter(Session(l, before), events[k]);
    assert ([events[k]] + rest)[0] == events[k] && ([events[k]] + rest)[1..] == rest;
    assert Session(Session(l, before), [events[k]] + rest) == Session(up, rest);
    SessionWhileConnected(up, rest);
    assert up.terminal + OutputOf(rest) == OutputOf(rest);
  }

  /** What a camera reports: a frame's bytes, or an error message. */
  type Frame = Result<seq<byte>, string>

  /** The camera map after a camera reports: that camera's entry is inserted or overwritten, no other changes. */
  function CamerasAfter(cameras: map<string, Frame>, camera: string, result: Frame): (r: map<string, Frame>)
    ensures r.Keys == cameras.Keys + {camera}
    ensures r[camera] == result
    ensures forall c :: c in cameras && c != camera ==> r[c] == cameras[c]
  {
    cameras[camera := result]
  }

  /** A link whose terminal is cleared, as opening the terminal does; a link that is down is left as it is. */
  function Cleared(l: Link): (r: Link)
    ensures l.Disconnected? ==> r == Disconnected
    ensures l.Connected? ==> (r.Connected? && r.addr == l.addr && r.battery == l.battery &&
      r.signal == l.signal && r.terminal == [])
  {
    if l.Connected? then l.(terminal := []) else l
  }

  /** The battery icon of a link: level 0 captioned "Unknown" while it is down. */
  function BatteryOf(l: Link): (g: Indicator)
    ensures g.level == 0 <==> l.Disconnected? || l.battery.Err?
    ensures l.Disconnected? ==> g.info == Text(UNKNOWN)
    ensures l.Connected? && l.battery.Err? ==> g.info == Text(l.battery.error)
    ensures l.Connected? && l.battery.Ok? ==> g == Indicator(Level(l.battery.value), Percent(l.battery.value))
  {
    Show(if l.Connected? then Some(l.battery) else None, 0, UNKNOWN)
  }

  /** The signal icon of a link, reading `offset` above the reported level: level 0 captioned "Disconnected" while it is down. */
  function SignalOf(l: Link, offset: int): (g: Indicator)
    ensures g.level == 0 <==> l.Disconnected? || l.signal.Err?
    ensures l.Disconnected? ==> g.info == Text(DISCONNECTED)
    ensures l.Connected? && l.signal.Err? ==> g.info == Text(l.signal.error)
    ensures l.Connected? && l.signal.Ok? ==>
      g == Indicator(Level(l.signal.value + offset), Percent(l.signal.value + offset))
  {
    Show(if l.Connected? then Some(l.signal) else None, offset, DISCONNECTED)
  }

  /** The updates a Pi-Puck or a BuilderBot sends to the client; the two robots' update types have the same variants. */
  datatype RobotUpdate =
    | Battery(reading: int)
    | Camera(camera: string, result: Frame)
    | FernbedienungConnected(addr: Ipv4)
    | FernbedienungDisconnected
    | FernbedienungSignal(strength: int)
    | Bash(response: string)

  /** What an update does to the robot's link; only a camera frame leaves the link alone. */
  function EventOf(u: RobotUpdate): (e: Option<LinkEvent>)
    ensures e.None? <==> u.Camera?
  {
    match u
    case Battery(reading) => Some(BatteryReading(reading))
    case Camera(_, _) => None
    case FernbedienungConnected(addr) => Some(Up(addr))
    case FernbedienungDisconnected => Some(Down)
    case FernbedienungSignal(strength) => Some(SignalReading(strength))
    case Bash(response) => Some(Output(response))
  }

  /** The link events among a run of updates, in order. */
  function EventsOf(us: seq<RobotUpdate>): seq<LinkEvent>
    decreases |us|
  {
    if us == [] then []
    else (match EventOf(us[0]) case Some(e) => [e] case None => []) + EventsOf(us[1..])
  }

  /** The state of a Pi-Puck or a BuilderBot in the client: its link and the latest frame of each camera. */
  datatype RobotStatus = RobotStatus(link: Link, cameras: map<string, Frame>)

  /** A new robot: link down, no camera frames. */
  const NEW_ROBOT := RobotStatus(Disconnected, map[])

  /** One update changes exactly one of the two parts: a frame the camera map, every other update the link. */
  function RobotNext(s: RobotStatus, u: RobotUpdate): (r: RobotStatus)
    ensures u.Camera? ==> r == s.(cameras := CamerasAfter(s.cameras, u.camera, u.result))
    ensures !u.Camera? ==> r == s.(link := LinkAfter(s.link, EventOf(u).value))
  {
    match EventOf(u)
    case Some(e) => s.(link := LinkAfter(s.link, e))
    case None => s.(cameras := CamerasAfter(s.cameras, u.camera, u.result))
  }

  /** A robot after a run of updates, in order. */
  function RobotReplay(s: RobotStatus, us: seq<RobotUpdate>): RobotStatus
    decreases |us|
  {
    if us == [] then s else RobotReplay(RobotNext(s, us[0]), us[1..])
  }

  /** The robot's link after a run of updates is the link's session over the run's link events. */
  lemma {:induction false} RobotReplayLink(s: RobotStatus, us: seq<RobotUpdate>)
    ensures RobotReplay(s, us).link == Session(s.link, EventsOf(us))
    decreases |us|
  {
    if us != [] {
      RobotReplayLink(RobotNext(s, us[0]), us[1..]);
      var rest := EventsOf(us[1..]);
      match EventOf(us[0]) {
        case Some(e) =>
          assert EventsOf(us) == [e] + rest;
          assert ([e] + rest)[0] == e && ([e] + rest)[1..] == rest;
        case None =>
          assert EventsOf(us) == [] + rest;
          assert [] + rest == rest;
      }
    }
  }
}
