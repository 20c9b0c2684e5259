/**
 * A drone in the browser client: the state of its two links (the Up Core
 * over Wi-Fi, and the XBee), its power flags and its camera frames,
 * updated in place by the updates the server sends, and the card that
 * shows it and sends the drone's terminal and camera requests.
 */
module ClientDrone {
  import opened Wrappers
  import opened Net
  import ClientStatus
  import Arena
  import WebUi

  /** The updates a drone sends to the client. */
  datatype Update =
    | Battery(reading: int)
    | Camera(camera: string, result: ClientStatus.Frame)
    | FernbedienungConnected(addr: Ipv4)
    | FernbedienungDisconnected
    | FernbedienungSignal(strength: int)
    | XbeeConnected(addr: Ipv4)
    | XbeeDisconnected
    | XbeeSignal(strength: int)
    | Bash(response: string)
    | Mavlink(response: string)
    | PowerState(upcore: bool, pixhawk: bool)

  /** The Up Core link: unlike the XBee it reports no battery. */
  datatype UpCore =
    | Connected(addr: Ipv4, signal: Result<int, string>, terminal: string)
    | Disconnected

  /** Updates that concern the Up Core link. */
  predicate ForUpCore(u: Update)
  {
    u.FernbedienungConnected? || u.FernbedienungDisconnected? || u.FernbedienungSignal? || u.Bash?
  }

  /**
   * One Up Core update: connecting makes a fresh record (signal unknown,
   * empty terminal), disconnecting discards it, and the signal and the Bash
   * output land only while connected.
   */
  function UpCoreAfter(c: UpCore, u: Update): (r: UpCore)
    requires ForUpCore(u)
    ensures u.FernbedienungConnected? ==> r == Connected(u.addr, Err(ClientStatus.UNKNOWN), [])
    ensures u.FernbedienungDisconnected? ==> r == Disconnected
    ensures c.Disconnected? && !u.FernbedienungConnected? ==> r == Disconnected
    ensures c.Connected? && (u.FernbedienungSignal? || u.Bash?) ==> (r.Connected? && r.addr == c.addr &&
      r.signal == (if u.FernbedienungSignal? then Ok(u.strength) else c.signal) &&
      r.terminal == (if u.Bash? then c.terminal + u.response else c.terminal))
  {
    match u
    case FernbedienungConnected(addr) => Connected(addr, Err(ClientStatus.UNKNOWN), [])
    case FernbedienungDisconnected => Disconnected
    case FernbedienungSignal(strength) => if c.Connected? then c.(signal := Ok(strength)) else c
    case Bash(response) => if c.Connected? then c.(terminal := c.terminal + response) else c
  }

  /** What an update does to the XBee link, if it concerns the XBee: the battery is read over it. */
  function XbeeEvent(u: Update): (e: Option<ClientStatus.LinkEvent>)
    ensures e.Some? <==> u.Battery? || u.XbeeConnected? || u.XbeeDisconnected? || u.XbeeSignal? || u.Mavlink?
  {
    match u
    case Battery(reading) => Some(ClientStatus.BatteryReading(reading))
    case XbeeConnected(addr) => Some(ClientStatus.Up(addr))
    case XbeeDisconnected => Some(ClientStatus.Down)
    case XbeeSignal(strength) => Some(ClientStatus.SignalReading(strength))
    case Mavlink(response) => Some(ClientStatus.Output(response))
    case _ => None
  }

  /** The XBee link events among a run of updates, in order. */
  function XbeeEvents(us: seq<Update>): seq<ClientStatus.LinkEvent>
    decreases |us|
  {
    if us == [] then []
    else (match XbeeEvent(us[0]) case Some(e) => [e] case None => []) + XbeeEvents(us[1..])
  }

  /** The client's state of a drone. */
  datatype Status = Status(upcore: UpCore, upcorePower: bool, xbee: ClientStatus.Link, pixhawkPower: bool,
                           cameras: map<string, ClientStatus.Frame>)

  /** A new drone: both links down, both power flags off, no camera frames. */
  const NEW_DRONE := Status(Disconnected, false, ClientStatus.Disconnected, false, map[])

  /**
   * One update changes exactly one part of the state: a frame the camera
   * map, the power report both power flags and nothing else, an Up Core
   * update the Up Core link, and an XBee update (the battery reading
   * included) the XBee link.
   */
  function Next(s: Status, u: Update): (r: Status)
    ensures u.Camera? ==> r == s.(cameras := ClientStatus.CamerasAfter(s.cameras, u.camera, u.result))
    ensures u.PowerState? ==> r == s.(upcorePower := u.upcore, pixhawkPower := u.pixhawk)
    ensures ForUpCore(u) ==> r == s.(upcore := UpCoreAfter(s.upcore, u))
    ensures XbeeEvent(u).Some? ==> r == s.(xbee := ClientStatus.LinkAfter(s.xbee, XbeeEvent(u).value))
  {
    if u.Camera? then s.(cameras := ClientStatus.CamerasAfter(s.cameras, u.camera, u.result))
    else if u.PowerState? then s.(upcorePower := u.upcore, pixhawkPower := u.pixhawk)
    else if ForUpCore(u) then s.(upcore := UpCoreAfter(s.upcore, u))
    else s.(xbee := ClientStatus.LinkAfter(s.xbee, XbeeEvent(u).value))
  }

  /** A drone after a run of updates, in order. */
  function Replay(s: Status, us: seq<Update>): Status
    decreases |us|
  {
    if us == [] then s else Replay(Next(s, us[0]), us[1..])
  }

  /** The XBee link after a run of drone updates is the link's session over the run's XBee events. */
  lemma {:induction false} ReplayXbee(s: Status, us: seq<Update>)
    ensures Replay(s, us).xbee == ClientStatus.Session(s.xbee, XbeeEvents(us))
    decreases |us|
  {
    if us != [] {
      ReplayXbee(Next(s, us[0]), us[1..]);
      var rest := XbeeEvents(us[1..]);
      match XbeeEvent(us[0]) {
        case Some(e) =>
          assert XbeeEvents(us) == [e] + rest;
          assert ([e] + rest)[0] == e && ([e] + rest)[1..] == rest;
        case None =>
          assert XbeeEvents(us) == [] + rest;
          assert [] + rest == rest;
      }
    }
  }

  /** After the last power report in a run, the flags are that report's, whatever else arrives. */
  lemma {:induction false} ReplayPower(s: Status, us: seq<Update>, k: nat)
    requires k < |us| && us[k].PowerState?
    requires forall i :: k < i < |us| ==> !us[i].PowerState?
    ensures Replay(s, us).upcorePower == us[k].upcore && Replay(s, us).pixhawkPower == us[k].pixhawk
    decreases |us|
  {
    var t := Next(s, us[0]);
    assert forall i :: 0 <= i < |us[1..]| ==> us[1..][i] == us[i + 1];
    if k == 0 {
      ReplayKeepsPower(t, us[1..]);
    } else {
      ReplayPower(t, us[1..], k - 1);
    }
  }

  /** A run without power reports leaves both power flags as they were. */
  lemma {:induction false} ReplayKeepsPower(s: Status, us: seq<Update>)
    requires forall i :: 0 <= i < |us| ==> !us[i].PowerState?
    ensures Replay(s, us).upcorePower == s.upcorePower && Replay(s, us).pixhawkPower == s.pixhawkPower
    decreases |us|
  {
    if us != [] {
      assert forall i :: 0 <= i < |us[1..]| ==> us[1..][i] == us[i + 1];
      ReplayKeepsPower(Next(s, us[0]), us[1..]);
    }
  }

  class Instance {
    const descriptor: Arena.DroneDescriptor
    var upcore: UpCore
    var upcorePower: bool
    var xbee: ClientStatus.Link
    var pixhawkPower: bool
    var cameraStream: map<string, ClientStatus.Frame>

    function Snapshot(): Status
      reads this
    {
      Status(upcore, upcorePower, xbee, pixhawkPower, cameraStream)
    }

    /** `new`: both links down, both power flags off, no frames. */
    constructor (descriptor: Arena.DroneDescriptor)
      ensures this.descriptor == descriptor && Snapshot() == NEW_DRONE
    {
      this.descriptor := descriptor;
      upcore := Disconnected;
      upcorePower := false;
      xbee := ClientStatus.Disconnected;
      pixhawkPower := false;
      cameraStream := map[];
    }

    /** `update`: each update changes its own field, readings and output only while their link is up. */
    method Update(u: Update)
      modifies this
      ensures Snapshot() == Next(old(Snapshot()), u)
    {
      match u
      case Battery(reading) =>
        if xbee.Connected? {
          xbee := xbee.(battery := Ok(reading));
        }
      case Camera(camera, result) =>
        cameraStream := cameraStream[camera := result];
      case FernbedienungConnected(addr) =>
        upcore := Connected(addr, Err(ClientStatus.UNKNOWN), []);
      case FernbedienungDisconnected =>
        upcore := Disconnected;
      case FernbedienungSignal(strength) =>
        if upcore.Connected? {
          upcore := upcore.(signal := Ok(strength));
        }
      case XbeeConnected(addr) =>
        xbee := ClientStatus.Connected(addr, Err(ClientStatus.UNKNOWN), Err(ClientStatus.UNKNOWN), []);
      case XbeeDisconnected =>
        xbee := ClientStatus.Disconnected;
      case XbeeSignal(strength) =>
        if xbee.Connected? {
          xbee := xbee.(signal := Ok(strength));
        }
      case Bash(response) =>
        if upcore.Connected? {
          upcore := upcore.(terminal := upcore.terminal + response);
        }
      case Mavlink(response) =>
        if xbee.Connected? {
          xbee := xbee.(terminal := xbee.terminal + response);
        }
      case PowerState(upcoreOn, pixhawkOn) =>
        pixhawkPower := pixhawkOn;
        upcorePower := upcoreOn;
    }
  }

  /** The card of one drone: whether its two terminals and its camera dialog are open. */
  class Card {
    const instance: Instance
    var bashTerminalVisible: bool
    var mavlinkTerminalVisible: bool
    var cameraDialogActive: bool

    /** `create`: both terminals and the camera dialog closed. */
    constructor (instance: Instance)
      ensures this.instance == instance
      ensures !bashTerminalVisible && !mavlinkTerminalVisible && !cameraDialogActive
    {
      this.instance := instance;
      bashTerminalVisible := false;
      mavlinkTerminalVisible := false;
      cameraDialogActive := false;
    }

    /** `SendMavlinkCommand`: the text of the input field, if there is one, is sent to the MAVLink terminal. */
    method SendMavlinkCommand(input: Option<string>) returns (request: Option<WebUi.BackEndRequest>)
      ensures request.Some? <==> input.Some?
      ensures input.Some? ==>
        request.value == WebUi.DroneRequest(instance.descriptor.id, WebUi.MavlinkTerminalRun(input.value))
    {
      match input
      case Some(command) =>
        request := Some(WebUi.DroneRequest(instance.descriptor.id, WebUi.MavlinkTerminalRun(command)));
      case None =>
        request := None;
    }

    /** `SendBashCommand`: the text of the input field, if there is one, is run on the Up Core. */
    method SendBashCommand(input: Option<string>) returns (request: Option<WebUi.BackEndRequest>)
      ensures request.Some? <==> input.Some?
      ensures input.Some? ==>
        request.value == WebUi.DroneRequest(instance.descriptor.id, WebUi.DroneBashTerminalRun(input.value))
    {
      match input
      case Some(command) =>
        request := Some(WebUi.DroneRequest(instance.descriptor.id, WebUi.DroneBashTerminalRun(command)));
      case None =>
        request := None;
    }

    /** `ToggleBashTerminal`: opening clears the Up Core terminal and starts one; closing stops it. */
    method ToggleBashTerminal() returns (request: WebUi.BackEndRequest)
      modifies this, instance
      ensures bashTerminalVisible == !old(bashTerminalVisible)
      ensures mavlinkTerminalVisible == old(mavlinkTerminalVisible) && cameraDialogActive == old(cameraDialogActive)
      ensures request == WebUi.DroneRequest(instance.descriptor.id,
        if old(bashTerminalVisible) then WebUi.DroneBashTerminalStop else WebUi.DroneBashTerminalStart)
      ensures instance.Snapshot() == if old(bashTerminalVisible) || old(instance.upcore).Disconnected? then old(instance.Snapshot())
        else old(instance.Snapshot()).(upcore := old(instance.upcore).(terminal := []))
    {
      if !bashTerminalVisible {
        if instance.upcore.Connected? {
          instance.upcore := instance.upcore.(terminal := []);
        }
        request := WebUi.DroneRequest(instance.descriptor.id, WebUi.DroneBashTerminalStart);
        bashTerminalVisible := true;
      } else {
        request := WebUi.DroneRequest(instance.descriptor.id, WebUi.DroneBashTerminalStop);
        bashTerminalVisible := false;
      }
    }

    /** `ToggleMavlinkTerminal`: opening clears the XBee terminal and starts one; closing stops it. */
    method ToggleMavlinkTerminal() returns (request: WebUi.BackEndRequest)
      modifies this, instance
      ensures mavlinkTerminalVisible == !old(mavlinkTerminalVisible)
      ensures bashTerminalVisible == old(bashTerminalVisible) && cameraDialogActive == old(cameraDialogActive)
      ensures request == WebUi.DroneRequest(instance.descriptor.id,
        if old(mavlinkTerminalVisible) then WebUi.MavlinkTerminalStop else WebUi.MavlinkTerminalStart)
      ensures instance.Snapshot() == if old(mavlinkTerminalVisible) then old(instance.Snapshot())
        else old(instance.Snapshot()).(xbee := ClientStatus.Cleared(old(instance.xbee)))
    {
      if !mavlinkTerminalVisible {
        if instance.xbee.Connected? {
          instance.xbee := instance.xbee.(terminal := []);
        }
        request := WebUi.DroneRequest(instance.descriptor.id, WebUi.MavlinkTerminalStart);
        mavlinkTerminalVisible := true;
      } else {
        request := WebUi.DroneRequest(instance.descriptor.id, WebUi.MavlinkTerminalStop);
        mavlinkTerminalVisible := false;
      }
    }

    /** `ToggleCameraStream`: opening the dialog enables the stream and forgets old frames; closing disables it. */
    method ToggleCameraStream() returns (request: WebUi.BackEndRequest)
      modifies this, instance
      ensures cameraDialogActive == !old(cameraDialogActive)
      ensures bashTerminalVisible == old(bashTerminalVisible) && mavlinkTerminalVisible == old(mavlinkTerminalVisible)
      ensures request == WebUi.DroneRequest(instance.descriptor.id, WebUi.DroneCameraStreamEnable(!old(cameraDialogActive)))
      ensures instance.Snapshot() == if old(cameraDialogActive) then old(instance.Snapshot())
        else old(instance.Snapshot()).(cameras := map[])
    {
      if !cameraDialogActive {
        request := WebUi.DroneRequest(instance.descriptor.id, WebUi.DroneCameraStreamEnable(true));
        instance.cameraStream := map[];
        cameraDialogActive := true;
      } else {
        request := WebUi.DroneRequest(instance.descriptor.id, WebUi.DroneCameraStreamEnable(false));
        cameraDialogActive := false;
      }
    }

    /** The battery icon in the card's header: the battery is read over the XBee. */
    function BatteryIcon(): (g: ClientStatus.Indicator)
      reads instance
      ensures g.level == 0 <==> instance.xbee.Disconnected? || instance.xbee.battery.Err?
      ensures instance.xbee.Disconnected? ==> g.info == ClientStatus.Text(ClientStatus.UNKNOWN)
      ensures instance.xbee.Connected? && instance.xbee.battery.Err? ==> g.info == ClientStatus.Text(instance.xbee.battery.error)
      ensures instance.xbee.Connected? && instance.xbee.battery.Ok? ==>
        g == ClientStatus.Indicator(ClientStatus.Level(instance.xbee.battery.value), ClientStatus.Percent(instance.xbee.battery.value))
    {
      ClientStatus.BatteryOf(instance.xbee)
    }

    /** The Wi-Fi icon of the Up Core: the reported level plus 90, level 0 captioned "Disconnected" while it is down. */
    function UpCoreIcon(): (g: ClientStatus.Indicator)
      reads instance
      ensures g.level == 0 <==> instance.upcore.Disconnected? || instance.upcore.signal.Err?
      ensures instance.upcore.Disconnected? ==> g.info == ClientStatus.Text(ClientStatus.DISCONNECTED)
      ensures instance.upcore.Connected? && instance.upcore.signal.Err? ==> g.info == ClientStatus.Text(instance.upcore.signal.error)
      ensures instance.upcore.Connected? && instance.upcore.signal.Ok? ==>
        g == ClientStatus.Indicator(ClientStatus.Level(instance.upcore.signal.value + 90), ClientStatus.Percent(instance.upcore.signal.value + 90))
    {
      ClientStatus.Show(if instance.upcore.Connected? then Some(instance.upcore.signal) else None, 90,
        ClientStatus.DISCONNECTED)
    }

    /** The signal icon of the XBee: the reported level itself, with no offset. */
    function XbeeIcon(): (g: ClientStatus.Indicator)
      reads instance
      ensures g.level == 0 <==> instance.xbee.Disconnected? || instance.xbee.signal.Err?
      ensures instance.xbee.Disconnected? ==> g.info == ClientStatus.Text(ClientStatus.DISCONNECTED)
      ensures instance.xbee.Connected? && instance.xbee.signal.Err? ==> g.info == ClientStatus.Text(instance.xbee.signal.error)
      ensures instance.xbee.Connected? && instance.xbee.signal.Ok? ==>
        g == ClientStatus.Indicator(ClientStatus.Level(instance.xbee.signal.value), ClientStatus.Percent(instance.xbee.signal.value))
    {
      ClientStatus.SignalOf(instance.xbee, 0)
    }
  }
}
