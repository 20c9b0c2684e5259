/**
 * The web server's side of a browser session: each request from the page
 * becomes one action sent to the arena, and its outcome goes back under the
 * request's uuid; the robots' descriptors are announced before any of
 * their updates.
 */
module WebUi {
  import opened Wrappers
  import Software

  datatype TerminalAction = TerminalStart | TerminalStop | TerminalRun(command: string)

  /** Actions carried out over a robot's Fernbedienung (SSH-like) link. */
  datatype FernbedienungAction =
    | Bash(terminal: TerminalAction)
    | SetCameraStream(on: bool)
    | Identify
    | Halt
    | Reboot

  /** Actions carried out over a drone's XBee link. */
  datatype XbeeAction =
    | SetPixhawkPower(on: bool)
    | SetUpCorePower(on: bool)
    | Mavlink(terminal: TerminalAction)

  datatype RobotAction = ExecuteFernbedienungAction(f: FernbedienungAction) | ExecuteXbeeAction(x: XbeeAction)

  /** `shared::drone::Request`. */
  datatype DroneRequest =
    | DroneBashTerminalStart
    | DroneBashTerminalStop
    | DroneBashTerminalRun(command: string)
    | DroneCameraStreamEnable(on: bool)
    | DroneIdentify
    | PixhawkPowerEnable(on: bool)
    | MavlinkTerminalStart
    | MavlinkTerminalStop
    | MavlinkTerminalRun(command: string)
    | UpCorePowerEnable(on: bool)
    | UpCoreHalt
    | UpCoreReboot

  /** `shared::pipuck::Request`. */
  datatype PiPuckRequest =
    | PiPuckBashTerminalStart
    | PiPuckBashTerminalStop
    | PiPuckBashTerminalRun(command: string)
    | PiPuckCameraStreamEnable(on: bool)
    | PiPuckIdentify
    | RaspberryPiHalt
    | RaspberryPiReboot

  /** An experiment request: a start carries both bundles' files. */
  datatype ExperimentRequest =
    | Start(droneSoftware: seq<Software.Entry>, pipuckSoftware: seq<Software.Entry>)
    | Stop

  datatype BackEndRequest =
    | DroneRequest(droneId: string, drone: DroneRequest)
    | PiPuckRequest(pipuckId: string, pipuck: PiPuckRequest)
    | ExperimentRequest(experiment: ExperimentRequest)

  /** What the web server sends to the arena for a request. */
  datatype ArenaAction =
    | ForwardDroneAction(droneId: string, action: RobotAction)
    | ForwardPiPuckAction(pipuckId: string, action: RobotAction)
    | StartExperiment(droneSoftware: seq<Software.Entry>, pipuckSoftware: seq<Software.Entry>)
    | StopExperiment

  /** Requests addressed to the drone's XBee: the power rails and the MAVLink terminal. */
  predicate OverXbee(r: DroneRequest)
  {
    r.PixhawkPowerEnable? || r.MavlinkTerminalStart? || r.MavlinkTerminalStop? ||
    r.MavlinkTerminalRun? || r.UpCorePowerEnable?
  }

  /** `handle_drone_request`: the power rails and MAVLink go over the XBee, the rest over Fernbedienung. */
  function DroneAction(r: DroneRequest): (a: RobotAction)
    ensures a.ExecuteXbeeAction? <==> OverXbee(r)
  {
    match r
    case DroneBashTerminalStart => ExecuteFernbedienungAction(Bash(TerminalStart))
    case DroneBashTerminalStop => ExecuteFernbedienungAction(Bash(TerminalStop))
    case DroneBashTerminalRun(command) => ExecuteFernbedienungAction(Bash(TerminalRun(command)))
    case DroneCameraStreamEnable(on) => ExecuteFernbedienungAction(SetCameraStream(on))
    case DroneIdentify => ExecuteFernbedienungAction(Identify)
    case PixhawkPowerEnable(on) => ExecuteXbeeAction(SetPixhawkPower(on))
    case MavlinkTerminalStart => ExecuteXbeeAction(Mavlink(TerminalStart))
    case MavlinkTerminalStop => ExecuteXbeeAction(Mavlink(TerminalStop))
    case MavlinkTerminalRun(command) => ExecuteXbeeAction(Mavlink(TerminalRun(command)))
    case UpCorePowerEnable(on) => ExecuteXbeeAction(SetUpCorePower(on))
    case UpCoreHalt => ExecuteFernbedienungAction(Halt)
    case UpCoreReboot => ExecuteFernbedienungAction(Reboot)
  }

  /** `handle_pipuck_request`: everything goes over Fernbedienung. */
  function PiPuckAction(r: PiPuckRequest): (a: RobotAction)
    ensures a.ExecuteFernbedienungAction?
  {
    match r
    case PiPuckBashTerminalStart => ExecuteFernbedienungAction(Bash(TerminalStart))
    case PiPuckBashTerminalStop => ExecuteFernbedienungAction(Bash(TerminalStop))
    case PiPuckBashTerminalRun(command) => ExecuteFernbedienungAction(Bash(TerminalRun(command)))
    case PiPuckCameraStreamEnable(on) => ExecuteFernbedienungAction(SetCameraStream(on))
    case PiPuckIdentify => ExecuteFernbedienungAction(Identify)
    case RaspberryPiHalt => ExecuteFernbedienungAction(Halt)
    case RaspberryPiReboot => ExecuteFernbedienungAction(Reboot)
  }

  /** The arena action for any request: robot requests are forwarded to the robot with that id. */
  function Dispatch(req: BackEndRequest): (a: ArenaAction)
    ensures a.ForwardDroneAction? <==> req.DroneRequest?
    ensures a.ForwardPiPuckAction? <==> req.PiPuckRequest?
    ensures a.ForwardDroneAction? ==> a.droneId == req.droneId
    ensures a.ForwardPiPuckAction? ==> a.pipuckId == req.pipuckId && a.action.ExecuteFernbedienungAction?
    ensures a.StartExperiment? <==> req.ExperimentRequest? && req.experiment.Start?
    ensures a.StartExperiment? ==>
      a.droneSoftware == req.experiment.droneSoftware && a.pipuckSoftware == req.experiment.pipuckSoftware
  {
    match req
    case DroneRequest(id, r) => ForwardDroneAction(id, DroneAction(r))
    case PiPuckRequest(id, r) => ForwardPiPuckAction(id, PiPuckAction(r))
    case ExperimentRequest(Start(drone, pipuck)) => StartExperiment(drone, pipuck)
    case ExperimentRequest(Stop) => StopExperiment
  }

  // ---------------------------------------------------------------------
  // The mapping loses nothing: every action names the one request it came from.
  // ---------------------------------------------------------------------

  function DroneRequestOf(a: RobotAction): DroneRequest
  {
    match a
    case ExecuteFernbedienungAction(Bash(TerminalStart)) => DroneBashTerminalStart
    case ExecuteFernbedienungAction(Bash(TerminalStop)) => DroneBashTerminalStop
    case ExecuteFernbedienungAction(Bash(TerminalRun(command))) => DroneBashTerminalRun(command)
    case ExecuteFernbedienungAction(SetCameraStream(on)) => DroneCameraStreamEnable(on)
    case ExecuteFernbedienungAction(Identify) => DroneIdentify
    case ExecuteFernbedienungAction(Halt) => UpCoreHalt
    case ExecuteFernbedienungAction(Reboot) => UpCoreReboot
    case ExecuteXbeeAction(SetPixhawkPower(on)) => PixhawkPowerEnable(on)
    case ExecuteXbeeAction(SetUpCorePower(on)) => UpCorePowerEnable(on)
    case ExecuteXbeeAction(Mavlink(TerminalStart)) => MavlinkTerminalStart
    case ExecuteXbeeAction(Mavlink(TerminalStop)) => MavlinkTerminalStop
    case ExecuteXbeeAction(Mavlink(TerminalRun(command))) => MavlinkTerminalRun(command)
  }

  function PiPuckRequestOf(a: RobotAction): Option<PiPuckRequest>
  {
    match a
    case ExecuteFernbedienungAction(Bash(TerminalStart)) => Some(PiPuckBashTerminalStart)
    case ExecuteFernbedienungAction(Bash(TerminalStop)) => Some(PiPuckBashTerminalStop)
    case ExecuteFernbedienungAction(Bash(TerminalRun(command))) => Some(PiPuckBashTerminalRun(command))
    case ExecuteFernbedienungAction(SetCameraStream(on)) => Some(PiPuckCameraStreamEnable(on))
    case ExecuteFernbedienungAction(Identify) => Some(PiPuckIdentify)
    case ExecuteFernbedienungAction(Halt) => Some(RaspberryPiHalt)
    case ExecuteFernbedienungAction(Reboot) => Some(RaspberryPiReboot)
    case ExecuteXbeeAction(_) => None
  }

  function RequestOf(a: ArenaAction): Option<BackEndRequest>
  {
    match a
    case ForwardDroneAction(id, action) => Some(DroneRequest(id, DroneRequestOf(action)))
    case ForwardPiPuckAction(id, action) =>
      (match PiPuckRequestOf(action)
       case Some(r) => Some(PiPuckRequest(id, r))
       case None => None)
    case StartExperiment(drone, pipuck) => Some(ExperimentRequest(Start(drone, pipuck)))
    case StopExperiment => Some(ExperimentRequest(Stop))
  }

  /** Payloads are carried over unchanged: the request can be read back from its action. */
  lemma DispatchRoundTrip(req: BackEndRequest)
    ensures RequestOf(Dispatch(req)) == Some(req)
  {
  }

  /** Different requests give different actions. */
  lemma DispatchInjective(a: BackEndRequest, b: BackEndRequest)
    requires Dispatch(a) == Dispatch(b)
    ensures a == b
  {
    DispatchRoundTrip(a);
    DispatchRoundTrip(b);
  }

  // ---------------------------------------------------------------------
  // The response to a request.
  // ---------------------------------------------------------------------

  datatype DownMessage = Response(uuid: nat, result: Result<(), string>)

  const SEND_FAILED: string := "Could not send action to arena"
  const NO_RESPONSE: string := "No response from arena"

  /**
   * The result of a request: a failed send to the arena, or the arena
   * dropping the callback, is an error of the web server's own; otherwise
   * the arena's answer. Errors are rendered as strings.
   */
  function Outcome(sendOk: bool, reply: Option<Result<(), string>>): (r: Result<(), string>)
    ensures r.Ok? <==> sendOk && reply.Some? && reply.value.Ok?
    ensures !sendOk ==> r == Err(SEND_FAILED)
    ensures sendOk && reply.None? ==> r == Err(NO_RESPONSE)
    ensures sendOk && reply.Some? ==> r == reply.value
  {
    if !sendOk then Err(SEND_FAILED)
    else if reply.None? then Err(NO_RESPONSE)
    else reply.value
  }

  /** A message from the page: a request under a uuid, or a response whose error is only logged. */
  datatype UpMessage = UpRequest(uuid: nat, request: BackEndRequest) | UpResponse(uuid: nat, result: Result<(), string>)

  /**
   * One received websocket message: what is sent to the arena and what is
   * sent back. A message that does not deserialise (None) and a response
   * from the page are answered with nothing.
   */
  function HandleMessage(message: Option<UpMessage>, sendOk: bool, reply: Option<Result<(), string>>)
    : (r: (Option<ArenaAction>, Option<DownMessage>))
    ensures r.0.Some? <==> r.1.Some?
    ensures r.1.Some? <==> message.Some? && message.value.UpRequest?
    ensures r.1.Some? ==> r.1.value.uuid == message.value.uuid && r.1.value.result == Outcome(sendOk, reply)
    ensures r.0.Some? ==> RequestOf(r.0.value) == Some(message.value.request)
  {
    match message
    case Some(UpRequest(uuid, request)) =>
      DispatchRoundTrip(request);
      (Some(Dispatch(request)), Some(Response(uuid, Outcome(sendOk, reply))))
    case _ => (None, None)
  }

  // ---------------------------------------------------------------------
  // The messages streamed to a new client.
  // ---------------------------------------------------------------------

  /** `FrontEndRequest::AddDrone`/`AddPiPuck` and `UpdateDrone`/`UpdatePiPuck`, for one robot kind. */
  datatype FrontEndRequest<D, U> = Add(descriptor: D) | Update(id: string, update: U)

  /** An item of a robot's broadcast stream: an update, or the count of messages it lagged by. */
  datatype Item<U> = Received(update: U) | Lagged(count: nat)

  /** How many of the items are received updates. */
  function ReceivedCount<D, U>(items: seq<(D, Item<U>)>): (n: nat)
    ensures n <= |items|
  {
    if items == [] then 0
    else (if items[0].1.Received? then 1 else 0) + ReceivedCount(items[1..])
  }

  /** `filter_map` over the update stream: lagged items dropped, the rest tagged with their robot's id. */
  function Updates<D, U>(id: D -> string, items: seq<(D, Item<U>)>): (r: seq<FrontEndRequest<D, U>>)
    ensures |r| == ReceivedCount(items)
    ensures forall k :: 0 <= k < |r| ==> r[k].Update?
  {
    if items == [] then []
    else
      var rest := Updates(id, items[1..]);
      match items[0].1
      case Received(u) =>
        var r := [Update(id(items[0].0), u)] + rest;
        assert forall k :: 1 <= k < |r| ==> r[k] == rest[k - 1];
        r
      case Lagged(_) => rest
  }

  /** What a client is sent for one robot kind: every descriptor announced, then the update stream. */
  function ClientStream<D, U>(id: D -> string, descriptors: seq<D>, items: seq<(D, Item<U>)>): (r: seq<FrontEndRequest<D, U>>)
  {
    seq(|descriptors|, i requires 0 <= i < |descriptors| => Add(descriptors[i])) + Updates(id, items)
  }

  /**
   * Every received update reaches the client under its robot's id, at the
   * position given by the received updates before it: in order, lagged items dropped.
   */
  lemma {:induction false} UpdatesKept<D, U>(id: D -> string, items: seq<(D, Item<U>)>, j: nat) returns (k: nat)
    requires j < |items| && items[j].1.Received?
    ensures k == ReceivedCount(items[..j]) && k < |Updates(id, items)|
    ensures Updates(id, items)[k] == Update(id(items[j].0), items[j].1.update)
  {
    var r := Updates(id, items);
    var rest := Updates(id, items[1..]);
    if j == 0 {
      assert items[..0] == [];
      assert r == [Update(id(items[0].0), items[0].1.update)] + rest;
      k := 0;
    } else {
      assert items[1..][j - 1] == items[j];
      assert items[..j][1..] == items[1..][..j - 1];
      var k' := UpdatesKept(id, items[1..], j - 1);
      if items[0].1.Received? {
        assert r == [Update(id(items[0].0), items[0].1.update)] + rest;
        k := k' + 1;
      } else {
        assert r == rest;
        k := k';
      }
    }
  }

  /** The client learns every descriptor before its first update: all Adds come first. */
  lemma AddsBeforeUpdates<D, U>(id: D -> string, descriptors: seq<D>, items: seq<(D, Item<U>)>)
    ensures var r := ClientStream(id, descriptors, items);
      (forall i :: 0 <= i < |descriptors| ==> r[i] == Add(descriptors[i])) &&
      (forall i, j :: 0 <= i < j < |r| && r[i].Update? ==> r[j].Update?) &&
      |r| <= |descriptors| + |items|
  {
    var r := ClientStream(id, descriptors, items);
    var u := Updates(id, items);
    assert forall k :: |descriptors| <= k < |r| ==> r[k] == u[k - |descriptors|];
  }
}
