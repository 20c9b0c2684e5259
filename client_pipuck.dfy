/**
 * A Pi-Puck in the browser client: the state of its Raspberry Pi link and
 * its camera frames, updated in place by the updates the server sends, and
 * the card that shows it and sends the Pi-Puck's terminal and camera
 * requests.
 */
module ClientPiPuck {
  import opened Wrappers
  import opened ClientStatus
  import Arena
  import WebUi

  class Instance {
    const descriptor: Arena.PiPuckDescriptor
    /** The Raspberry Pi link. */
    var rpi: Link
    var cameraStream: map<string, Frame>

    function Snapshot(): RobotStatus
      reads this
    {
      RobotStatus(rpi, cameraStream)
    }

    /** `new`: the link is down and no frame has arrived. */
    constructor (descriptor: Arena.PiPuckDescriptor)
      ensures this.descriptor == descriptor && Snapshot() == NEW_ROBOT
    {
      this.descriptor := descriptor;
      rpi := Disconnected;
      cameraStream := map[];
    }

    /** `update`: readings and terminal output only while the link is up; a frame always. */
    method Update(u: RobotUpdate)
      modifies this
      ensures Snapshot() == RobotNext(old(Snapshot()), u)
    {
      match u
      case Battery(reading) =>
        if rpi.Connected? {
          rpi := rpi.(battery := Ok(reading));
        }
      case Camera(camera, result) =>
        cameraStream := cameraStream[camera := result];
      case FernbedienungConnected(addr) =>
        rpi := Connected(addr, Err(UNKNOWN), Err(UNKNOWN), []);
      case FernbedienungDisconnected =>
        rpi := Disconnected;
      case FernbedienungSignal(strength) =>
        if rpi.Connected? {
          rpi := rpi.(signal := Ok(strength));
        }
      case Bash(response) =>
        if rpi.Connected? {
          rpi := rpi.(terminal := rpi.terminal + response);
        }
    }
  }

  /** The card of one Pi-Puck: whether its terminal and its camera dialog are open. */
  class Card {
    const instance: Instance
    var bashTerminalVisible: bool
    var cameraDialogActive: bool

    /** `create`: terminal and camera dialog closed. */
    constructor (instance: Instance)
      ensures this.instance == instance && !bashTerminalVisible && !cameraDialogActive
    {
      this.instance := instance;
      bashTerminalVisible := false;
      cameraDialogActive := false;
    }

    /** `SendBashCommand`: the text of the input field, if there is one, is run on the Pi-Puck. */
    method SendBashCommand(input: Option<string>) returns (request: Option<WebUi.BackEndRequest>)
      ensures request.Some? <==> input.Some?
      ensures input.Some? ==>
        request.value == WebUi.PiPuckRequest(instance.descriptor.id, WebUi.PiPuckBashTerminalRun(input.value))
    {
      match input
      case Some(command) =>
        request := Some(WebUi.PiPuckRequest(instance.descriptor.id, WebUi.PiPuckBashTerminalRun(command)));
      case None =>
        request := None;
    }

    /**
     * `ToggleBashTerminal`: opening the terminal clears what it showed and
     * starts a terminal on the robot; closing it stops that terminal.
     */
    method ToggleBashTerminal() returns (request: WebUi.BackEndRequest)
      modifies this, instance
      ensures bashTerminalVisible == !old(bashTerminalVisible) && cameraDialogActive == old(cameraDialogActive)
      ensures request == WebUi.PiPuckRequest(instance.descriptor.id,
        if old(bashTerminalVisible) then WebUi.PiPuckBashTerminalStop else WebUi.PiPuckBashTerminalStart)
      ensures instance.cameraStream == old(instance.cameraStream)
      ensures instance.rpi == if old(bashTerminalVisible) then old(instance.rpi) else Cleared(old(instance.rpi))
    {
      if !bashTerminalVisible {
        if instance.rpi.Connected? {
          instance.rpi := instance.rpi.(terminal := []);
        }
        request := WebUi.PiPuckRequest(instance.descriptor.id, WebUi.PiPuckBashTerminalStart);
        bashTerminalVisible := true;
      } else {
        request := WebUi.PiPuckRequest(instance.descriptor.id, WebUi.PiPuckBashTerminalStop);
        bashTerminalVisible := false;
      }
    }

    /**
     * `ToggleCameraStream`: opening the dialog enables the stream and
     * forgets the frames received so far; closing it disables the stream.
     */
    method ToggleCameraStream() returns (request: WebUi.BackEndRequest)
      modifies this, instance
      ensures cameraDialogActive == !old(cameraDialogActive) && bashTerminalVisible == old(bashTerminalVisible)
      ensures request == WebUi.PiPuckRequest(instance.descriptor.id, WebUi.PiPuckCameraStreamEnable(!old(cameraDialogActive)))
      ensures instance.rpi == old(instance.rpi)
      ensures instance.cameraStream == if old(cameraDialogActive) then old(instance.cameraStream) else map[]
    {
      if !cameraDialogActive {
        request := WebUi.PiPuckRequest(instance.descriptor.id, WebUi.PiPuckCameraStreamEnable(true));
        instance.cameraStream := map[];
        cameraDialogActive := true;
      } else {
        request := WebUi.PiPuckRequest(instance.descriptor.id, WebUi.PiPuckCameraStreamEnable(false));
        cameraDialogActive := false;
      }
    }

    /** The battery icon in the card's header. */
    function BatteryIcon(): (g: Indicator)
      reads instance
      ensures g.level == 0 <==> instance.rpi.Disconnected? || instance.rpi.battery.Err?
      ensures instance.rpi.Disconnected? ==> g.info == Text(UNKNOWN)
      ensures instance.rpi.Connected? && instance.rpi.battery.Err? ==> g.info == Text(instance.rpi.battery.error)
      ensures instance.rpi.Connected? && instance.rpi.battery.Ok? ==>
        g == Indicator(Level(instance.rpi.battery.value), Percent(instance.rpi.battery.value))
    {
      BatteryOf(instance.rpi)
    }

    /** The Wi-Fi icon of the Raspberry Pi: the reported level plus 90. */
    function WifiIcon(): (g: Indicator)
      reads instance
      ensures g.level == 0 <==> instance.rpi.Disconnected? || instance.rpi.signal.Err?
      ensures instance.rpi.Disconnected? ==> g.info == Text(DISCONNECTED)
      ensures instance.rpi.Connected? && instance.rpi.signal.Err? ==> g.info == Text(instance.rpi.signal.error)
      ensures instance.rpi.Connected? && instance.rpi.signal.Ok? ==>
        g == Indicator(Level(instance.rpi.signal.value + 90), Percent(instance.rpi.signal.value + 90))
    {
      SignalOf(instance.rpi, 90)
    }
  }
}
