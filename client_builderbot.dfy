/**
 * A BuilderBot in the browser client: the state of its DuoVero link and its
 * camera frames, and the card that shows it, sends the robot's terminal and
 * camera requests, and shows the error a request came back with until it
 * is dismissed.
 */
module ClientBuilderBot {
  import opened Wrappers
  import opened ClientStatus
  import Arena

  /** `shared::builderbot::Request`. */
  datatype Request =
    | BashTerminalStart
    | BashTerminalStop
    | BashTerminalRun(command: string)
    | CameraStreamEnable(on: bool)
    | Identify
    | DuoVeroHalt
    | DuoVeroReboot

  /** The request the card sends to the server, addressed to one BuilderBot. */
  datatype BackEndRequest = BuilderBotRequest(builderbotId: string, request: Request)

  class Instance {
    const descriptor: Arena.BuilderBotDescriptor
    /** The DuoVero link. */
    var duovero: Link
    var cameraStream: map<string, Frame>

    function Snapshot(): RobotStatus
      reads this
    {
      RobotStatus(duovero, cameraStream)
    }

    /** `new`: the link is down and no frame has arrived. */
    constructor (descriptor: Arena.BuilderBotDescriptor)
      ensures this.descriptor == descriptor && Snapshot() == NEW_ROBOT
    {
      this.descriptor := descriptor;
      duovero := Disconnected;
      cameraStream := map[];
    }

    /** `update`: readings and terminal output only while the link is up; a frame always. */
    method Update(u: RobotUpdate)
      modifies this
      ensures Snapshot() == RobotNext(old(Snapshot()), u)
    {
      match u
      case Battery(reading) =>
        if duovero.Connected? {
          duovero := duovero.(battery := Ok(reading));
        }
      case Camera(camera, result) =>
        cameraStream := cameraStream[camera := result];
      case FernbedienungConnected(addr) =>
        duovero := Connected(addr, Err(UNKNOWN), Err(UNKNOWN), []);
      case FernbedienungDisconnected =>
        duovero := Disconnected;
      case FernbedienungSignal(strength) =>
        if duovero.Connected? {
          duovero := duovero.(signal := Ok(strength));
        }
      case Bash(response) =>
        if duovero.Connected? {
          duovero := duovero.(terminal := duovero.terminal + response);
        }
    }
  }

  /** The card of one BuilderBot: whether its terminal and its camera dialog are open, and the error on show. */
  class Card {
    const instance: Instance
    var bashTerminalVisible: bool
    var cameraDialogActive: bool
    /** The outcome of the last request answered, or of the last dismissal. */
    var error: Result<(), string>

    /** `create`: terminal and camera dialog closed, no error. */
    constructor (instance: Instance)
      ensures this.instance == instance && !bashTerminalVisible && !cameraDialogActive && error.Ok?
    {
      this.instance := instance;
      bashTerminalVisible := false;
      cameraDialogActive := false;
      error := Ok(());
    }

    /** `SetError`: every request's answer lands here, as does a click on the error's background. */
    method SetError(result: Result<(), string>)
      modifies this
      ensures error == result
      ensures bashTerminalVisible == old(bashTerminalVisible) && cameraDialogActive == old(cameraDialogActive)
    {
      error := result;
    }

    /** The error dialog is on show exactly while the last answer was an error, with that error's message. */
    function ErrorModal(): (shown: Option<string>)
      reads this
      ensures shown.Some? <==> error.Err?
      ensures shown.Some? ==> shown.value == error.error
    {
      if error.Err? then Some(error.error) else None
    }

    /** Clicking the error dialog's background dismisses it. */
    method DismissError()
      modifies this
      ensures error == Ok(()) && ErrorModal().None?
      ensures bashTerminalVisible == old(bashTerminalVisible) && cameraDialogActive == old(cameraDialogActive)
    {
      SetError(Ok(()));
    }

    /** `SendBashCommand`: the text of the input field, if there is one, is run on the BuilderBot. */
    method SendBashCommand(input: Option<string>) returns (request: Option<BackEndRequest>)
      ensures request.Some? <==> input.Some?
      ensures input.Some? ==>
        request.value == BuilderBotRequest(instance.descriptor.id, BashTerminalRun(input.value))
    {
      match input
      case Some(command) =>
        request := Some(BuilderBotRequest(instance.descriptor.id, BashTerminalRun(command)));
      case None =>
        request := None;
    }

    /**
     * `ToggleBashTerminal`: opening the terminal clears what it showed and
     * starts a terminal on the robot; closing it stops that terminal.
     */
    method ToggleBashTerminal() returns (request: BackEndRequest)
      modifies this, instance
      ensures bashTerminalVisible == !old(bashTerminalVisible) && cameraDialogActive == old(cameraDialogActive)
      ensures request == BuilderBotRequest(instance.descriptor.id,
        if old(bashTerminalVisible) then BashTerminalStop else BashTerminalStart)
      ensures instance.cameraStream == old(instance.cameraStream)
      ensures instance.duovero == if old(bashTerminalVisible) then old(instance.duovero) else Cleared(old(instance.duovero))
    {
      if !bashTerminalVisible {
        if instance.duovero.Connected? {
          instance.duovero := instance.duovero.(terminal := []);
        }
        request := BuilderBotRequest(instance.descriptor.id, BashTerminalStart);
        bashTerminalVisible := true;
      } else {
        request := BuilderBotRequest(instance.descriptor.id, BashTerminalStop);
        bashTerminalVisible := false;
      }
    }

    /**
     * `ToggleCameraStream`: opening the dialog enables the stream and
     * forgets the frames received so far; closing it disables the stream.
     */
    method ToggleCameraStream() returns (request: BackEndRequest)
      modifies this, instance
      ensures cameraDialogActive == !old(cameraDialogActive) && bashTerminalVisible == old(bashTerminalVisible)
      ensures request == BuilderBotRequest(instance.descriptor.id, CameraStreamEnable(!old(cameraDialogActive)))
      ensures instance.duovero == old(instance.duovero)
      ensures instance.cameraStream == if old(cameraDialogActive) then old(instance.cameraStream) else map[]
    {
      if !cameraDialogActive {
        request := BuilderBotRequest(instance.descriptor.id, CameraStreamEnable(true));
        instance.cameraStream := map[];
        cameraDialogActive := true;
      } else {
        request := BuilderBotRequest(instance.descriptor.id, CameraStreamEnable(false));
        cameraDialogActive := false;
      }
    }

    /** The battery icon in the card's header. */
    function BatteryIcon(): (g: Indicator)
      reads instance
      ensures g.level == 0 <==> instance.duovero.Disconnected? || instance.duovero.battery.Err?
      ensures instance.duovero.Disconnected? ==> g.info == Text(UNKNOWN)
      ensures instance.duovero.Connected? && instance.duovero.battery.Err? ==> g.info == Text(instance.duovero.battery.error)
      ensures instance.duovero.Connected? && instance.duovero.battery.Ok? ==>
        g == Indicator(Level(instance.duovero.battery.value), Percent(instance.duovero.battery.value))
    {
      BatteryOf(instance.duovero)
    }

    /** The Wi-Fi icon of the DuoVero: the reported level plus 90. */
    function WifiIcon(): (g: Indicator)
      reads instance
      ensures g.level == 0 <==> instance.duovero.Disconnected? || instance.duovero.signal.Err?
      ensures instance.duovero.Disconnected? ==> g.info == Text(DISCONNECTED)
      ensures instance.duovero.Connected? && instance.duovero.signal.Err? ==> g.info == Text(instance.duovero.signal.error)
      ensures instance.duovero.Connected? && instance.duovero.signal.Ok? ==>
        g == Indicator(Level(instance.duovero.signal.value + 90), Percent(instance.duovero.signal.value + 90))
    {
      SignalOf(instance.duovero, 90)
    }
  }
}
