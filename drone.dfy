/**
 * A drone as the supervisor sees it: its XBee module, and an UpCore that is
 * either on standby or reachable over SSH. The actions on offer depend on
 * that state, and an action no longer on offer is ignored.
 */
module Drone {
  import opened Wrappers
  import opened Bytes
  import Xbee
  import NetSsh
  import DroneTask
  import Io

  datatype State = Standby | Ready(ssh: NetSsh.Device)

  datatype Action =
    | UpCorePowerOn
    | UpCoreShutdown
    | UpCorePowerOff
    | UpCoreReboot
    | PixhawkPowerOn
    | PixhawkPowerOff
    | Identify

  /** What `execute` does with an action: log that it is not implemented, or warn that it was ignored. */
  datatype Executed = NotImplemented(action: Action) | Ignored(action: Action)

  class Drone {
    var uuid: nat
    var xbee: Xbee.Device
    var state: State

    /** `Drone::new`: the drone starts on standby; the uuid is supplied by the caller. */
    constructor (uuid: nat, xbee: Xbee.Device)
      ensures this.uuid == uuid && this.xbee == xbee && state == Standby
    {
      this.uuid := uuid;
      this.xbee := xbee;
      state := Standby;
    }

    /** `ssh`: the UpCore's SSH device while it is ready. */
    function Ssh(): (r: Option<NetSsh.Device>)
      reads this
      ensures r.Some? <==> state.Ready?
      ensures r.Some? ==> r.value == state.ssh
    {
      match state
      case Standby => None
      case Ready(ssh) => Some(ssh)
    }

    /** `actions`: power on while on standby; power off or shut down while ready. */
    function Actions(): (a: seq<Action>)
      reads this
      ensures UpCorePowerOn in a <==> state.Standby?
      ensures UpCorePowerOff in a <==> state.Ready?
      ensures UpCoreShutdown in a <==> state.Ready?
      ensures forall x :: x in a ==> x == UpCorePowerOn || x == UpCorePowerOff || x == UpCoreShutdown
      ensures |a| == if state.Standby? then 1 else 2
    {
      match state
      case Standby => [UpCorePowerOn]
      case Ready(_) => [UpCorePowerOff, UpCoreShutdown]
    }

    /** `execute`: only an action currently on offer is acted on (and every one is a stub). */
    function Execute(action: Action): (r: Executed)
      reads this
      ensures r.action == action
      ensures r.NotImplemented? <==> action in Actions()
    {
      if action in Actions() then NotImplemented(action) else Ignored(action)
    }

    /** `init`: the start-up configuration sent to the XBee. */
    method Init(ok: seq<bool>) returns (sent: seq<seq<byte>>, success: bool)
      ensures (sent, success) == Io.Transmit(DroneTask.InitCommands(), ok, 0)
    {
      sent, success := DroneTask.Init(ok);
    }

    /** `_set_power`: the power masks sent to the XBee. */
    method SetPower(upcore: Option<bool>, pixhawk: Option<bool>, ok: seq<bool>) returns (sent: seq<seq<byte>>, success: bool)
      ensures (sent, success) == Io.Transmit(DroneTask.PowerCommands(upcore, pixhawk), ok, 0)
    {
      sent, success := DroneTask.SetPower(upcore, pixhawk, ok);
    }
  }

  /** Powering on is refused once the UpCore is ready, and shutting down while on standby. */
  lemma StaleActionsIgnored(d: Drone)
    ensures d.state.Ready? ==> d.Execute(UpCorePowerOn) == Ignored(UpCorePowerOn)
    ensures d.state.Standby? ==> d.Execute(UpCoreShutdown) == Ignored(UpCoreShutdown)
    ensures d.Execute(Identify) == Ignored(Identify)
  {
  }
}
