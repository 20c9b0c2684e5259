/**
 * The SSH driver of a drone's UpCore: a device that is either disconnected
 * or holds an open session with a shell, and the operations that need the
 * session. The outcomes of the network exchanges are inputs.
 */
module NetSsh {
  import opened Wrappers
  import opened Bytes
  import opened Net
  import opened SshShell

  /** The session handle and shell of a connected device are not modelled beyond their presence. */
  datatype Link = Disconnected | Connected

  class Device {
    var addr: Ipv4
    var state: Link

    /** `Device::new`: a device starts disconnected. */
    constructor (addr: Ipv4)
      ensures this.addr == addr && state.Disconnected?
    {
      this.addr := addr;
      state := Link.Disconnected;
    }

    /**
     * `connect`: on success the device holds the new session; on any failure
     * the previous state is kept.
     */
    method Connect(reachable: bool, login: Option<bool>, channelOpened: bool, shellGranted: bool) returns (r: Result<(), SshError>)
      modifies this
      ensures r == ConnectOutcome(reachable, login, channelOpened, shellGranted)
      ensures state == (if r.Ok? then Link.Connected else old(state))
      ensures addr == old(addr)
    {
      if !reachable || login.None? {
        return Err(ConnectionFailure);
      }
      if login.value == false {
        return Err(LoginFailure);
      }
      r := OpenShell(channelOpened, shellGranted);
      if r.Ok? {
        state := Link.Connected;
      }
    }

    /** `disconnect`: whatever the state, the session is dropped. */
    method Disconnect()
      modifies this
      ensures state.Disconnected? && addr == old(addr)
    {
      state := Link.Disconnected;
    }

    /** `default_shell`: the shell of the session, if there is one. */
    function DefaultShell(): (r: Result<(), SshError>)
      reads this
      ensures r.Ok? <==> state.Connected?
      ensures r.Err? ==> r.error == SshError.Disconnected
    {
      match state
      case Connected => Ok(())
      case Disconnected => Err(SshError.Disconnected)
    }

    /**
     * `upload`: without a session nothing is sent; with one, the scp
     * transfer of `contents` as `filename` into the directory.
     */
    method Upload(path: seq<byte>, filename: seq<byte>, contents: seq<byte>, permissions: nat,
                  channelOk: bool, execOk: bool, dataOk: seq<bool>, eofOk: bool)
      returns (command: seq<byte>, sent: seq<seq<byte>>, r: Result<(), SshError>)
      ensures state.Disconnected? ==> command == [] && sent == [] && r == Err(SshError.Disconnected)
      ensures state.Connected? ==> command == if channelOk then SCP_SINK + path else []
      ensures state.Connected? ==>
        (sent, r) == UploadOutcome(permissions, filename, contents, channelOk, execOk, dataOk, eofOk)
    {
      if state.Disconnected? {
        return [], [], Err(SshError.Disconnected);
      }
      command, sent, r := SshShell.Upload(path, permissions, filename, contents, channelOk, execOk, dataOk, eofOk);
    }

    /** `hostname`: `exec("hostname")` on the session's shell. */
    method Hostname(writeOk: bool, msgs: seq<ChannelMsg>) returns (r: Result<seq<byte>, SshError>)
      ensures state.Disconnected? ==> r == Err(SshError.Disconnected)
      ensures state.Connected? ==> r == ExecOutcome(writeOk, msgs)
    {
      if state.Disconnected? {
        return Err(SshError.Disconnected);
      }
      var written;
      written, r := Exec(HOSTNAME, writeOk, msgs);
    }
  }
}
