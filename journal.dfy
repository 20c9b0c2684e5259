/**
 * The experiment journal: closed until a start opens a new file, then
 * every recorded event is written with its time since that start. The
 * router and tracking-system streams are subscribed to while the journal
 * is open and pending while it is closed.
 */
module Journal {
  import opened Wrappers
  import opened Bytes
  import opened Net
  import Router
  import Arena

  datatype ArgosOutput = StandardOutput(bytes: seq<byte>) | StandardError(bytes: seq<byte>)

  /** A tracking-system update; only the rigid body's identifier is modelled, not its pose. */
  datatype TrackingUpdate = TrackingUpdate(id: int)

  datatype Event =
    | ARGoS(robot: string, output: ArgosOutput)
    | Message(peer: SocketAddr, value: Router.LuaValue)
    | TrackingSystem(updates: seq<TrackingUpdate>)
    | Descriptors(builderbots: seq<Arena.BuilderBotDescriptor>, drones: seq<Arena.DroneDescriptor>,
                  pipucks: seq<Arena.PiPuckDescriptor>)

  /** A written entry: milliseconds since the journal's start, and the event. */
  datatype Entry = Entry(timestamp: int, event: Event)

  /** Why a start was refused: the file, or one of the two subscriptions. */
  datatype StartError = FileCreation | RouterSubscription | TrackingSubscription

  /**
   * The result a start reports: the first failure among creating the file,
   * subscribing to the router and subscribing to the tracking system.
   */
  function StartResult(fileOk: bool, routerOk: bool, trackingOk: bool): (r: Result<(), StartError>)
    ensures r.Ok? <==> fileOk && routerOk && trackingOk
    ensures r == Err(FileCreation) <==> !fileOk
    ensures r == Err(RouterSubscription) <==> fileOk && !routerOk
    ensures r == Err(TrackingSubscription) <==> fileOk && routerOk && !trackingOk
  {
    if !fileOk then Err(FileCreation)
    else if !routerOk then Err(RouterSubscription)
    else if !trackingOk then Err(TrackingSubscription)
    else Ok(())
  }

  /** A lagging broadcast receiver: its error is logged and nothing is written. */
  datatype Lagged = Lagged(skipped: nat)

  class Journal {
    /** The start time (ms) of the open journal; None while it is closed. */
    var started: Option<int>
    /** The entries written to the open journal's file so far. */
    var entries: seq<Entry>
    var routerActive: bool
    var trackingActive: bool

    /** The two streams are subscribed to exactly while the journal is open. */
    ghost predicate Valid()
      reads this
    {
      (routerActive <==> started.Some?) && (trackingActive <==> started.Some?)
    }

    /** A new journal is closed, with both streams pending. */
    constructor ()
      ensures Valid() && started.None? && entries == [] && !routerActive && !trackingActive
    {
      started := None;
      entries := [];
      routerActive := false;
      trackingActive := false;
    }

    /**
     * `Start`: with the file created and both subscriptions made, a new
     * journal opens at `now` and both streams become active; on any failure
     * the journal is left as it was.
     */
    method Start(now: int, fileOk: bool, routerOk: bool, trackingOk: bool) returns (r: Result<(), StartError>)
      requires Valid()
      modifies this
      ensures Valid()
      ensures r == StartResult(fileOk, routerOk, trackingOk)
      ensures r.Ok? ==> started == Some(now) && entries == [] && routerActive && trackingActive
      ensures r.Err? ==> (started == old(started) && entries == old(entries) &&
        routerActive == old(routerActive) && trackingActive == old(trackingActive))
    {
      r := StartResult(fileOk, routerOk, trackingOk);
      if r.Ok? {
        started := Some(now);
        entries := [];
        routerActive := true;
        trackingActive := true;
      }
    }

    /** `Stop`: the journal closes and both streams return to pending. */
    method Stop()
      requires Valid()
      modifies this
      ensures Valid() && started.None? && !routerActive && !trackingActive && entries == old(entries)
    {
      trackingActive := false;
      routerActive := false;
      started := None;
    }

    /**
     * Writing one event at `now` into the open journal; a failed write
     * (`writeOk` false) is only logged.
     */
    method Write(event: Event, now: int, writeOk: bool)
      requires started.Some?
      modifies this
      ensures started == old(started) && routerActive == old(routerActive) && trackingActive == old(trackingActive)
      ensures entries == old(entries) + (if writeOk then [Entry(now - started.value, event)] else [])
    {
      var start := started.value;
      if writeOk {
        entries := entries + [Entry(now - start, event)];
      }
    }

    /** `Record`: the journal must be open (it is unwrapped). */
    method Record(event: Event, now: int, writeOk: bool)
      requires Valid() && started.Some?
      modifies this
      ensures Valid() && started == old(started)
      ensures entries == old(entries) + (if writeOk then [Entry(now - started.value, event)] else [])
    {
      Write(event, now, writeOk);
    }

    /** An item of the tracking-system stream, which only runs while the journal is open. */
    method OnTracking(update: Result<seq<TrackingUpdate>, Lagged>, now: int, writeOk: bool)
      requires Valid() && trackingActive
      modifies this
      ensures Valid() && started == old(started)
      ensures entries == old(entries) +
        (if update.Ok? && writeOk then [Entry(now - started.value, TrackingSystem(update.value))] else [])
    {
      if update.Ok? {
        Write(TrackingSystem(update.value), now, writeOk);
      }
    }

    /** An item of the router stream: a message a robot sent, written if the journal is open. */
    method OnMessage(update: Result<(SocketAddr, Router.LuaValue), Lagged>, now: int, writeOk: bool)
      requires Valid() && routerActive
      modifies this
      ensures Valid() && started == old(started)
      ensures entries == old(entries) +
        (if update.Ok? && writeOk then [Entry(now - started.value, Message(update.value.0, update.value.1))] else [])
    {
      if update.Ok? && started.Some? {
        Write(Message(update.value.0, update.value.1), now, writeOk);
      }
    }
  }

  /** A request to the journal task: `Start` with its outcomes, `Stop`, or `Record` at a time. */
  datatype Action =
    | StartAction(now: int, fileOk: bool, routerOk: bool, trackingOk: bool)
    | StopAction
    | RecordAction(event: Event, now: int, writeOk: bool)

  /** The journal as the requests see it: its start time while open, and the entries written. */
  datatype Status = Status(started: Option<int>, entries: seq<Entry>)

  /**
   * One request: a start that succeeds opens a fresh journal, one that fails
   * changes nothing; a stop closes it; a record into a closed journal
   * panics (None), and otherwise appends the stamped entry when the write
   * succeeds.
   */
  function Step(s: Status, a: Action): (r: Option<Status>)
    ensures r.None? <==> a.RecordAction? && s.started.None?
    ensures a.StartAction? ==> (r.value ==
      if StartResult(a.fileOk, a.routerOk, a.trackingOk).Ok? then Status(Some(a.now), []) else s)
    ensures a.StopAction? ==> r.value == Status(None, s.entries)
    ensures r.Some? && a.RecordAction? ==> (r.value.started == s.started &&
      r.value.entries == s.entries + (if a.writeOk then [Entry(a.now - s.started.value, a.event)] else []))
  {
    match a
    case StartAction(now, fileOk, routerOk, trackingOk) =>
      if StartResult(fileOk, routerOk, trackingOk).Ok? then Some(Status(Some(now), [])) else Some(s)
    case StopAction => Some(Status(None, s.entries))
    case RecordAction(event, now, writeOk) =>
      if s.started.None? then None
      else Some(Status(s.started, s.entries + (if writeOk then [Entry(now - s.started.value, event)] else [])))
  }

  /** The requests in order, until the channel closes or a record panics. */
  function Replay(s: Status, actions: seq<Action>): Option<Status>
    decreases |actions|
  {
    if actions == [] then Some(s)
    else match Step(s, actions[0])
      case None => None
      case Some(t) => Replay(t, actions[1..])
  }

  /** Only records can panic: a run without them never does, and every entry then comes from the last start. */
  lemma {:induction false} ReplayWithoutRecords(s: Status, actions: seq<Action>)
    requires forall i :: 0 <= i < |actions| ==> !actions[i].RecordAction?
    decreases |actions|
    ensures Replay(s, actions).Some?
    ensures Replay(s, actions).value.entries == s.entries ||
      ((exists i :: 0 <= i < |actions| && actions[i].StartAction?) && Replay(s, actions).value.entries == [])
  {
    if actions != [] {
      var t := Step(s, actions[0]).value;
      ReplayWithoutRecords(t, actions[1..]);
      if actions[0].StartAction? {
        assert t.entries == s.entries || t.entries == [];
      }
      if Replay(t, actions[1..]).value.entries != t.entries {
        var i :| 0 <= i < |actions[1..]| && actions[1..][i].StartAction?;
        assert actions[i + 1].StartAction?;
      }
    }
  }

  /** A record right after a successful start is the journal's first entry, stamped relative to that start. */
  lemma FirstRecordAfterStart(s: Status, now: int, event: Event, later: int)
    ensures Replay(s, [StartAction(now, true, true, true), RecordAction(event, later, true)]) ==
      Some(Status(Some(now), [Entry(later - now, event)]))
  {
    var actions := [StartAction(now, true, true, true), RecordAction(event, later, true)];
    var t := Step(s, actions[0]).value;
    assert t == Status(Some(now), []);
    assert Step(t, actions[1]) == Some(Status(Some(now), [] + [Entry(later - now, event)]));
    assert [] + [Entry(later - now, event)] == [Entry(later - now, event)];
    assert actions[1..] == [RecordAction(event, later, true)];
    assert actions[1..][1..] == [];
    assert Replay(t, actions[1..]) == Replay(Step(t, actions[1]).value, []);
  }

  /**
   * `new`: the journal task serves its requests in order until the request
   * channel closes; a record while closed ends it with a panic.
   */
  method Serve(j: Journal, actions: seq<Action>) returns (panicked: bool)
    requires j.Valid()
    modifies j
    ensures j.Valid()
    ensures panicked <==> Replay(Status(old(j.started), old(j.entries)), actions).None?
    ensures !panicked ==> Replay(Status(old(j.started), old(j.entries)), actions) == Some(Status(j.started, j.entries))
  {
    ghost var initial := Status(j.started, j.entries);
    var i := 0;
    while i < |actions|
      invariant i <= |actions|
      invariant j.Valid()
      invariant Replay(initial, actions) == Replay(Status(j.started, j.entries), actions[i..])
    {
      ghost var before := Status(j.started, j.entries);
      assert actions[i..][0] == actions[i] && actions[i..][1..] == actions[i + 1..];
      match actions[i] {
        case StartAction(now, fileOk, routerOk, trackingOk) =>
          var r := j.Start(now, fileOk, routerOk, trackingOk);
        case StopAction =>
          j.Stop();
        case RecordAction(event, now, writeOk) =>
          if j.started.None? {
            return true;
          }
          j.Record(event, now, writeOk);
      }
      assert Step(before, actions[i]) == Some(Status(j.started, j.entries));
      i := i + 1;
    }
    assert actions[i..] == [];
    return false;
  }
}
