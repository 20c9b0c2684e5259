/**
 * The offline reader of an experiment journal: it goes through the
 * journal's entries in order and groups them into tables (tracking samples
 * per rigid body, ARGoS output per robot, messages per source address, and
 * the robots of the last descriptors entry), then joins each drone with
 * its own log, messages and tracking data.
 */
module ParseJournal {
  import opened Wrappers
  import opened Bytes
  import opened Net
  import Utf8
  import Router

  /** One rigid body in a tracking-system entry; position and orientation are carried, not computed with. */
  datatype TrackingUpdate = TrackingUpdate(id: int, position: seq<real>, orientation: seq<real>)

  /** A tracking sample as stored: the entry's timestamp with the body's pose. */
  datatype Sample = Sample(timestamp: int, position: seq<real>, orientation: seq<real>)

  datatype PiPuckRecord = PiPuckRecord(id: string, rpiMac: MacAddr, optitrackId: int, apriltagId: int)

  datatype DroneRecord = DroneRecord(id: string, xbeeMac: MacAddr, upcoreMac: MacAddr, optitrackId: int)

  datatype Output = StandardOutput(bytes: seq<byte>) | StandardError(bytes: seq<byte>)

  /**
   * The events the reader looks at; a descriptors entry is read as the
   * Pi-Pucks first and the drones second. Any other event type is skipped.
   */
  datatype Event =
    | TrackingSystem(updates: seq<TrackingUpdate>)
    | Descriptors(pipucks: seq<PiPuckRecord>, drones: seq<DroneRecord>)
    | ARGoS(robot: string, output: Output)
    | Message(source: string, data: Router.LuaValue)
    | Other

  datatype Entry = Entry(timestamp: int, event: Event)

  datatype MessageRecord = MessageRecord(timestamp: int, data: Router.LuaValue)

  /** A robot's ARGoS output: its standard output and its standard error, each in one piece. */
  datatype Logs = Logs(stdout: seq<byte>, stderr: seq<byte>)

  /** A table's list for a key, empty when the key is absent. */
  function Get<K, V>(m: map<K, seq<V>>, k: K): seq<V>
  {
    if k in m then m[k] else []
  }

  // ---- What the tables hold after a prefix of the journal ----

  /** The samples of body `id` among one entry's updates, in order. */
  function Matching(timestamp: int, updates: seq<TrackingUpdate>, id: int): seq<Sample>
    decreases |updates|
  {
    if updates == [] then []
    else
      var u := updates[|updates| - 1];
      Matching(timestamp, updates[..|updates| - 1], id) +
        (if u.id == id then [Sample(timestamp, u.position, u.orientation)] else [])
  }

  /** Every sample of body `id` in the entries, in journal order. */
  function Samples(es: seq<Entry>, id: int): seq<Sample>
    decreases |es|
  {
    if es == [] then []
    else
      var e := es[|es| - 1];
      Samples(es[..|es| - 1], id) + (if e.event.TrackingSystem? then Matching(e.timestamp, e.event.updates, id) else [])
  }

  /** The robots that wrote any ARGoS output. */
  function Logged(es: seq<Entry>): set<string>
    decreases |es|
  {
    if es == [] then {}
    else
      var e := es[|es| - 1];
      Logged(es[..|es| - 1]) + (if e.event.ARGoS? then {e.event.robot} else {})
  }

  /** All of `robot`'s standard output (`stdout`) or standard error, concatenated in journal order. */
  function Written(es: seq<Entry>, robot: string, stdout: bool): seq<byte>
    decreases |es|
  {
    if es == [] then []
    else
      var e := es[|es| - 1];
      Written(es[..|es| - 1], robot, stdout) +
        (if e.event.ARGoS? && e.event.robot == robot && e.event.output.StandardOutput? == stdout
         then e.event.output.bytes else [])
  }

  /** Every message from `source`, stamped with its entry's time, in journal order. */
  function MessagesFrom(es: seq<Entry>, source: string): seq<MessageRecord>
    decreases |es|
  {
    if es == [] then []
    else
      var e := es[|es| - 1];
      MessagesFrom(es[..|es| - 1], source) +
        (if e.event.Message? && e.event.source == source then [MessageRecord(e.timestamp, e.event.data)] else [])
  }

  /** The robots of the last descriptors entry, if there is one. */
  function LastDescriptors(es: seq<Entry>): Option<(seq<PiPuckRecord>, seq<DroneRecord>)>
    decreases |es|
  {
    if es == [] then None
    else
      var e := es[|es| - 1];
      if e.event.Descriptors? then Some((e.event.pipucks, e.event.drones)) else LastDescriptors(es[..|es| - 1])
  }

  /** A dictionary built from records by identifier: for a repeated identifier the last record wins. */
  function ById<T>(rs: seq<T>, id: T -> string): map<string, T>
    decreases |rs|
  {
    if rs == [] then map[] else ById(rs[..|rs| - 1], id)[id(rs[|rs| - 1]) := rs[|rs| - 1]]
  }

  function PiPuckId(p: PiPuckRecord): string { p.id }

  function DroneId(d: DroneRecord): string { d.id }

  // ---- Properties of the tables ----

  /**
   * A dictionary by identifier has exactly the records' identifiers as keys,
   * and holds for each the last record with that identifier.
   */
  lemma {:induction false} ByIdSound<T>(rs: seq<T>, id: T -> string)
    ensures ById(rs, id).Keys == set k | 0 <= k < |rs| :: id(rs[k])
    ensures forall k :: 0 <= k < |rs| && (forall j :: k < j < |rs| ==> id(rs[j]) != id(rs[k])) ==>
      ById(rs, id)[id(rs[k])] == rs[k]
    decreases |rs|
  {
    if rs != [] {
      var init := rs[..|rs| - 1];
      ByIdSound(init, id);
      assert forall k :: 0 <= k < |init| ==> init[k] == rs[k];
      assert (set k | 0 <= k < |rs| :: id(rs[k])) == (set k | 0 <= k < |init| :: id(init[k])) + {id(rs[|rs| - 1])};
    }
  }

  /** A descriptors entry replaces the robots wholesale: what came before it no longer counts. */
  lemma {:induction false} DescriptorsReplace(es: seq<Entry>, k: nat)
    requires k < |es| && es[k].event.Descriptors?
    requires forall j :: k < j < |es| ==> !es[j].event.Descriptors?
    ensures LastDescriptors(es) == Some((es[k].event.pipucks, es[k].event.drones))
    decreases |es|
  {
    if k < |es| - 1 {
      var init := es[..|es| - 1];
      assert forall j :: 0 <= j < |init| ==> init[j] == es[j];
      DescriptorsReplace(init, k);
    }
  }

  /** Grouping keeps journal order: the samples of a journal are those of its first part, then those of the rest. */
  lemma {:induction false} SamplesAppend(a: seq<Entry>, b: seq<Entry>, id: int)
    ensures Samples(a + b, id) == Samples(a, id) + Samples(b, id)
    decreases |b|
  {
    if b == [] {
      assert a + b == a;
    } else {
      var init := b[..|b| - 1];
      var e := b[|b| - 1];
      assert (a + b)[..|a + b| - 1] == a + init;
      assert (a + b)[|a + b| - 1] == e;
      SamplesAppend(a, init, id);
      var tail := if e.event.TrackingSystem? then Matching(e.timestamp, e.event.updates, id) else [];
      assert Samples(a + init, id) + tail == Samples(a, id) + (Samples(init, id) + tail);
    }
  }

  /** The same for the messages of one source. */
  lemma {:induction false} MessagesAppend(a: seq<Entry>, b: seq<Entry>, source: string)
    ensures MessagesFrom(a + b, source) == MessagesFrom(a, source) + MessagesFrom(b, source)
    decreases |b|
  {
    if b == [] {
      assert a + b == a;
    } else {
      var init := b[..|b| - 1];
      var e := b[|b| - 1];
      assert (a + b)[..|a + b| - 1] == a + init;
      assert (a + b)[|a + b| - 1] == e;
      MessagesAppend(a, init, source);
      var tail := if e.event.Message? && e.event.source == source then [MessageRecord(e.timestamp, e.event.data)] else [];
      assert MessagesFrom(a + init, source) + tail == MessagesFrom(a, source) + (MessagesFrom(init, source) + tail);
    }
  }

  /** A robot that never wrote has no output of either kind. */
  lemma {:induction false} NotLoggedWritesNothing(es: seq<Entry>, robot: string, stdout: bool)
    requires robot !in Logged(es)
    ensures Written(es, robot, stdout) == []
    decreases |es|
  {
    if es != [] {
      NotLoggedWritesNothing(es[..|es| - 1], robot, stdout);
    }
  }

  // ---- The drones and the join ----

  /** What the join attaches to a drone. */
  datatype Joined = Joined(argosLog: Option<seq<byte>>, argosLogerr: Option<seq<byte>>, socketaddr: Option<string>,
                           messages: Option<seq<MessageRecord>>, optitrackData: Option<seq<Sample>>)

  const NOTHING := Joined(None, None, None, None, None)

  /** Why the join as written stops the script: a missing log has no `decode`, and a search in `None` is refused. */
  datatype Raised = AttributeError | TypeError

  /**
   * The join for one drone as written: the drone's logs are attached when it
   * has any, and then its log is decoded unconditionally, so a drone
   * without logs raises, and so does one whose log is not valid UTF-8
   * (`log_as_utf8` then yields `None`, which the search refuses). Otherwise
   * the socket address found in the log (`socketIn`, the regular
   * expression's first group) picks the drone's messages, and the tracking
   * data of its rigid body is attached.
   */
  function JoinAsWritten(base: Joined, id: string, optitrackId: int, logs: map<string, Logs>,
                         messageTable: map<string, seq<MessageRecord>>, tracking: map<int, seq<Sample>>,
                         socketIn: seq<byte> -> Option<string>): (r: Result<Joined, Raised>)
    ensures var log := if id in logs then Some(logs[id].stdout) else base.argosLog;
      (r == Err(AttributeError) <==> log.None?) &&
      (r == Err(TypeError) <==> log.Some? && !Utf8.Valid(log.value)) &&
      (r.Ok? ==> r.value == JoinFixed(base, id, optitrackId, logs, messageTable, tracking, socketIn))
  {
    var withLogs := if id in logs then base.(argosLog := Some(logs[id].stdout), argosLogerr := Some(logs[id].stderr)) else base;
    if withLogs.argosLog.None? then Err(AttributeError)
    else if !Utf8.Valid(withLogs.argosLog.value) then Err(TypeError)
    else Ok(JoinFixed(base, id, optitrackId, logs, messageTable, tracking, socketIn))
  }

  /**
   * The join for one drone as evidently intended: as written, except that a
   * drone without a decodable log only skips the socket address and its
   * messages.
   */
  function JoinFixed(base: Joined, id: string, optitrackId: int, logs: map<string, Logs>,
                     messageTable: map<string, seq<MessageRecord>>, tracking: map<int, seq<Sample>>,
                     socketIn: seq<byte> -> Option<string>): (r: Joined)
    ensures r.argosLog == (if id in logs then Some(logs[id].stdout) else base.argosLog)
    ensures r.argosLogerr == (if id in logs then Some(logs[id].stderr) else base.argosLogerr)
    ensures r.optitrackData == (if optitrackId in tracking then Some(tracking[optitrackId]) else base.optitrackData)
    ensures r.socketaddr == (if r.argosLog.Some? && Utf8.Valid(r.argosLog.value) && socketIn(r.argosLog.value).Some?
      then socketIn(r.argosLog.value) else base.socketaddr)
    ensures r.messages != base.messages ==>
      (r.socketaddr.Some? && r.socketaddr.value in messageTable && r.messages == Some(messageTable[r.socketaddr.value]))
    ensures r.socketaddr != base.socketaddr && r.socketaddr.value in messageTable ==>
      r.messages == Some(messageTable[r.socketaddr.value])
  {
    var withLogs := if id in logs then base.(argosLog := Some(logs[id].stdout), argosLogerr := Some(logs[id].stderr)) else base;
    var withSocket :=
      if withLogs.argosLog.Some? && Utf8.Valid(withLogs.argosLog.value) then
        match socketIn(withLogs.argosLog.value)
        case Some(addr) =>
          withLogs.(socketaddr := Some(addr), messages := if addr in messageTable then Some(messageTable[addr]) else withLogs.messages)
        case None => withLogs
      else withLogs;
    withSocket.(optitrackData := if optitrackId in tracking then Some(tracking[optitrackId]) else withSocket.optitrackData)
  }

  /**
   * A drone listed in the descriptors with no ARGoS output makes the join as
   * written raise before its tracking data is attached, where the intended
   * join attaches it.
   */
  lemma NoLogsRaises(sample: Sample)
    ensures JoinAsWritten(NOTHING, "drone", 1, map[], map[], map[1 := [sample]], _ => None) == Err(AttributeError)
    ensures JoinFixed(NOTHING, "drone", 1, map[], map[], map[1 := [sample]], _ => None).optitrackData == Some([sample])
  {
  }

  class Drone {
    const xbeeMac: MacAddr
    const upcoreMac: MacAddr
    const optitrackId: int
    var optitrackData: Option<seq<Sample>>
    var argosLog: Option<seq<byte>>
    var argosLogerr: Option<seq<byte>>
    var socketaddr: Option<string>
    var messages: Option<seq<MessageRecord>>

    function Attached(): Joined
      reads this
    {
      Joined(argosLog, argosLogerr, socketaddr, messages, optitrackData)
    }

    /** `Drone(...)`: the descriptor's addresses and rigid body, nothing attached yet. */
    constructor (xbeeMac: MacAddr, upcoreMac: MacAddr, optitrackId: int)
      ensures this.xbeeMac == xbeeMac && this.upcoreMac == upcoreMac && this.optitrackId == optitrackId
      ensures Attached() == NOTHING
    {
      this.xbeeMac := xbeeMac;
      this.upcoreMac := upcoreMac;
      this.optitrackId := optitrackId;
      optitrackData := None;
      argosLog := None;
      argosLogerr := None;
      socketaddr := None;
      messages := None;
    }

    /** One pass of the join loop for the drone stored under `id`. */
    method Attach(id: string, logs: map<string, Logs>, messageTable: map<string, seq<MessageRecord>>,
                  tracking: map<int, seq<Sample>>, socketIn: seq<byte> -> Option<string>)
      modifies this
      ensures Attached() == JoinFixed(old(Attached()), id, optitrackId, logs, messageTable, tracking, socketIn)
    {
      if id in logs {
        argosLog := Some(logs[id].stdout);
        argosLogerr := Some(logs[id].stderr);
      }
      if argosLog.Some? && Utf8.Valid(argosLog.value) {
        var found := socketIn(argosLog.value);
        if found.Some? {
          socketaddr := found;
          if found.value in messageTable {
            messages := Some(messageTable[found.value]);
          }
        }
      }
      if optitrackId in tracking {
        optitrackData := Some(tracking[optitrackId]);
      }
    }
  }

  /** The drone object describes the record: same addresses and rigid body. */
  predicate Describes(d: Drone, r: DroneRecord)
  {
    d.xbeeMac == r.xbeeMac && d.upcoreMac == r.upcoreMac && d.optitrackId == r.optitrackId
  }

  /** No two identifiers share a drone object. */
  predicate Distinct(m: map<string, Drone>)
  {
    forall a, b :: a in m && b in m && a != b ==> m[a] != m[b]
  }

  /** The drones table of a descriptors entry: a new object per identifier, for the last record with it. */
  method MakeDrones(ds: seq<DroneRecord>) returns (m: map<string, Drone>)
    ensures m.Keys == ById(ds, DroneId).Keys && Distinct(m)
    ensures forall id :: id in m ==> fresh(m[id]) && Describes(m[id], ById(ds, DroneId)[id]) && m[id].Attached() == NOTHING
  {
    m := map[];
    var i := 0;
    while i < |ds|
      invariant i <= |ds|
      invariant m.Keys == ById(ds[..i], DroneId).Keys && Distinct(m)
      invariant forall id :: id in m ==>
        fresh(m[id]) && Describes(m[id], ById(ds[..i], DroneId)[id]) && m[id].Attached() == NOTHING
    {
      var drone := new Drone(ds[i].xbeeMac, ds[i].upcoreMac, ds[i].optitrackId);
      assert ds[..i + 1][..i] == ds[..i];
      m := m[ds[i].id := drone];
      i := i + 1;
    }
    assert ds[..|ds|] == ds;
  }

  /** The script's tables. */
  class Script {
    var pipucks: map<string, PiPuckRecord>
    var drones: map<string, Drone>
    var argosLogs: map<string, Logs>
    var messages: map<string, seq<MessageRecord>>
    var trackingSystem: map<int, seq<Sample>>

    /** The tracking table holds, for each body with samples, exactly its samples in journal order. */
    ghost predicate TrackingLoaded(es: seq<Entry>)
      reads this
    {
      (forall id :: Get(trackingSystem, id) == Samples(es, id)) &&
      (forall id :: id in trackingSystem ==> trackingSystem[id] != [])
    }

    /** The log table holds an entry for every robot that wrote, with all it wrote, in journal order. */
    ghost predicate LogsLoaded(es: seq<Entry>)
      reads this
    {
      LogsOf(argosLogs, es)
    }

    /** The message table holds, for each source that sent any, exactly its messages in journal order. */
    ghost predicate MessagesLoaded(es: seq<Entry>)
      reads this
    {
      (forall source :: Get(messages, source) == MessagesFrom(es, source)) &&
      (forall source :: source in messages ==> messages[source] != [])
    }

    /** The robots tables are those of the last descriptors entry, with nothing attached to the drones yet. */
    ghost predicate DescriptorsLoaded(es: seq<Entry>)
      reads this, drones.Values
    {
      var last := LastDescriptors(es);
      pipucks == (if last.Some? then ById(last.value.0, PiPuckId) else map[]) &&
      drones.Keys == (if last.Some? then ById(last.value.1, DroneId).Keys else {}) && Distinct(drones) &&
      forall id :: id in drones ==> (last.Some? && Describes(drones[id], ById(last.value.1, DroneId)[id]) &&
        drones[id].Attached() == NOTHING)
    }

    ghost predicate Loaded(es: seq<Entry>)
      reads this, drones.Values
    {
      TrackingLoaded(es) && LogsLoaded(es) && MessagesLoaded(es) && DescriptorsLoaded(es)
    }

    /** The empty tables the script starts with. */
    constructor ()
      ensures Loaded([])
    {
      pipucks := map[];
      drones := map[];
      argosLogs := map[];
      messages := map[];
      trackingSystem := map[];
    }

    /** A tracking-system entry: each update is appended to its body's list. */
    method AddTracking(ghost done: seq<Entry>, timestamp: int, updates: seq<TrackingUpdate>)
      requires TrackingLoaded(done)
      modifies this
      ensures TrackingLoaded(done + [Entry(timestamp, TrackingSystem(updates))])
      ensures pipucks == old(pipucks) && drones == old(drones) && argosLogs == old(argosLogs) && messages == old(messages)
    {
      GroupedStart(trackingSystem, done, timestamp, updates);
      var i := 0;
      while i < |updates|
        invariant i <= |updates|
        invariant Grouped(trackingSystem, done, timestamp, updates[..i])
        invariant pipucks == old(pipucks) && drones == old(drones) && argosLogs == old(argosLogs) && messages == old(messages)
      {
        var u := updates[i];
        var sample := Sample(timestamp, u.position, u.orientation);
        var samples := if u.id in trackingSystem then trackingSystem[u.id] + [sample] else [sample];
        GroupedStep(trackingSystem, trackingSystem[u.id := samples], done, timestamp, updates, i);
        trackingSystem := trackingSystem[u.id := samples];
        i := i + 1;
      }
      assert updates[..i] == updates;
      GroupedEntry(trackingSystem, done, timestamp, updates);
    }

    /** An ARGoS entry: the robot's buffers are made on its first output, then the chunk is appended to one of them. */
    method AddOutput(ghost done: seq<Entry>, timestamp: int, robot: string, output: Output)
      requires LogsLoaded(done)
      modifies this
      ensures LogsLoaded(done + [Entry(timestamp, ARGoS(robot, output))])
      ensures pipucks == old(pipucks) && drones == old(drones) && trackingSystem == old(trackingSystem) && messages == old(messages)
    {
      var logs := if robot in argosLogs then argosLogs[robot] else Logs([], []);
      var extended := match output
        case StandardOutput(bytes) => logs.(stdout := logs.stdout + bytes)
        case StandardError(bytes) => logs.(stderr := logs.stderr + bytes);
      OutputStep(argosLogs, argosLogs[robot := extended], done, timestamp, robot, output);
      argosLogs := argosLogs[robot := extended];
    }

    /** A message entry: the message is appended to its source's list. */
    method AddMessage(ghost done: seq<Entry>, timestamp: int, source: string, data: Router.LuaValue)
      requires MessagesLoaded(done)
      modifies this
      ensures MessagesLoaded(done + [Entry(timestamp, Message(source, data))])
      ensures pipucks == old(pipucks) && drones == old(drones) && trackingSystem == old(trackingSystem) && argosLogs == old(argosLogs)
    {
      MessageEntry(done, timestamp, source, data);
      var message := MessageRecord(timestamp, data);
      if source in messages {
        messages := messages[source := messages[source] + [message]];
      } else {
        messages := messages[source := [message]];
      }
    }

    /** A descriptors entry: both robots tables are replaced. */
    method SetDescriptors(ghost done: seq<Entry>, timestamp: int, ps: seq<PiPuckRecord>, ds: seq<DroneRecord>)
      modifies this
      ensures DescriptorsLoaded(done + [Entry(timestamp, Descriptors(ps, ds))])
      ensures trackingSystem == old(trackingSystem) && argosLogs == old(argosLogs) && messages == old(messages)
      ensures fresh(drones.Values)
    {
      pipucks := ById(ps, PiPuckId);
      drones := MakeDrones(ds);
    }

    /** One entry of the loading loop, dispatched on its event type; other event types are skipped. */
    method Absorb(ghost done: seq<Entry>, e: Entry)
      requires Loaded(done)
      modifies this
      ensures Loaded(done + [e])
    {
      match e.event {
        case TrackingSystem(updates) =>
          AddTracking(done, e.timestamp, updates);
          KeepsLogs(done, e);
          KeepsMessages(done, e);
        case Descriptors(ps, ds) =>
          SetDescriptors(done, e.timestamp, ps, ds);
          KeepsTracking(done, e);
          KeepsLogs(done, e);
          KeepsMessages(done, e);
        case ARGoS(robot, output) =>
          AddOutput(done, e.timestamp, robot, output);
          KeepsTracking(done, e);
          KeepsMessages(done, e);
        case Message(source, data) =>
          AddMessage(done, e.timestamp, source, data);
          KeepsTracking(done, e);
          KeepsLogs(done, e);
        case Other =>
          KeepsTracking(done, e);
          KeepsLogs(done, e);
          KeepsMessages(done, e);
      }
    }

    /** The loading loop: the entries are grouped in order until the journal ends. */
    method Load(entries: seq<Entry>)
      requires Loaded([])
      modifies this
      ensures Loaded(entries)
    {
      var i := 0;
      while i < |entries|
        invariant i <= |entries|
        invariant Loaded(entries[..i])
      {
        Absorb(entries[..i], entries[i]);
        assert entries[..i + 1] == entries[..i] + [entries[i]];
        i := i + 1;
      }
      assert entries[..i] == entries;
    }

    /**
     * The join loop, with the intended join: every drone, in any order,
     * gets its logs, socket address, messages and tracking data.
     */
    method Join(socketIn: seq<byte> -> Option<string>)
      requires Distinct(drones)
      modifies drones.Values
      ensures forall id :: id in drones ==>
        drones[id].Attached() == JoinFixed(old(drones[id].Attached()), id, drones[id].optitrackId, argosLogs, messages,
          trackingSystem, socketIn)
    {
      var remaining := drones.Keys;
      while remaining != {}
        invariant remaining <= drones.Keys
        invariant forall id :: id in drones && id !in remaining ==>
          drones[id].Attached() == JoinFixed(old(drones[id].Attached()), id, drones[id].optitrackId, argosLogs, messages,
            trackingSystem, socketIn)
        invariant forall id :: id in remaining ==> drones[id].Attached() == old(drones[id].Attached())
        decreases remaining
      {
        var id :| id in remaining;
        drones[id].Attach(id, argosLogs, messages, trackingSystem, socketIn);
        remaining := remaining - {id};
      }
    }
  }

  /** The tracking table part-way through an entry: the samples before it, then those of the updates seen so far. */
  ghost predicate Grouped(t: map<int, seq<Sample>>, done: seq<Entry>, timestamp: int, seen: seq<TrackingUpdate>)
  {
    (forall id :: Get(t, id) == Samples(done, id) + Matching(timestamp, seen, id)) &&
    (forall id :: id in t ==> t[id] != [])
  }

  /** Appending one update's sample to its body's list keeps the table grouped. */
  lemma GroupedStep(before: map<int, seq<Sample>>, after: map<int, seq<Sample>>, done: seq<Entry>, timestamp: int,
                    updates: seq<TrackingUpdate>, i: nat)
    requires i < |updates| && Grouped(before, done, timestamp, updates[..i])
    requires var u := updates[i]; var sample := Sample(timestamp, u.position, u.orientation);
      after == before[u.id := if u.id in before then before[u.id] + [sample] else [sample]]
    ensures Grouped(after, done, timestamp, updates[..i + 1])
  {
    var u := updates[i];
    var sample := Sample(timestamp, u.position, u.orientation);
    assert updates[..i + 1][..i] == updates[..i];
    forall id ensures Get(after, id) == Samples(done, id) + Matching(timestamp, updates[..i + 1], id) {
      var m := Matching(timestamp, updates[..i], id);
      if id == u.id {
        assert Get(after, id) == Get(before, id) + [sample];
        assert (Samples(done, id) + m) + [sample] == Samples(done, id) + (m + [sample]);
      } else {
        assert m + [] == m;
      }
    }
  }

  /** Before any of an entry's updates, the table holds the samples of the journal so far. */
  lemma GroupedStart(t: map<int, seq<Sample>>, done: seq<Entry>, timestamp: int, updates: seq<TrackingUpdate>)
    requires forall id :: Get(t, id) == Samples(done, id)
    requires forall id :: id in t ==> t[id] != []
    ensures Grouped(t, done, timestamp, updates[..0])
  {
    forall id ensures Get(t, id) == Samples(done, id) + Matching(timestamp, updates[..0], id) {
      assert Samples(done, id) + [] == Samples(done, id);
    }
  }

  /** A table grouped over all of an entry's updates holds the samples of the journal with that entry. */
  lemma GroupedEntry(t: map<int, seq<Sample>>, done: seq<Entry>, timestamp: int, updates: seq<TrackingUpdate>)
    requires Grouped(t, done, timestamp, updates)
    ensures forall id :: Get(t, id) == Samples(done + [Entry(timestamp, TrackingSystem(updates))], id)
    ensures forall id :: id in t ==> t[id] != []
  {
    TrackingEntry(done, timestamp, updates);
  }

  /** Once all of an entry's updates are in, the table holds the samples of the journal with that entry. */
  lemma TrackingEntry(done: seq<Entry>, timestamp: int, updates: seq<TrackingUpdate>)
    ensures forall id :: (Samples(done + [Entry(timestamp, TrackingSystem(updates))], id) ==
      Samples(done, id) + Matching(timestamp, updates, id))
  {
    var next := done + [Entry(timestamp, TrackingSystem(updates))];
    assert next[..|next| - 1] == done;
  }

  /** A log table holds an entry for every robot that wrote, with all it wrote, in journal order. */
  ghost predicate LogsOf(t: map<string, Logs>, es: seq<Entry>)
  {
    t.Keys == Logged(es) &&
    forall robot :: robot in t ==> t[robot] == Logs(Written(es, robot, true), Written(es, robot, false))
  }

  /** Creating the robot's buffers if need be and extending one of them keeps the log table in step. */
  lemma OutputStep(before: map<string, Logs>, after: map<string, Logs>, done: seq<Entry>, timestamp: int,
                   robot: string, output: Output)
    requires LogsOf(before, done)
    requires var logs := if robot in before then before[robot] else Logs([], []);
      after == before[robot := if output.StandardOutput? then logs.(stdout := logs.stdout + output.bytes)
                               else logs.(stderr := logs.stderr + output.bytes)]
    ensures LogsOf(after, done + [Entry(timestamp, ARGoS(robot, output))])
  {
    OutputEntry(done, timestamp, robot, output);
    if robot !in before {
      NotLoggedWritesNothing(done, robot, true);
      NotLoggedWritesNothing(done, robot, false);
    }
    var next := done + [Entry(timestamp, ARGoS(robot, output))];
    forall r | r in after ensures after[r] == Logs(Written(next, r, true), Written(next, r, false)) {
      if r != robot {
        assert Written(done, r, true) + [] == Written(done, r, true);
        assert Written(done, r, false) + [] == Written(done, r, false);
      } else if output.StandardOutput? {
        assert Written(done, r, false) + [] == Written(done, r, false);
      } else {
        assert Written(done, r, true) + [] == Written(done, r, true);
      }
    }
  }

  /** An ARGoS entry adds its robot to those that wrote, and its chunk to that robot's one stream. */
  lemma OutputEntry(done: seq<Entry>, timestamp: int, robot: string, output: Output)
    ensures Logged(done + [Entry(timestamp, ARGoS(robot, output))]) == Logged(done) + {robot}
    ensures forall r, stdout :: (Written(done + [Entry(timestamp, ARGoS(robot, output))], r, stdout) ==
      Written(done, r, stdout) + if r == robot && output.StandardOutput? == stdout then output.bytes else [])
  {
    var next := done + [Entry(timestamp, ARGoS(robot, output))];
    assert next[..|next| - 1] == done;
  }

  /** A message entry adds the message, stamped, to its source's messages only. */
  lemma MessageEntry(done: seq<Entry>, timestamp: int, source: string, data: Router.LuaValue)
    ensures forall s :: (MessagesFrom(done + [Entry(timestamp, Message(source, data))], s) ==
      MessagesFrom(done, s) + if s == source then [MessageRecord(timestamp, data)] else [])
  {
    var next := done + [Entry(timestamp, Message(source, data))];
    assert next[..|next| - 1] == done;
  }

  /**
   * After loading, a rigid body has a list in the tracking table exactly
   * when the journal holds a sample of it, and a source has one in the
   * message table exactly when it sent a message.
   */
  lemma LoadedKeys(script: Script, es: seq<Entry>)
    requires script.TrackingLoaded(es) && script.MessagesLoaded(es)
    ensures forall id :: id in script.trackingSystem <==> Samples(es, id) != []
    ensures forall source :: source in script.messages <==> MessagesFrom(es, source) != []
  {
    forall id ensures id in script.trackingSystem <==> Samples(es, id) != [] {
      assert Get(script.trackingSystem, id) == Samples(es, id);
    }
    forall source ensures source in script.messages <==> MessagesFrom(es, source) != [] {
      assert Get(script.messages, source) == MessagesFrom(es, source);
    }
  }

  /** An entry of another kind adds no tracking sample. */
  lemma KeepsTracking(done: seq<Entry>, e: Entry)
    requires !e.event.TrackingSystem?
    ensures forall id :: Samples(done + [e], id) == Samples(done, id)
  {
    var next := done + [e];
    assert next[..|next| - 1] == done;
    forall id ensures Samples(next, id) == Samples(done, id) {
      assert Samples(done, id) + [] == Samples(done, id);
    }
  }

  /** An entry of another kind adds no ARGoS output. */
  lemma KeepsLogs(done: seq<Entry>, e: Entry)
    requires !e.event.ARGoS?
    ensures Logged(done + [e]) == Logged(done)
    ensures forall robot, stdout :: Written(done + [e], robot, stdout) == Written(done, robot, stdout)
  {
    var next := done + [e];
    assert next[..|next| - 1] == done;
    forall robot, stdout ensures Written(next, robot, stdout) == Written(done, robot, stdout) {
      assert Written(done, robot, stdout) + [] == Written(done, robot, stdout);
    }
  }

  /** An entry of another kind adds no message. */
  lemma KeepsMessages(done: seq<Entry>, e: Entry)
    requires !e.event.Message?
    ensures forall source :: MessagesFrom(done + [e], source) == MessagesFrom(done, source)
  {
    var next := done + [e];
    assert next[..|next| - 1] == done;
    forall source ensures MessagesFrom(next, source) == MessagesFrom(done, source) {
      assert MessagesFrom(done, source) + [] == MessagesFrom(done, source);
    }
  }
}
