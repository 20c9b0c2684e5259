/**
 * The arena of the earlier back end: Pi-Pucks and drones only, keyed by
 * identifier, a Standby/Active state, and one mutable software bundle per
 * robot kind. A discovered device goes to the first robot that has its
 * address, and an experiment starts the journal, then every Pi-Puck, then
 * every drone.
 */
module BackendArena {
  import opened Wrappers
  import opened Bytes
  import opened Net
  import Software
  import Arena

  datatype State = Standby | Active

  datatype Action = StartExperiment | StopExperiment

  function PiPuckId(p: Arena.PiPuckDescriptor): string { p.id }
  function DroneId(d: Arena.DroneDescriptor): string { d.id }

  predicate HasId<T>(ds: seq<T>, id: T -> string, key: string)
  {
    exists j :: 0 <= j < |ds| && id(ds[j]) == key
  }

  predicate UniqueIds<T>(ds: seq<T>, id: T -> string)
  {
    forall i, j :: 0 <= i < j < |ds| ==> id(ds[i]) != id(ds[j])
  }

  /**
   * Collecting descriptors into a map keyed by identifier: a descriptor is
   * kept unless a later one has the same identifier.
   */
  function Keyed<T>(ds: seq<T>, id: T -> string): (r: seq<T>)
    ensures |r| <= |ds|
  {
    if ds == [] then []
    else if HasId(ds[1..], id, id(ds[0])) then Keyed(ds[1..], id)
    else [ds[0]] + Keyed(ds[1..], id)
  }

  /** Every identifier of `ds` is also an identifier of `r`. */
  predicate CoversIds<T>(r: seq<T>, ds: seq<T>, id: T -> string)
  {
    forall i :: 0 <= i < |ds| ==> HasId(r, id, id(ds[i]))
  }

  ghost predicate Drawn<T>(r: seq<T>, ds: seq<T>)
  {
    forall k :: 0 <= k < |r| ==> r[k] in ds
  }

  /** The map holds one descriptor per identifier, each one of the originals, and loses no identifier. */
  lemma {:induction false} KeyedSound<T>(ds: seq<T>, id: T -> string)
    ensures var r := Keyed(ds, id);
      UniqueIds(r, id) && Drawn(r, ds) && CoversIds(r, ds, id) && CoversIds(ds, r, id)
  {
    if ds != [] {
      KeyedSound(ds[1..], id);
      var rest := Keyed(ds[1..], id);
      if HasId(ds[1..], id, id(ds[0])) {
        KeyedSkip(ds, rest, id);
      } else {
        var r := [ds[0]] + rest;
        KeyedKeepUnique(ds, rest, id);
        KeyedKeepDrawn(ds, rest);
        KeyedKeepCovers(ds, rest, id);
        KeyedKeepFromDs(ds, rest, id);
      }
    }
  }

  /**
   * The last descriptor with an identifier is the one kept for it, as
   * inserting into a map overwrites what an earlier one left.
   */
  lemma KeyedLastWins<T>(ds: seq<T>, id: T -> string, k: nat)
    requires k < |ds| && forall j :: k < j < |ds| ==> id(ds[j]) != id(ds[k])
    ensures ds[k] in Keyed(ds, id)
    ensures var r := Keyed(ds, id); forall i :: 0 <= i < |r| && id(r[i]) == id(ds[k]) ==> r[i] == ds[k]
  {
    KeyedKeepsLast(ds, id, k);
    KeyedSound(ds, id);
    var r := Keyed(ds, id);
    var p :| 0 <= p < |r| && r[p] == ds[k];
    forall i | 0 <= i < |r| && id(r[i]) == id(ds[k])
      ensures r[i] == ds[k]
    {
      assert !(i < p) && !(p < i);
    }
  }

  lemma {:induction false} KeyedKeepsLast<T>(ds: seq<T>, id: T -> string, k: nat)
    requires k < |ds| && forall j :: k < j < |ds| ==> id(ds[j]) != id(ds[k])
    ensures ds[k] in Keyed(ds, id)
  {
    if k == 0 {
      assert !HasId(ds[1..], id, id(ds[0]));
      assert Keyed(ds, id)[0] == ds[0];
    } else {
      var tail := ds[1..];
      assert tail[k - 1] == ds[k];
      assert forall j :: k - 1 < j < |tail| ==> tail[j] == ds[j + 1];
      KeyedKeepsLast(tail, id, k - 1);
      if !HasId(tail, id, id(ds[0])) {
        assert Keyed(ds, id) == [ds[0]] + Keyed(tail, id);
      }
    }
  }

  lemma KeyedSkip<T>(ds: seq<T>, rest: seq<T>, id: T -> string)
    requires ds != [] && HasId(ds[1..], id, id(ds[0]))
    requires Drawn(rest, ds[1..]) && CoversIds(rest, ds[1..], id) && CoversIds(ds[1..], rest, id)
    ensures Drawn(rest, ds) && CoversIds(rest, ds, id) && CoversIds(ds, rest, id)
  {
    assert forall i :: 1 <= i < |ds| ==> ds[i] == ds[1..][i - 1];
    var j :| 0 <= j < |ds[1..]| && id(ds[1..][j]) == id(ds[0]);
    assert HasId(rest, id, id(ds[1..][j]));
    forall k | 0 <= k < |rest|
      ensures HasId(ds, id, id(rest[k]))
    {
      var j :| 0 <= j < |ds[1..]| && id(ds[1..][j]) == id(rest[k]);
      assert ds[j + 1] == ds[1..][j];
    }
  }

  lemma KeyedKeepUnique<T>(ds: seq<T>, rest: seq<T>, id: T -> string)
    requires ds != [] && !HasId(ds[1..], id, id(ds[0]))
    requires UniqueIds(rest, id) && CoversIds(ds[1..], rest, id)
    ensures UniqueIds([ds[0]] + rest, id)
  {
    var r := [ds[0]] + rest;
    forall i, j | 0 <= i < j < |r|
      ensures id(r[i]) != id(r[j])
    {
      assert r[j] == rest[j - 1];
      if i == 0 {
        assert HasId(ds[1..], id, id(rest[j - 1]));
      } else {
        assert r[i] == rest[i - 1];
      }
    }
  }

  lemma KeyedKeepDrawn<T>(ds: seq<T>, rest: seq<T>)
    requires ds != [] && Drawn(rest, ds[1..])
    ensures Drawn([ds[0]] + rest, ds)
  {
    var r := [ds[0]] + rest;
    forall k | 0 <= k < |r|
      ensures r[k] in ds
    {
      if k > 0 {
        assert r[k] == rest[k - 1];
        assert rest[k - 1] in ds[1..];
      }
    }
  }

  lemma KeyedKeepCovers<T>(ds: seq<T>, rest: seq<T>, id: T -> string)
    requires ds != [] && CoversIds(rest, ds[1..], id)
    ensures CoversIds([ds[0]] + rest, ds, id)
  {
    var r := [ds[0]] + rest;
    forall i | 0 <= i < |ds|
      ensures HasId(r, id, id(ds[i]))
    {
      if i > 0 {
        assert ds[i] == ds[1..][i - 1];
        var k :| 0 <= k < |rest| && id(rest[k]) == id(ds[i]);
        assert r[k + 1] == rest[k];
      } else {
        assert r[0] == ds[0];
      }
    }
  }

  lemma KeyedKeepFromDs<T>(ds: seq<T>, rest: seq<T>, id: T -> string)
    requires ds != [] && CoversIds(ds[1..], rest, id)
    ensures CoversIds(ds, [ds[0]] + rest, id)
  {
    var r := [ds[0]] + rest;
    forall k | 0 <= k < |r|
      ensures HasId(ds, id, id(r[k]))
    {
      if k > 0 {
        assert r[k] == rest[k - 1];
        var j :| 0 <= j < |ds[1..]| && id(ds[1..][j]) == id(rest[k - 1]);
        assert ds[j + 1] == ds[1..][j];
      } else {
        assert ds[0] == r[0];
      }
    }
  }

  /** The requests of `start_experiment`: the journal, then every Pi-Puck, then every drone. */
  function StartPhases(pipucks: nat, drones: nat): (p: seq<seq<Arena.Request>>)
    ensures |p| == 3
  {
    [[Arena.JournalStart], Arena.Starts(Arena.PiPuck, pipucks), Arena.Starts(Arena.Drone, drones)]
  }

  function StartRequests(pipucks: nat, drones: nat): seq<Arena.Request>
  {
    Arena.Flatten(StartPhases(pipucks, drones))
  }

  /** The three phases of the start, each awaited with `?` before the next. */
  method RunPhases(phases: seq<seq<Arena.Request>>, net: Arena.Request -> Arena.Reply)
    returns (attempted: seq<Arena.Request>, r: Result<(), Arena.StartError>)
    requires |phases| == 3
    ensures (attempted, r) == Arena.Run(Arena.Flatten(phases), net)
  {
    assert phases[0..] == phases;
    assert [] + Arena.Run(Arena.Flatten(phases), net).0 == Arena.Run(Arena.Flatten(phases), net).0;
    attempted := [];
    /* the journal */
    attempted, r := Arena.NextPhase(phases, 0, attempted, net);
    if r.Err? { return; }
    /* the Pi-Pucks first, since they are less dangerous, then the drones */
    attempted, r := Arena.NextPhase(phases, 1, attempted, net);
    if r.Err? { return; }
    attempted, r := Arena.NextPhase(phases, 2, attempted, net);
    if r.Err? { return; }
    assert phases[3..] == [];
    assert attempted + [] == attempted;
    r := Ok(());
  }

  /**
   * The outcome of `start_experiment`: the Pi-Puck software is checked when
   * there are Pi-Pucks, then the drone software when there are drones, then
   * the requests are run in order. `checks` are the results of
   * `check_config` on the Pi-Puck and drone bundles.
   */
  function StartOutcome(pipucks: nat, drones: nat, checks: (Result<(), Software.SoftwareError>, Result<(), Software.SoftwareError>),
                        net: Arena.Request -> Arena.Reply): (r: (seq<Arena.Request>, Result<(), Arena.StartError>))
    ensures (r.1.Err? && r.1.error.InvalidSoftware?) <==> ((pipucks > 0 && checks.0.Err?) || (drones > 0 && checks.1.Err?))
    ensures (r.1.Err? && r.1.error.InvalidSoftware?) ==> (r.0 == [] &&
      (if pipucks > 0 && checks.0.Err? then r.1.error == Arena.InvalidSoftware(Arena.PiPuck, checks.0.error)
       else r.1.error == Arena.InvalidSoftware(Arena.Drone, checks.1.error)))
    ensures !(r.1.Err? && r.1.error.InvalidSoftware?) ==> r == Arena.Run(StartRequests(pipucks, drones), net)
  {
    if pipucks > 0 && checks.0.Err? then ([], Err(Arena.InvalidSoftware(Arena.PiPuck, checks.0.error)))
    else if drones > 0 && checks.1.Err? then ([], Err(Arena.InvalidSoftware(Arena.Drone, checks.1.error)))
    else
      var r := Arena.Run(StartRequests(pipucks, drones), net);
      Arena.RunStops(StartRequests(pipucks, drones), net);
      r
  }

  /** The start requests written out, ordered by phase: the journal first, every Pi-Puck before any drone. */
  lemma StartOrder(pipucks: nat, drones: nat)
    ensures var reqs := StartRequests(pipucks, drones);
      reqs == [Arena.JournalStart] + Arena.Starts(Arena.PiPuck, pipucks) + Arena.Starts(Arena.Drone, drones) &&
      forall i, j :: 0 <= i < j < |reqs| ==> Arena.Rank(reqs[i]) <= Arena.Rank(reqs[j])
  {
    var p := StartPhases(pipucks, drones);
    Arena.FlattenStep(p, 0);
    Arena.FlattenStep(p, 1);
    Arena.FlattenStep(p, 2);
    assert p[0..] == p;
    assert Arena.Flatten(p[3..]) == [];
    var reqs := StartRequests(pipucks, drones);
    assert reqs == [Arena.JournalStart] + Arena.Starts(Arena.PiPuck, pipucks) + (Arena.Starts(Arena.Drone, drones) + []);
    forall i | 0 <= i < |reqs|
      ensures Arena.Rank(reqs[i]) == if i == 0 then 0 else if i <= pipucks then 5 else 7
    {
      if 0 < i <= pipucks {
        assert reqs[i] == Arena.StartRobot(Arena.PiPuck, i - 1);
      } else if i > pipucks {
        assert reqs[i] == Arena.StartRobot(Arena.Drone, i - 1 - pipucks);
      }
    }
  }

  /** A drone is sent its start only after every Pi-Puck has confirmed its own. */
  lemma DronesAfterPiPucks(pipucks: nat, drones: nat, checks: (Result<(), Software.SoftwareError>, Result<(), Software.SoftwareError>),
                           net: Arena.Request -> Arena.Reply, d: nat, p: nat)
    requires Arena.StartRobot(Arena.Drone, d) in StartOutcome(pipucks, drones, checks, net).0
    requires p < pipucks
    ensures net(Arena.StartRobot(Arena.PiPuck, p)) == Arena.Answered(true)
  {
    StartOrder(pipucks, drones);
    var reqs := StartRequests(pipucks, drones);
    assert reqs[1 + p] == Arena.StartRobot(Arena.PiPuck, p);
    Arena.RunOrdered(reqs, net, Arena.StartRobot(Arena.PiPuck, p), Arena.StartRobot(Arena.Drone, d));
  }

  /**
   * What `stop_experiment` sends: the journal's `Stop`, then the drones'
   * and the Pi-Pucks' stops, each kind until its first undelivered stop
   * (`try_collect`); the two flags are the "could not stop all" errors,
   * which are only logged.
   */
  function StopOutcome(pipucks: nat, drones: nat, net: Arena.Request -> Arena.Reply): (r: (seq<Arena.Request>, bool, bool))
    ensures |r.0| > 0 && r.0[0] == Arena.JournalStop
    ensures r.1 <==> exists i :: 0 <= i < drones && Arena.StopUndelivered(Arena.Drone, i, net)
    ensures r.2 <==> exists i :: 0 <= i < pipucks && Arena.StopUndelivered(Arena.PiPuck, i, net)
  {
    var d := Arena.Run(Arena.Stops(Arena.Drone, drones), net);
    var p := Arena.Run(Arena.Stops(Arena.PiPuck, pipucks), net);
    Arena.RunStops(Arena.Stops(Arena.Drone, drones), net);
    Arena.RunStops(Arena.Stops(Arena.PiPuck, pipucks), net);
    assert forall i :: 0 <= i < drones ==>
      (Arena.Completes(Arena.Stops(Arena.Drone, drones)[i], net(Arena.Stops(Arena.Drone, drones)[i])) <==> !Arena.StopUndelivered(Arena.Drone, i, net));
    assert forall i :: 0 <= i < pipucks ==>
      (Arena.Completes(Arena.Stops(Arena.PiPuck, pipucks)[i], net(Arena.Stops(Arena.PiPuck, pipucks)[i])) <==> !Arena.StopUndelivered(Arena.PiPuck, i, net));
    ([Arena.JournalStop] + d.0 + p.0, d.1.Err?, p.1.Err?)
  }

  class Backend {
    const pipucks: seq<Arena.PiPuckDescriptor>
    const drones: seq<Arena.DroneDescriptor>
    const droneSoftware: Software.Bundle
    const pipuckSoftware: Software.Bundle
    var state: State

    ghost predicate Valid()
      reads this
    {
      droneSoftware != pipuckSoftware && UniqueIds(pipucks, PiPuckId) && UniqueIds(drones, DroneId)
    }

    /** The arena task starts on standby with empty bundles and its tables keyed by identifier. */
    constructor (pipucks: seq<Arena.PiPuckDescriptor>, drones: seq<Arena.DroneDescriptor>)
      ensures Valid()
      ensures this.pipucks == Keyed(pipucks, PiPuckId) && this.drones == Keyed(drones, DroneId)
      ensures state == Standby
      ensures fresh(droneSoftware) && fresh(pipuckSoftware) && droneSoftware.files == [] && pipuckSoftware.files == []
    {
      KeyedSound(pipucks, PiPuckId);
      KeyedSound(drones, DroneId);
      this.pipucks := Keyed(pipucks, PiPuckId);
      this.drones := Keyed(drones, DroneId);
      droneSoftware := new Software.Bundle();
      pipuckSoftware := new Software.Bundle();
      state := Standby;
    }

    /** `GetActions`: start while on standby, stop while active. */
    function Actions(): (a: seq<Action>)
      reads this
      ensures |a| == 1
      ensures StartExperiment in a <==> state.Standby?
      ensures StopExperiment in a <==> state.Active?
    {
      match state
      case Standby => [StartExperiment]
      case Active => [StopExperiment]
    }

    function XbeeMacs(): (macs: seq<MacAddr>)
      ensures |macs| == |drones| && forall i :: 0 <= i < |drones| ==> macs[i] == drones[i].xbeeMac
    {
      seq(|drones|, i requires 0 <= i < |drones| => drones[i].xbeeMac)
    }

    function UpcoreMacs(): (macs: seq<MacAddr>)
      ensures |macs| == |drones| && forall i :: 0 <= i < |drones| ==> macs[i] == drones[i].upcoreMac
    {
      seq(|drones|, i requires 0 <= i < |drones| => drones[i].upcoreMac)
    }

    function RpiMacs(): (macs: seq<MacAddr>)
      ensures |macs| == |pipucks| && forall i :: 0 <= i < |pipucks| ==> macs[i] == pipucks[i].rpiMac
    {
      seq(|pipucks|, i requires 0 <= i < |pipucks| => pipucks[i].rpiMac)
    }

    /** `AddXbee`: the first drone with that XBee address gets the module; None is the warning. */
    function AddXbee(mac: MacAddr): (r: Option<nat>)
      ensures r.None? <==> forall i :: 0 <= i < |drones| ==> drones[i].xbeeMac != mac
      ensures r.Some? ==> (r.value < |drones| && drones[r.value].xbeeMac == mac &&
        forall i :: 0 <= i < r.value ==> drones[i].xbeeMac != mac)
    {
      Arena.FirstMatch(XbeeMacs(), mac)
    }

    /**
     * `AddFernbedienung`: the first drone with that UpCore address, or, when
     * there is none, the first Pi-Puck with that Raspberry Pi address.
     */
    function AddFernbedienung(mac: MacAddr): (a: Arena.Association)
      ensures !a.Ambiguous?
      ensures a.Unassociated? <==> Arena.NoMatch(UpcoreMacs(), mac) && Arena.NoMatch(RpiMacs(), mac)
      ensures a.Associated? && a.kind == Arena.Drone ==>
        (a.index < |drones| && drones[a.index].upcoreMac == mac && Arena.NoMatch(UpcoreMacs()[..a.index], mac))
      ensures a.Associated? && a.kind == Arena.PiPuck ==> (Arena.NoMatch(UpcoreMacs(), mac) &&
        a.index < |pipucks| && pipucks[a.index].rpiMac == mac && Arena.NoMatch(RpiMacs()[..a.index], mac))
      ensures a.Associated? ==> a.kind != Arena.BuilderBot
      ensures !Arena.NoMatch(UpcoreMacs(), mac) ==> a.Associated? && a.kind == Arena.Drone
    {
      match Arena.FirstMatch(UpcoreMacs(), mac)
      case Some(i) => Arena.Associated(Arena.Drone, i)
      case None =>
        match Arena.FirstMatch(RpiMacs(), mac)
        case Some(i) => Arena.Associated(Arena.PiPuck, i)
        case None => Arena.Unassociated
    }

    /** `ForwardDroneRequest`: `drones.get(&id)`; None is the "could not find" warning. */
    function ForwardDrone(id: string): (r: Option<nat>)
      reads this
      requires Valid()
      ensures r.None? <==> forall i :: 0 <= i < |drones| ==> drones[i].id != id
      ensures r.Some? ==> r.value < |drones| && drones[r.value].id == id
      ensures r.Some? ==> forall i :: 0 <= i < |drones| && drones[i].id == id ==> i == r.value
    {
      var ids := seq(|drones|, i requires 0 <= i < |drones| => drones[i].id);
      var r := Arena.FindId(ids, id);
      if r.Some? then
        assert forall i :: 0 <= i < |drones| && drones[i].id == id && i != r.value ==> DroneId(drones[i]) == DroneId(drones[r.value]);
        r
      else
        assert forall i :: 0 <= i < |drones| ==> ids[i] == drones[i].id;
        r
    }

    /** `ForwardPiPuckRequest`: `pipucks.get(&id)`. */
    function ForwardPiPuck(id: string): (r: Option<nat>)
      reads this
      requires Valid()
      ensures r.None? <==> forall i :: 0 <= i < |pipucks| ==> pipucks[i].id != id
      ensures r.Some? ==> r.value < |pipucks| && pipucks[r.value].id == id
      ensures r.Some? ==> forall i :: 0 <= i < |pipucks| && pipucks[i].id == id ==> i == r.value
    {
      var ids := seq(|pipucks|, i requires 0 <= i < |pipucks| => pipucks[i].id);
      var r := Arena.FindId(ids, id);
      if r.Some? then
        assert forall i :: 0 <= i < |pipucks| && pipucks[i].id == id && i != r.value ==> PiPuckId(pipucks[i]) == PiPuckId(pipucks[r.value]);
        r
      else
        assert forall i :: 0 <= i < |pipucks| ==> ids[i] == pipucks[i].id;
        r
    }

    /** `AddDroneSoftware`: only the drone bundle changes. */
    method AddDroneSoftware(name: string, contents: seq<byte>)
      requires Valid()
      modifies droneSoftware
      ensures droneSoftware.files == Software.Added(old(droneSoftware.files), name, contents)
      ensures pipuckSoftware.files == old(pipuckSoftware.files)
    {
      droneSoftware.Add(name, contents);
    }

    /** `ClearDroneSoftware`. */
    method ClearDroneSoftware()
      requires Valid()
      modifies droneSoftware
      ensures droneSoftware.files == [] && pipuckSoftware.files == old(pipuckSoftware.files)
    {
      droneSoftware.Clear();
    }

    /** `AddPiPuckSoftware`: only the Pi-Puck bundle changes. */
    method AddPiPuckSoftware(name: string, contents: seq<byte>)
      requires Valid()
      modifies pipuckSoftware
      ensures pipuckSoftware.files == Software.Added(old(pipuckSoftware.files), name, contents)
      ensures droneSoftware.files == old(droneSoftware.files)
    {
      pipuckSoftware.Add(name, contents);
    }

    /** `ClearPiPuckSoftware`. */
    method ClearPiPuckSoftware()
      requires Valid()
      modifies pipuckSoftware
      ensures pipuckSoftware.files == [] && droneSoftware.files == old(droneSoftware.files)
    {
      pipuckSoftware.Clear();
    }

    /**
     * `start_experiment`: the bundles of the kinds that have robots are
     * checked, then the journal, the Pi-Pucks and the drones are started,
     * each phase awaited with `?`.
     */
    method Start(scripts: seq<byte> -> Option<seq<string>>, net: Arena.Request -> Arena.Reply)
      returns (attempted: seq<Arena.Request>, r: Result<(), Arena.StartError>)
      ensures (attempted, r) == StartOutcome(|pipucks|, |drones|,
        (pipuckSoftware.CheckConfig(scripts), droneSoftware.CheckConfig(scripts)), net)
    {
      if |pipucks| > 0 {
        var check := pipuckSoftware.CheckConfig(scripts);
        if check.Err? {
          return [], Err(Arena.InvalidSoftware(Arena.PiPuck, check.error));
        }
      }
      if |drones| > 0 {
        var check := droneSoftware.CheckConfig(scripts);
        if check.Err? {
          return [], Err(Arena.InvalidSoftware(Arena.Drone, check.error));
        }
      }
      attempted, r := RunPhases(StartPhases(|pipucks|, |drones|), net);
    }

    /**
     * `Execute`: a start makes the arena active only when it succeeds, and a
     * failed start is followed by a stop; a stop always returns it to
     * standby. `sent` is every request sent, in order.
     */
    method Execute(action: Action, scripts: seq<byte> -> Option<seq<string>>, net: Arena.Request -> Arena.Reply)
      returns (sent: seq<Arena.Request>)
      modifies this
      ensures action == StopExperiment ==> state == Standby && sent == StopOutcome(|pipucks|, |drones|, net).0
      ensures action == StartExperiment ==>
        var s := StartOutcome(|pipucks|, |drones|, (pipuckSoftware.CheckConfig(scripts), droneSoftware.CheckConfig(scripts)), net);
        state == (if s.1.Ok? then Active else old(state)) &&
        sent == s.0 + (if s.1.Err? then StopOutcome(|pipucks|, |drones|, net).0 else [])
    {
      match action
      case StartExperiment =>
        var r;
        sent, r := Start(scripts, net);
        if r.Ok? {
          state := Active;
          assert sent + [] == sent;
        } else {
          sent := sent + StopOutcome(|pipucks|, |drones|, net).0;
        }
      case StopExperiment =>
        sent := StopOutcome(|pipucks|, |drones|, net).0;
        state := Standby;
    }
  }
}
