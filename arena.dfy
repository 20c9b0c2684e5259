/**
 * The arena: the table of known robots (BuilderBots, drones and Pi-Pucks,
 * each described by an identifier and the MAC addresses of its network
 * interfaces), the association of newly discovered network devices with
 * those robots, and the experiment start and stop sequences.
 *
 * A robot is named by its kind and its position in the kind's table; the
 * table order stands for the iteration order of the source's hash maps.
 * The environment's answer to each request sent during a start or stop is
 * the parameter `net`.
 */
module Arena {
  import opened Wrappers
  import opened Net
  import opened Bytes
  import Software

  datatype BuilderBotDescriptor = BuilderBotDescriptor(id: string, duoveroMac: MacAddr)
  datatype DroneDescriptor = DroneDescriptor(id: string, xbeeMac: MacAddr, upcoreMac: MacAddr)
  datatype PiPuckDescriptor = PiPuckDescriptor(id: string, rpiMac: MacAddr)

  datatype Kind = BuilderBot | Drone | PiPuck

  datatype Arena = Arena(builderbots: seq<BuilderBotDescriptor>, drones: seq<DroneDescriptor>, pipucks: seq<PiPuckDescriptor>)
  {
    /** No descriptor appears twice in a table: each table is the key set of a `HashMap`. */
    predicate Distinct()
    {
      Unique(builderbots) && Unique(drones) && Unique(pipucks)
    }

    /** The number of robots of a kind. */
    function Count(kind: Kind): nat
    {
      match kind
      case BuilderBot => |builderbots|
      case Drone => |drones|
      case PiPuck => |pipucks|
    }

    /** The identifiers of the robots of a kind, in table order. */
    function Ids(kind: Kind): (ids: seq<string>)
      ensures |ids| == Count(kind)
    {
      match kind
      case BuilderBot => seq(|builderbots|, i requires 0 <= i < |builderbots| => builderbots[i].id)
      case Drone => seq(|drones|, i requires 0 <= i < |drones| => drones[i].id)
      case PiPuck => seq(|pipucks|, i requires 0 <= i < |pipucks| => pipucks[i].id)
    }

    /** The drones' XBee addresses, in table order. */
    function XbeeMacs(): (macs: seq<MacAddr>)
      ensures |macs| == |drones|
      ensures forall i :: 0 <= i < |drones| ==> macs[i] == drones[i].xbeeMac
    {
      seq(|drones|, i requires 0 <= i < |drones| => drones[i].xbeeMac)
    }

    /**
     * The addresses a Fernbedienung device can have on a robot of a kind:
     * the drone's UpCore, the Pi-Puck's Raspberry Pi, the BuilderBot's DuoVero.
     */
    function FernbedienungMacs(kind: Kind): (macs: seq<MacAddr>)
      ensures |macs| == Count(kind)
      ensures kind == Drone ==> forall i :: 0 <= i < |drones| ==> macs[i] == drones[i].upcoreMac
      ensures kind == PiPuck ==> forall i :: 0 <= i < |pipucks| ==> macs[i] == pipucks[i].rpiMac
      ensures kind == BuilderBot ==> forall i :: 0 <= i < |builderbots| ==> macs[i] == builderbots[i].duoveroMac
    {
      match kind
      case BuilderBot => seq(|builderbots|, i requires 0 <= i < |builderbots| => builderbots[i].duoveroMac)
      case Drone => seq(|drones|, i requires 0 <= i < |drones| => drones[i].upcoreMac)
      case PiPuck => seq(|pipucks|, i requires 0 <= i < |pipucks| => pipucks[i].rpiMac)
    }
  }

  /** No element appears twice. */
  predicate Unique<T(==)>(ds: seq<T>)
  {
    forall i, j :: 0 <= i < j < |ds| ==> ds[i] != ds[j]
  }

  /**
   * Collecting a list into a `HashMap` keyed by the element itself: a
   * repeated element is one key. Which copy is kept does not matter: equal
   * descriptors cannot be told apart.
   */
  function Dedup<T(==,!new)>(ds: seq<T>): (r: seq<T>)
    ensures forall x :: x in r <==> x in ds
    ensures Unique(r)
    ensures |r| <= |ds|
  {
    if ds == [] then []
    else if ds[0] in ds[1..] then Dedup(ds[1..])
    else
      var rest := Dedup(ds[1..]);
      assert forall j :: 1 <= j < |rest| + 1 ==> ([ds[0]] + rest)[j] == rest[j - 1];
      [ds[0]] + rest
  }

  /** A list without repeats is collected as it is. */
  lemma {:induction false} DedupUnique<T(!new)>(ds: seq<T>)
    requires Unique(ds)
    ensures Dedup(ds) == ds
  {
    if ds != [] {
      assert ds[0] !in ds[1..];
      DedupUnique(ds[1..]);
    }
  }

  /**
   * `arena::new`: the configuration's lists of descriptors collected into
   * the three robot tables, a descriptor listed twice being one robot.
   */
  function Collect(builderbots: seq<BuilderBotDescriptor>, drones: seq<DroneDescriptor>,
                   pipucks: seq<PiPuckDescriptor>): (a: Arena)
    ensures a.Distinct()
    ensures forall b :: b in a.builderbots <==> b in builderbots
    ensures forall d :: d in a.drones <==> d in drones
    ensures forall p :: p in a.pipucks <==> p in pipucks
  {
    Arena(Dedup(builderbots), Dedup(drones), Dedup(pipucks))
  }

  // ---------------------------------------------------------------------
  // Associating discovered devices (`associate_*`, `AddXbee`, `AddFernbedienung`).
  // ---------------------------------------------------------------------

  predicate NoMatch(macs: seq<MacAddr>, mac: MacAddr)
  {
    forall i :: 0 <= i < |macs| ==> macs[i] != mac
  }

  predicate OnlyMatch(macs: seq<MacAddr>, mac: MacAddr, i: nat)
  {
    i < |macs| && macs[i] == mac && forall j :: 0 <= j < |macs| && j != i ==> macs[j] != mac
  }

  predicate SeveralMatch(macs: seq<MacAddr>, mac: MacAddr)
  {
    exists i, j :: 0 <= i < j < |macs| && macs[i] == mac && macs[j] == mac
  }

  /** The positions holding `mac`, in increasing order (`filter_map` + `collect`). */
  function Matches(macs: seq<MacAddr>, mac: MacAddr): (r: seq<nat>)
    ensures forall k :: 0 <= k < |r| ==> r[k] < |macs| && macs[r[k]] == mac
    ensures forall i :: 0 <= i < |macs| && macs[i] == mac ==> i in r
    ensures forall k, l :: 0 <= k < l < |r| ==> r[k] < r[l]
    decreases |macs|
  {
    if macs == [] then []
    else
      var n := |macs| - 1;
      var r := Matches(macs[..n], mac);
      if macs[n] == mac then r + [n] else r
  }

  /** The first position holding `mac` (`Iterator::find` on an address). */
  function FirstMatch(macs: seq<MacAddr>, mac: MacAddr): (r: Option<nat>)
    ensures r.None? <==> NoMatch(macs, mac)
    ensures r.Some? ==> r.value < |macs| && macs[r.value] == mac && NoMatch(macs[..r.value], mac)
  {
    var m := Matches(macs, mac);
    if m == [] then
      assert forall i :: 0 <= i < |macs| && macs[i] == mac ==> i in m;
      None
    else
      assert forall j :: 0 <= j < m[0] && macs[j] == mac ==> j in m;
      Some(m[0])
  }

  /** Where a discovered device goes: to the one robot that has its address, or nowhere. */
  datatype Association = Associated(kind: Kind, index: nat) | Ambiguous(kind: Kind) | Unassociated

  /**
   * The match on the collected matches: exactly one is associated, two or
   * more is the "associated with multiple" error, none the warning.
   */
  function Associate(kind: Kind, macs: seq<MacAddr>, mac: MacAddr): (a: Association)
    ensures a.Unassociated? <==> NoMatch(macs, mac)
    ensures a.Ambiguous? <==> SeveralMatch(macs, mac)
    ensures a.Associated? ==> OnlyMatch(macs, mac, a.index)
    ensures !a.Unassociated? ==> a.kind == kind
  {
    var m := Matches(macs, mac);
    MatchCount(macs, mac);
    if |m| == 0 then Unassociated
    else if |m| == 1 then Associated(kind, m[0])
    else Ambiguous(kind)
  }

  /** No match, exactly one, or several, by the number of positions holding the address. */
  lemma MatchCount(macs: seq<MacAddr>, mac: MacAddr)
    ensures var m := Matches(macs, mac);
      (|m| == 0 <==> NoMatch(macs, mac)) && (|m| >= 2 <==> SeveralMatch(macs, mac)) &&
      (|m| == 1 ==> OnlyMatch(macs, mac, m[0]))
  {
    var m := Matches(macs, mac);
    if |m| == 0 {
      assert forall i :: 0 <= i < |macs| && macs[i] == mac ==> i in m;
    } else if |m| == 1 {
      assert forall i, j :: 0 <= i < j < |macs| && macs[i] == mac && macs[j] == mac ==> i in m && j in m;
    } else {
      assert macs[m[0]] == mac && macs[m[1]] == mac && m[0] < m[1];
    }
  }

  /** `AddXbee`: the XBee module goes to the one drone with that address. */
  function AddXbee(arena: Arena, mac: MacAddr): (a: Association)
    ensures a.Associated? ==> a.kind == Drone && OnlyMatch(arena.XbeeMacs(), mac, a.index)
    ensures a.Ambiguous? <==> SeveralMatch(arena.XbeeMacs(), mac)
    ensures a.Unassociated? <==> forall i :: 0 <= i < |arena.drones| ==> arena.drones[i].xbeeMac != mac
  {
    Associate(Drone, arena.XbeeMacs(), mac)
  }

  /**
   * `AddFernbedienung`: drones first, then Pi-Pucks, then BuilderBots; the
   * search goes on to the next kind only when no robot of this kind has the
   * address, so an ambiguous match ends it.
   */
  function AddFernbedienung(arena: Arena, mac: MacAddr): (a: Association)
    ensures !NoMatch(arena.FernbedienungMacs(Drone), mac) ==> !a.Unassociated? && a.kind == Drone
    ensures (NoMatch(arena.FernbedienungMacs(Drone), mac) && !NoMatch(arena.FernbedienungMacs(PiPuck), mac)) ==>
      (!a.Unassociated? && a.kind == PiPuck)
    ensures (NoMatch(arena.FernbedienungMacs(Drone), mac) && NoMatch(arena.FernbedienungMacs(PiPuck), mac) &&
      !NoMatch(arena.FernbedienungMacs(BuilderBot), mac)) ==> (!a.Unassociated? && a.kind == BuilderBot)
    ensures a.Unassociated? <==> (NoMatch(arena.FernbedienungMacs(Drone), mac) &&
      NoMatch(arena.FernbedienungMacs(PiPuck), mac) && NoMatch(arena.FernbedienungMacs(BuilderBot), mac))
    ensures a.Associated? ==> OnlyMatch(arena.FernbedienungMacs(a.kind), mac, a.index)
    ensures a.Ambiguous? ==> SeveralMatch(arena.FernbedienungMacs(a.kind), mac)
  {
    var drone := Associate(Drone, arena.FernbedienungMacs(Drone), mac);
    if !drone.Unassociated? then drone
    else
      var pipuck := Associate(PiPuck, arena.FernbedienungMacs(PiPuck), mac);
      if !pipuck.Unassociated? then pipuck
      else Associate(BuilderBot, arena.FernbedienungMacs(BuilderBot), mac)
  }

  /** Two drones with the same UpCore address keep the device from every robot. */
  lemma AmbiguousDroneStops(arena: Arena, mac: MacAddr, i: nat, j: nat)
    requires i < j < |arena.drones| && arena.drones[i].upcoreMac == mac && arena.drones[j].upcoreMac == mac
    ensures AddFernbedienung(arena, mac) == Ambiguous(Drone)
  {
    var macs := arena.FernbedienungMacs(Drone);
    assert macs[i] == mac && macs[j] == mac;
    assert SeveralMatch(macs, mac);
  }

  /** The first position holding `id` (`iter().find` on the identifier). */
  function FindId(ids: seq<string>, id: string): (r: Option<nat>)
    ensures r.None? <==> id !in ids
    ensures r.Some? ==> r.value < |ids| && ids[r.value] == id && id !in ids[..r.value]
  {
    if ids == [] then None
    else if ids[0] == id then Some(0)
    else match FindId(ids[1..], id)
      case None => None
      case Some(k) =>
        assert ids[..k + 1] == [ids[0]] + ids[1..][..k];
        Some(k + 1)
  }

  /**
   * `Forward*Action`: the robot of that kind whose identifier is `id` gets the
   * action; None is the "could not find" warning.
   */
  function Forward(arena: Arena, kind: Kind, id: string): (r: Option<nat>)
    ensures r.None? <==> id !in arena.Ids(kind)
    ensures r.Some? ==> r.value < arena.Count(kind) && arena.Ids(kind)[r.value] == id
  {
    FindId(arena.Ids(kind), id)
  }

  // ---------------------------------------------------------------------
  // Starting and stopping an experiment.
  // ---------------------------------------------------------------------

  /** The messages the arena sends, each to the journal or to one robot. */
  datatype Request =
    | JournalStart
    | RecordDescriptors
    | Setup(kind: Kind, index: nat)
    | StartRobot(kind: Kind, index: nat)
    | JournalStop
    | StopRobot(kind: Kind, index: nat)

  /** What became of a request: not delivered, delivered but never answered, or answered. */
  datatype Reply = Unsent | Silent | Answered(ok: bool)

  /** Requests that expect no answer: delivering them is all that can fail. */
  predicate SendOnly(req: Request)
  {
    req.RecordDescriptors? || req.JournalStop? || req.StopRobot?
  }

  predicate Completes(req: Request, reply: Reply)
  {
    if SendOnly(req) then !reply.Unsent? else reply == Answered(true)
  }

  datatype StartError =
    | InvalidSoftware(kind: Kind, error: Software.SoftwareError)
    | Undelivered(request: Request)
    | NoResponse(request: Request)
    | Refused(request: Request)

  /** The error of a request that did not complete (`map_err` and the inner `?`). */
  function Failure(req: Request, reply: Reply): (e: StartError)
    requires !Completes(req, reply)
    ensures e.Undelivered? <==> reply.Unsent?
    ensures !e.InvalidSoftware? && e.request == req
  {
    match reply
    case Unsent => Undelivered(req)
    case Silent => NoResponse(req)
    case Answered(_) => Refused(req)
  }

  /**
   * Sending requests one after the other with `?`: the requests attempted
   * (the last is the failing one, if any) and the outcome.
   */
  function Run(reqs: seq<Request>, net: Request -> Reply): (r: (seq<Request>, Result<(), StartError>))
    ensures |r.0| <= |reqs|
  {
    if reqs == [] then ([], Ok(()))
    else if !Completes(reqs[0], net(reqs[0])) then ([reqs[0]], Err(Failure(reqs[0], net(reqs[0]))))
    else
      var rest := Run(reqs[1..], net);
      ([reqs[0]] + rest.0, rest.1)
  }

  /**
   * The attempted requests are a prefix; the run succeeds exactly when every
   * request completes; a failed run ends at its first incomplete request and
   * reports that request's error.
   */
  lemma {:induction false} RunStops(reqs: seq<Request>, net: Request -> Reply)
    ensures var r := Run(reqs, net);
      r.0 == reqs[..|r.0|] &&
      (r.1.Ok? <==> forall i :: 0 <= i < |reqs| ==> Completes(reqs[i], net(reqs[i]))) &&
      (r.1.Ok? ==> r.0 == reqs) &&
      (r.1.Err? ==> (|r.0| > 0 && !Completes(reqs[|r.0| - 1], net(reqs[|r.0| - 1])) &&
        r.1.error == Failure(reqs[|r.0| - 1], net(reqs[|r.0| - 1])))) &&
      (forall i :: 0 <= i < |r.0| - 1 ==> Completes(reqs[i], net(reqs[i])))
  {
    if reqs != [] && Completes(reqs[0], net(reqs[0])) {
      var tail := reqs[1..];
      RunStops(tail, net);
      var rest := Run(tail, net);
      assert Run(reqs, net) == ([reqs[0]] + rest.0, rest.1);
      assert [reqs[0]] + rest.0 == reqs[..1 + |rest.0|];
      assert forall i :: 1 <= i < |reqs| ==> reqs[i] == tail[i - 1];
      assert (forall i :: 0 <= i < |reqs| ==> Completes(reqs[i], net(reqs[i]))) <==>
        (forall i :: 0 <= i < |tail| ==> Completes(tail[i], net(tail[i])));
    }
  }

  /** A run over two lists is the run over the first, then, if it succeeded, the run over the second. */
  lemma {:induction false} RunAppend(a: seq<Request>, b: seq<Request>, net: Request -> Reply)
    ensures Run(a + b, net) ==
      if Run(a, net).1.Err? then Run(a, net) else (a + Run(b, net).0, Run(b, net).1)
  {
    if a == [] {
      assert a + b == b;
      assert a + Run(b, net).0 == Run(b, net).0;
    } else {
      assert (a + b)[0] == a[0];
      assert (a + b)[1..] == a[1..] + b;
      if Completes(a[0], net(a[0])) {
        RunAppend(a[1..], b, net);
        if Run(a[1..], net).1.Ok? {
          assert [a[0]] + (a[1..] + Run(b, net).0) == a + Run(b, net).0;
        }
      }
    }
  }

  /** Requests of one kind to every robot of that kind, in table order. */
  function Setups(kind: Kind, n: nat): (s: seq<Request>)
    ensures |s| == n && forall i :: 0 <= i < n ==> s[i] == Setup(kind, i)
  {
    seq(n, i requires 0 <= i < n => Setup(kind, i))
  }

  function Starts(kind: Kind, n: nat): (s: seq<Request>)
    ensures |s| == n && forall i :: 0 <= i < n ==> s[i] == StartRobot(kind, i)
  {
    seq(n, i requires 0 <= i < n => StartRobot(kind, i))
  }

  /**
   * The phases of `start_experiment`, each awaited before the next: the
   * journal, the descriptor record, the set-ups of the BuilderBots, Pi-Pucks
   * and drones, then the starts of the Pi-Pucks, BuilderBots and drones.
   */
  function StartPhases(arena: Arena): (p: seq<seq<Request>>)
    ensures |p| == 8
  {
    [ [JournalStart], [RecordDescriptors],
      Setups(BuilderBot, arena.Count(BuilderBot)), Setups(PiPuck, arena.Count(PiPuck)), Setups(Drone, arena.Count(Drone)),
      Starts(PiPuck, arena.Count(PiPuck)), Starts(BuilderBot, arena.Count(BuilderBot)), Starts(Drone, arena.Count(Drone)) ]
  }

  function Flatten(phases: seq<seq<Request>>): seq<Request>
  {
    if phases == [] then [] else phases[0] + Flatten(phases[1..])
  }

  function StartRequests(arena: Arena): seq<Request>
  {
    Flatten(StartPhases(arena))
  }

  /**
   * The outcome of `start_experiment`: the software of each kind that has
   * robots is checked first (BuilderBots, drones, Pi-Pucks), then the
   * requests are run in order. `checks` are the results of `check_config`
   * on the BuilderBot, drone and Pi-Puck bundles.
   */
  function StartOutcome(arena: Arena, checks: Checks, net: Request -> Reply): (r: (seq<Request>, Result<(), StartError>))
    ensures (r.1.Err? && r.1.error.InvalidSoftware?) ==> (r.0 == [] &&
      arena.Count(r.1.error.kind) > 0 && Check(checks, r.1.error.kind) == Err(r.1.error.error))
    ensures (r.1.Err? && r.1.error.InvalidSoftware?) <==> exists k: Kind :: arena.Count(k) > 0 && Check(checks, k).Err?
    ensures !(r.1.Err? && r.1.error.InvalidSoftware?) ==> r == Run(StartRequests(arena), net)
    ensures arena.Count(BuilderBot) > 0 && checks.0.Err? ==> r == ([], Err(InvalidSoftware(BuilderBot, checks.0.error)))
    ensures (!(arena.Count(BuilderBot) > 0 && checks.0.Err?) && arena.Count(Drone) > 0 && checks.1.Err?) ==>
      r == ([], Err(InvalidSoftware(Drone, checks.1.error)))
    ensures (!(arena.Count(BuilderBot) > 0 && checks.0.Err?) && !(arena.Count(Drone) > 0 && checks.1.Err?) &&
             arena.Count(PiPuck) > 0 && checks.2.Err?) ==>
      r == ([], Err(InvalidSoftware(PiPuck, checks.2.error)))
  {
    if arena.Count(BuilderBot) > 0 && checks.0.Err? then ([], Err(InvalidSoftware(BuilderBot, checks.0.error)))
    else if arena.Count(Drone) > 0 && checks.1.Err? then ([], Err(InvalidSoftware(Drone, checks.1.error)))
    else if arena.Count(PiPuck) > 0 && checks.2.Err? then ([], Err(InvalidSoftware(PiPuck, checks.2.error)))
    else
      var r := Run(StartRequests(arena), net);
      RunStops(StartRequests(arena), net);
      if r.1.Err? then
        assert !r.1.error.InvalidSoftware?;
        r
      else r
  }

  /** The results of `check_config` on the BuilderBot, drone and Pi-Puck bundles. */
  type Checks = (Result<(), Software.SoftwareError>, Result<(), Software.SoftwareError>, Result<(), Software.SoftwareError>)

  function Check(checks: Checks, kind: Kind): Result<(), Software.SoftwareError>
  {
    match kind
    case BuilderBot => checks.0
    case Drone => checks.1
    case PiPuck => checks.2
  }

  /** The phase a request belongs to in the start sequence; stop requests come after all of them. */
  function Rank(req: Request): nat
  {
    match req
    case JournalStart => 0
    case RecordDescriptors => 1
    case Setup(kind, _) => (match kind case BuilderBot => 2 case PiPuck => 3 case Drone => 4)
    case StartRobot(kind, _) => (match kind case PiPuck => 5 case BuilderBot => 6 case Drone => 7)
    case JournalStop => 8
    case StopRobot(_, _) => 8
  }

  /** The start requests written out phase by phase. */
  lemma StartRequestsLayout(arena: Arena)
    ensures StartRequests(arena) ==
      [JournalStart] + [RecordDescriptors] +
      Setups(BuilderBot, arena.Count(BuilderBot)) + Setups(PiPuck, arena.Count(PiPuck)) + Setups(Drone, arena.Count(Drone)) +
      Starts(PiPuck, arena.Count(PiPuck)) + Starts(BuilderBot, arena.Count(BuilderBot)) + Starts(Drone, arena.Count(Drone))
  {
    FlattenEight(StartPhases(arena));
  }

  lemma FlattenEight(p: seq<seq<Request>>)
    requires |p| == 8
    ensures Flatten(p) == p[0] + p[1] + p[2] + p[3] + p[4] + p[5] + p[6] + p[7]
  {
    assert p[0..] == p;
    FlattenFour(p, 0);
    FlattenFour(p, 4);
    assert Flatten(p[8..]) == [];
    var a, b := p[0] + p[1] + p[2] + p[3], p[4] + p[5] + p[6] + p[7];
    assert Flatten(p) == a + (b + []);
  }

  lemma FlattenFour(p: seq<seq<Request>>, k: nat)
    requires k + 4 <= |p|
    ensures Flatten(p[k..]) == (p[k] + p[k + 1] + p[k + 2] + p[k + 3]) + Flatten(p[k + 4..])
  {
    FlattenStep(p, k);
    FlattenStep(p, k + 1);
    FlattenStep(p, k + 2);
    FlattenStep(p, k + 3);
  }

  lemma FlattenStep(p: seq<seq<Request>>, k: nat)
    requires k < |p|
    ensures Flatten(p[k..]) == p[k] + Flatten(p[k + 1..])
  {
    assert p[k..][1..] == p[k + 1..];
  }

  /** Phase q of the start sequence holds only requests of rank q. */
  lemma PhasesRanked(arena: Arena)
    ensures var p := StartPhases(arena);
      forall q, k :: 0 <= q < |p| && 0 <= k < |p[q]| ==> Rank(p[q][k]) == q
  {
  }

  /** Concatenated phases of increasing rank are ordered by rank. */
  lemma {:induction false} FlattenRanked(phases: seq<seq<Request>>, base: nat)
    requires forall q, k :: 0 <= q < |phases| && 0 <= k < |phases[q]| ==> Rank(phases[q][k]) == base + q
    ensures forall i :: 0 <= i < |Flatten(phases)| ==> base <= Rank(Flatten(phases)[i])
    ensures forall i, j :: 0 <= i < j < |Flatten(phases)| ==> Rank(Flatten(phases)[i]) <= Rank(Flatten(phases)[j])
  {
    if phases != [] {
      var rest := phases[1..];
      assert forall q, k :: 0 <= q < |rest| && 0 <= k < |rest[q]| ==> rest[q][k] == phases[q + 1][k];
      assert forall q, k :: 0 <= q < |rest| && 0 <= k < |rest[q]| ==> Rank(rest[q][k]) == base + 1 + q;
      FlattenRanked(rest, base + 1);
      assert forall k :: 0 <= k < |phases[0]| ==> Rank(phases[0][k]) == base;
      AppendRanked(phases[0], Flatten(rest), base);
      assert Flatten(phases) == phases[0] + Flatten(rest);
    }
  }

  /** A run of rank `base` followed by an ordered run of higher ranks is ordered. */
  lemma AppendRanked(f0: seq<Request>, g: seq<Request>, base: nat)
    requires forall k :: 0 <= k < |f0| ==> Rank(f0[k]) == base
    requires forall i :: 0 <= i < |g| ==> base + 1 <= Rank(g[i])
    requires forall i, j :: 0 <= i < j < |g| ==> Rank(g[i]) <= Rank(g[j])
    ensures var f := f0 + g;
      (forall i :: 0 <= i < |f| ==> base <= Rank(f[i])) &&
      (forall i, j :: 0 <= i < j < |f| ==> Rank(f[i]) <= Rank(f[j]))
  {
    var f := f0 + g;
    assert forall i :: |f0| <= i < |f| ==> f[i] == g[i - |f0|];
    assert forall i :: 0 <= i < |f0| ==> f[i] == f0[i];
  }

  /**
   * The start sequence is ordered by phase: the journal is started first,
   * every robot is set up before any is started, and the Pi-Pucks are
   * started before the BuilderBots and the drones.
   */
  lemma StartOrder(arena: Arena)
    ensures var reqs := StartRequests(arena);
      reqs[0] == JournalStart &&
      forall i, j :: 0 <= i < j < |reqs| ==> Rank(reqs[i]) <= Rank(reqs[j])
  {
    PhasesRanked(arena);
    FlattenRanked(StartPhases(arena), 0);
    StartRequestsLayout(arena);
  }

  lemma InSetups(kind: Kind, n: nat, x: Request)
    ensures x in Setups(kind, n) <==> x.Setup? && x.kind == kind && x.index < n
  {
    if x.Setup? && x.kind == kind && x.index < n {
      assert Setups(kind, n)[x.index] == x;
    }
  }

  lemma InStarts(kind: Kind, n: nat, x: Request)
    ensures x in Starts(kind, n) <==> x.StartRobot? && x.kind == kind && x.index < n
  {
    if x.StartRobot? && x.kind == kind && x.index < n {
      assert Starts(kind, n)[x.index] == x;
    }
  }

  /** Every robot of the table, and nothing else, is set up and started. */
  lemma StartCovers(arena: Arena, kind: Kind, i: nat)
    ensures Setup(kind, i) in StartRequests(arena) <==> i < arena.Count(kind)
    ensures StartRobot(kind, i) in StartRequests(arena) <==> i < arena.Count(kind)
  {
    StartRequestsLayout(arena);
    var x, y := Setup(kind, i), StartRobot(kind, i);
    InSetups(BuilderBot, arena.Count(BuilderBot), x);
    InSetups(PiPuck, arena.Count(PiPuck), x);
    InSetups(Drone, arena.Count(Drone), x);
    InStarts(PiPuck, arena.Count(PiPuck), y);
    InStarts(BuilderBot, arena.Count(BuilderBot), y);
    InStarts(Drone, arena.Count(Drone), y);
    InSetups(BuilderBot, arena.Count(BuilderBot), y);
    InSetups(PiPuck, arena.Count(PiPuck), y);
    InSetups(Drone, arena.Count(Drone), y);
    InStarts(PiPuck, arena.Count(PiPuck), x);
    InStarts(BuilderBot, arena.Count(BuilderBot), x);
    InStarts(Drone, arena.Count(Drone), x);
  }

  /** In a run ordered by rank, an attempted request comes after every request of lower rank completed. */
  lemma RunOrdered(reqs: seq<Request>, net: Request -> Reply, x: Request, y: Request)
    requires forall i, j :: 0 <= i < j < |reqs| ==> Rank(reqs[i]) <= Rank(reqs[j])
    requires y in Run(reqs, net).0 && x in reqs && Rank(x) < Rank(y)
    ensures Completes(x, net(x))
  {
    var attempted := Run(reqs, net).0;
    var p :| 0 <= p < |attempted| && attempted[p] == y;
    var q :| 0 <= q < |reqs| && reqs[q] == x;
    RunAttemptedAt(reqs, net, p);
    RankedBefore(reqs, q, p);
  }

  /** The p-th attempted request is the p-th request, and every request before it completed. */
  lemma RunAttemptedAt(reqs: seq<Request>, net: Request -> Reply, p: nat)
    requires p < |Run(reqs, net).0|
    ensures p < |reqs| && Run(reqs, net).0[p] == reqs[p]
    ensures forall i :: 0 <= i < p ==> Completes(reqs[i], net(reqs[i]))
  {
    RunStops(reqs, net);
  }

  /** In a list ordered by rank, a request of lower rank sits earlier. */
  lemma RankedBefore(reqs: seq<Request>, q: nat, p: nat)
    requires forall i, j :: 0 <= i < j < |reqs| ==> Rank(reqs[i]) <= Rank(reqs[j])
    requires q < |reqs| && p < |reqs| && Rank(reqs[q]) < Rank(reqs[p])
    ensures q < p
  {
  }

  /**
   * Once a request has been attempted, every request of an earlier phase has
   * completed: no robot is started unless every robot was set up, and no
   * drone is started unless every Pi-Puck was started.
   */
  lemma EarlierPhasesComplete(arena: Arena, checks: Checks, net: Request -> Reply, x: Request, y: Request)
    requires y in StartOutcome(arena, checks, net).0
    requires x in StartRequests(arena) && Rank(x) < Rank(y)
    ensures Completes(x, net(x))
  {
    StartOrder(arena);
    RunOrdered(StartRequests(arena), net, x, y);
  }

  /** Sending the requests of one phase and awaiting each answer (`try_collect`). */
  method RunPhase(reqs: seq<Request>, net: Request -> Reply) returns (attempted: seq<Request>, r: Result<(), StartError>)
    ensures (attempted, r) == Run(reqs, net)
  {
    var i := 0;
    assert reqs[..0] + Run(reqs[0..], net).0 == Run(reqs, net).0;
    while i < |reqs|
      invariant 0 <= i <= |reqs|
      invariant Run(reqs, net) == (reqs[..i] + Run(reqs[i..], net).0, Run(reqs[i..], net).1)
    {
      var reply := net(reqs[i]);
      assert reqs[i..][0] == reqs[i] && reqs[i..][1..] == reqs[i + 1..];
      if !Completes(reqs[i], reply) {
        assert reqs[..i] + [reqs[i]] == reqs[..i + 1];
        return reqs[..i + 1], Err(Failure(reqs[i], reply));
      }
      assert reqs[..i] + ([reqs[i]] + Run(reqs[i + 1..], net).0) == reqs[..i + 1] + Run(reqs[i + 1..], net).0;
      i := i + 1;
    }
    assert reqs[..i] + [] == reqs;
    return reqs, Ok(());
  }

  /**
   * One awaited phase of the start sequence: `attempted` holds the requests
   * of the phases before `k`, all completed.
   */
  method NextPhase(phases: seq<seq<Request>>, k: nat, attempted: seq<Request>, net: Request -> Reply)
    returns (attempted': seq<Request>, r: Result<(), StartError>)
    requires k < |phases| && Progress(phases, k, attempted, net)
    ensures r.Err? ==> (attempted', r) == Run(Flatten(phases), net)
    ensures r.Ok? ==> Progress(phases, k + 1, attempted', net)
  {
    assert phases[k..][0] == phases[k] && phases[k..][1..] == phases[k + 1..];
    var rest := Flatten(phases[k + 1..]);
    RunAppend(phases[k], rest, net);
    RunStops(phases[k], net);
    var sent;
    sent, r := RunPhase(phases[k], net);
    attempted' := attempted + sent;
    if r.Ok? {
      assert attempted + (sent + Run(rest, net).0) == attempted' + Run(rest, net).0;
    }
  }

  /**
   * `start_experiment`: the software of each kind that has robots is
   * checked, then the journal is started, the descriptors recorded, and the
   * robots set up and started, each phase awaited with `?`.
   */
  method StartExperiment(arena: Arena, builderbotSoftware: Software.Bundle, droneSoftware: Software.Bundle,
                         pipuckSoftware: Software.Bundle, scripts: seq<byte> -> Option<seq<string>>, net: Request -> Reply)
    returns (attempted: seq<Request>, r: Result<(), StartError>)
    ensures (attempted, r) == StartOutcome(arena,
      (builderbotSoftware.CheckConfig(scripts), droneSoftware.CheckConfig(scripts), pipuckSoftware.CheckConfig(scripts)), net)
  {
    if arena.Count(BuilderBot) > 0 {
      var check := builderbotSoftware.CheckConfig(scripts);
      if check.Err? {
        return [], Err(InvalidSoftware(BuilderBot, check.error));
      }
    }
    if arena.Count(Drone) > 0 {
      var check := droneSoftware.CheckConfig(scripts);
      if check.Err? {
        return [], Err(InvalidSoftware(Drone, check.error));
      }
    }
    if arena.Count(PiPuck) > 0 {
      var check := pipuckSoftware.CheckConfig(scripts);
      if check.Err? {
        return [], Err(InvalidSoftware(PiPuck, check.error));
      }
    }
    attempted, r := RunPhases(StartPhases(arena), net);
  }

  /** Requests before phase k have all been attempted and completed. */
  predicate Progress(phases: seq<seq<Request>>, k: nat, attempted: seq<Request>, net: Request -> Reply)
    requires k <= |phases|
  {
    Run(Flatten(phases), net) == (attempted + Run(Flatten(phases[k..]), net).0, Run(Flatten(phases[k..]), net).1)
  }

  /** The eight phases of the start sequence, each awaited with `?` before the next. */
  method RunPhases(phases: seq<seq<Request>>, net: Request -> Reply) returns (attempted: seq<Request>, r: Result<(), StartError>)
    requires |phases| == 8
    ensures (attempted, r) == Run(Flatten(phases), net)
  {
    assert phases[0..] == phases;
    assert [] + Run(Flatten(phases), net).0 == Run(Flatten(phases), net).0;
    attempted := [];
    /* the journal, then the descriptor record */
    attempted, r := NextPhase(phases, 0, attempted, net);
    if r.Err? { return; }
    attempted, r := NextPhase(phases, 1, attempted, net);
    if r.Err? { return; }
    attempted, r := SetUpPhases(phases, attempted, net);
    if r.Err? { return; }
    attempted, r := StartRobotPhases(phases, attempted, net);
  }

  /** Set up the BuilderBots, the Pi-Pucks, the drones. */
  method SetUpPhases(phases: seq<seq<Request>>, attempted: seq<Request>, net: Request -> Reply)
    returns (attempted': seq<Request>, r: Result<(), StartError>)
    requires |phases| == 8 && Progress(phases, 2, attempted, net)
    ensures r.Err? ==> (attempted', r) == Run(Flatten(phases), net)
    ensures r.Ok? ==> Progress(phases, 5, attempted', net)
  {
    attempted', r := NextPhase(phases, 2, attempted, net);
    if r.Err? { return; }
    attempted', r := NextPhase(phases, 3, attempted', net);
    if r.Err? { return; }
    attempted', r := NextPhase(phases, 4, attempted', net);
  }

  /** Start the Pi-Pucks, the BuilderBots, the drones. */
  method StartRobotPhases(phases: seq<seq<Request>>, attempted: seq<Request>, net: Request -> Reply)
    returns (attempted': seq<Request>, r: Result<(), StartError>)
    requires |phases| == 8 && Progress(phases, 5, attempted, net)
    ensures (attempted', r) == Run(Flatten(phases), net)
  {
    attempted', r := NextPhase(phases, 5, attempted, net);
    if r.Err? { return; }
    attempted', r := NextPhase(phases, 6, attempted', net);
    if r.Err? { return; }
    attempted', r := NextPhase(phases, 7, attempted', net);
    if r.Err? { return; }
    assert phases[8..] == [];
    assert attempted' + [] == attempted';
    r := Ok(());
  }

  /** `StopExperiment` to every robot of a kind, in table order. */
  function Stops(kind: Kind, n: nat): (s: seq<Request>)
    ensures |s| == n && forall i :: 0 <= i < n ==> s[i] == StopRobot(kind, i)
  {
    seq(n, i requires 0 <= i < n => StopRobot(kind, i))
  }

  /**
   * What `stop_experiment` sends: the journal's `Stop`, then a stop to every
   * BuilderBot, drone and Pi-Puck; no failure cuts the list short.
   */
  function StopRequests(arena: Arena): seq<Request>
  {
    [JournalStop] + Stops(BuilderBot, arena.Count(BuilderBot)) + Stops(Drone, arena.Count(Drone)) + Stops(PiPuck, arena.Count(PiPuck))
  }

  /** The journal is told first, and every robot of the table, and nothing else, is told to stop. */
  lemma StopReachesAll(arena: Arena, kind: Kind, i: nat)
    ensures StopRequests(arena)[0] == JournalStop
    ensures StopRobot(kind, i) in StopRequests(arena) <==> i < arena.Count(kind)
  {
    if i < arena.Count(kind) {
      assert Stops(kind, arena.Count(kind))[i] == StopRobot(kind, i);
    }
  }

  predicate StopUndelivered(kind: Kind, i: nat, net: Request -> Reply)
  {
    net(StopRobot(kind, i)).Unsent?
  }

  /** The identifiers of the robots of a kind whose stop was not delivered, in table order. */
  function Unstopped(kind: Kind, ids: seq<string>, net: Request -> Reply): (f: seq<string>)
    ensures f == [] <==> forall i :: 0 <= i < |ids| ==> !StopUndelivered(kind, i, net)
    ensures |f| <= |ids|
    decreases |ids|
  {
    if ids == [] then []
    else
      var n := |ids| - 1;
      Unstopped(kind, ids[..n], net) + (if StopUndelivered(kind, n, net) then [ids[n]] else [])
  }

  /** Every robot whose stop was not delivered is listed, and only such robots are. */
  lemma {:induction false} UnstoppedListed(kind: Kind, ids: seq<string>, net: Request -> Reply)
    ensures forall i :: 0 <= i < |ids| && StopUndelivered(kind, i, net) ==> ids[i] in Unstopped(kind, ids, net)
    ensures forall x :: x in Unstopped(kind, ids, net) ==> exists i :: 0 <= i < |ids| && ids[i] == x && StopUndelivered(kind, i, net)
    decreases |ids|
  {
    if ids != [] {
      var n := |ids| - 1;
      UnstoppedListed(kind, ids[..n], net);
      assert forall i :: 0 <= i < n ==> ids[..n][i] == ids[i];
    }
  }

  /**
   * `stop_experiment`'s outcome: success exactly when every robot's stop was
   * delivered, otherwise the identifiers of the others, BuilderBots first,
   * then drones, then Pi-Pucks. The journal's answer is ignored.
   */
  function StopOutcome(arena: Arena, net: Request -> Reply): (r: Result<(), seq<string>>)
    ensures r.Ok? <==> forall k: Kind, i :: 0 <= i < arena.Count(k) ==> !StopUndelivered(k, i, net)
    ensures r.Err? ==> r.error != []
  {
    var failed := Unstopped(BuilderBot, arena.Ids(BuilderBot), net) + Unstopped(Drone, arena.Ids(Drone), net)
      + Unstopped(PiPuck, arena.Ids(PiPuck), net);
    if failed == [] then Ok(()) else Err(failed)
  }

  /** A robot whose stop was not delivered is named in the error. */
  lemma StopNamesFailures(arena: Arena, net: Request -> Reply, kind: Kind, i: nat)
    requires i < arena.Count(kind) && StopUndelivered(kind, i, net)
    ensures StopOutcome(arena, net).Err? && arena.Ids(kind)[i] in StopOutcome(arena, net).error
  {
    UnstoppedListed(kind, arena.Ids(kind), net);
  }

  /** What the callback of a start or stop request receives. */
  datatype ArenaError =
    | StartFailed(start: StartError)
    | StartAndStopFailed(start: StartError, unstopped: seq<string>)
    | StopFailed(unstopped: seq<string>)

  /**
   * A failed start is followed by a stop: the callback gets the start error,
   * with the stop error attached when the stop failed too.
   */
  function Layered(start: Result<(), StartError>, stop: Result<(), seq<string>>): (r: Result<(), ArenaError>)
    ensures r.Ok? <==> start.Ok?
    ensures r.Err? ==> !r.error.StopFailed? && r.error.start == start.error
    ensures r.Err? ==> (r.error.StartAndStopFailed? <==> stop.Err?)
    ensures r.Err? && stop.Err? ==> r.error.unstopped == stop.error
  {
    match start
    case Ok(_) => Ok(())
    case Err(e) => if stop.Ok? then Err(StartFailed(e)) else Err(StartAndStopFailed(e, stop.error))
  }

  /** `StartExperiment`: start; after a failure, stop and report both. */
  method HandleStartExperiment(arena: Arena, builderbotSoftware: Software.Bundle, droneSoftware: Software.Bundle,
                               pipuckSoftware: Software.Bundle, scripts: seq<byte> -> Option<seq<string>>, net: Request -> Reply)
    returns (sent: seq<Request>, r: Result<(), ArenaError>)
    ensures var s := StartOutcome(arena,
      (builderbotSoftware.CheckConfig(scripts), droneSoftware.CheckConfig(scripts), pipuckSoftware.CheckConfig(scripts)), net);
      sent == s.0 + (if s.1.Err? then StopRequests(arena) else []) &&
      r == Layered(s.1, if s.1.Err? then StopOutcome(arena, net) else Ok(()))
  {
    var start;
    sent, start := StartExperiment(arena, builderbotSoftware, droneSoftware, pipuckSoftware, scripts, net);
    if start.Ok? {
      assert sent + [] == sent;
      return sent, Ok(());
    }
    sent := sent + StopRequests(arena);
    r := Layered(start, StopOutcome(arena, net));
  }

  /** `StopExperiment`: stop, and report the robots that could not be told. */
  method HandleStopExperiment(arena: Arena, net: Request -> Reply) returns (sent: seq<Request>, r: Result<(), ArenaError>)
    ensures sent == StopRequests(arena)
    ensures r.Ok? <==> StopOutcome(arena, net).Ok?
    ensures r.Err? ==> r.error == StopFailed(StopOutcome(arena, net).error)
  {
    sent := StopRequests(arena);
    var stop := StopOutcome(arena, net);
    if stop.Err? {
      return sent, Err(StopFailed(stop.error));
    }
    return sent, Ok(());
  }
}
