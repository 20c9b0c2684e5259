/**
 * The status lists of the browser front end: one record per drone and per
 * Pi-Puck, created on the first update for an identifier and afterwards
 * updated in place, one field per update.
 */
module Frontend {
  import opened Wrappers
  import opened Bytes
  import opened Net

  /** `DroneStatus` and `PiPuckStatus`, which have the same fields. */
  datatype Status = Status(id: string, cameras: seq<seq<byte>>, connection: Option<Ipv4>, signal: byte)

  /** `shared::drone::Update` and `shared::pipuck::Update` as the front end reads them. */
  datatype Update =
    | Cameras(data: seq<seq<byte>>)
    | FernbedienungConnection(addr: Option<Ipv4>)
    | FernbedienungSignal(level: byte)

  /** `new`: the given identifier, no cameras, no connection, signal 0. */
  function NewStatus(id: string): (s: Status)
    ensures s.id == id && s.cameras == [] && s.connection.None? && s.signal == 0
  {
    Status(id, [], None, 0)
  }

  /** `update`: the field the update names is replaced, the others are kept. */
  function Apply(s: Status, u: Update): (r: Status)
    ensures r.id == s.id
    ensures r.cameras == (if u.Cameras? then u.data else s.cameras)
    ensures r.connection == (if u.FernbedienungConnection? then u.addr else s.connection)
    ensures r.signal == (if u.FernbedienungSignal? then u.level else s.signal)
  {
    match u
    case Cameras(data) => s.(cameras := data)
    case FernbedienungConnection(addr) => s.(connection := addr)
    case FernbedienungSignal(level) => s.(signal := level)
  }

  /** Updating a field twice keeps only the second value. */
  lemma ApplyLastWins(s: Status, u: Update, v: Update)
    requires u.Cameras? == v.Cameras? && u.FernbedienungConnection? == v.FernbedienungConnection?
    ensures Apply(Apply(s, u), v) == Apply(s, v)
  {
  }

  /** `iter().position(|s| s.id == id)`: the first status with that identifier. */
  function IdPosition(list: seq<Status>, id: string): (r: Option<nat>)
    ensures r.None? <==> forall i :: 0 <= i < |list| ==> list[i].id != id
    ensures r.Some? ==> (r.value < |list| && list[r.value].id == id &&
      forall i :: 0 <= i < r.value ==> list[i].id != id)
  {
    if list == [] then None
    else if list[0].id == id then Some(0)
    else match IdPosition(list[1..], id)
      case None => None
      case Some(i) =>
        assert forall k :: 1 <= k <= i ==> list[k] == list[1..][k - 1];
        Some(i + 1)
  }

  /** The list after an update for `id`: the record with that id updated, or a new one appended. */
  function Upserted(list: seq<Status>, id: string, u: Update): (r: seq<Status>)
    ensures |list| <= |r| <= |list| + 1
    ensures forall k :: 0 <= k < |list| && list[k].id != id ==> r[k] == list[k]
    ensures exists k :: 0 <= k < |r| && r[k].id == id
  {
    match IdPosition(list, id)
    case Some(i) =>
      var r := list[i := Apply(list[i], u)];
      assert r[i].id == id;
      r
    case None =>
      var r := list + [Apply(NewStatus(id), u)];
      assert r[|list|].id == id;
      r
  }

  predicate UniqueIds(list: seq<Status>)
  {
    forall i, j :: 0 <= i < j < |list| ==> list[i].id != list[j].id
  }

  /**
   * A known identifier: same length, and only the first record with that
   * identifier changed, in place, by the update.
   */
  lemma UpsertKnown(list: seq<Status>, id: string, u: Update, i: nat)
    requires i < |list| && list[i].id == id && forall k :: 0 <= k < i ==> list[k].id != id
    ensures var r := Upserted(list, id, u);
      |r| == |list| && r[i] == Apply(list[i], u) &&
      forall k :: 0 <= k < |list| && k != i ==> r[k] == list[k]
  {
    var p := IdPosition(list, id);
    assert p == Some(i);
  }

  /** An unknown identifier: one record appended, built from a fresh status, and nothing else changed. */
  lemma UpsertUnknown(list: seq<Status>, id: string, u: Update)
    requires forall i :: 0 <= i < |list| ==> list[i].id != id
    ensures var r := Upserted(list, id, u);
      |r| == |list| + 1 && r[..|list|] == list && r[|list|] == Apply(NewStatus(id), u)
  {
    var r := Upserted(list, id, u);
    assert r == list + [Apply(NewStatus(id), u)];
    assert r[..|list|] == list;
  }

  /** Identifiers stay unique, and the updated identifier is present afterwards. */
  lemma UpsertKeepsUnique(list: seq<Status>, id: string, u: Update)
    requires UniqueIds(list)
    ensures UniqueIds(Upserted(list, id, u))
    ensures IdPosition(Upserted(list, id, u), id).Some?
  {
    var r := Upserted(list, id, u);
    match IdPosition(list, id)
    case Some(i) =>
      assert forall k :: 0 <= k < |r| ==> r[k].id == list[k].id;
      assert r[i].id == id;
    case None =>
      assert forall k :: 0 <= k < |list| ==> r[k] == list[k];
      assert r[|list|].id == id;
  }

  /** The two lists the front end keeps, updated in place by the connection handler. */
  class Lists {
    var drones: seq<Status>
    var pipucks: seq<Status>

    constructor ()
      ensures drones == [] && pipucks == []
    {
      drones := [];
      pipucks := [];
    }

    /** `DownMsg::UpdateDrone`: `set_cloned` at the position of the id, or `push_cloned`. */
    method UpdateDrone(id: string, u: Update)
      modifies this
      ensures drones == Upserted(old(drones), id, u) && pipucks == old(pipucks)
    {
      match IdPosition(drones, id)
      case Some(index) =>
        var status := Apply(drones[index], u);
        drones := drones[index := status];
      case None =>
        drones := drones + [Apply(NewStatus(id), u)];
    }

    /** `DownMsg::UpdatePiPuck`, the same on the Pi-Puck list. */
    method UpdatePiPuck(id: string, u: Update)
      modifies this
      ensures pipucks == Upserted(old(pipucks), id, u) && drones == old(drones)
    {
      match IdPosition(pipucks, id)
      case Some(index) =>
        var status := Apply(pipucks[index], u);
        pipucks := pipucks[index := status];
      case None =>
        pipucks := pipucks + [Apply(NewStatus(id), u)];
    }
  }
}
