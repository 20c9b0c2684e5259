/**
 * The browser client's top-level state: the tab on show and one drone
 * instance per identifier announced by the server. Messages from the
 * server add drones (once per identifier) and update known ones; a message
 * that cannot be received or decoded changes nothing.
 */
module ClientUi {
  import opened Wrappers
  import Arena
  import ClientDrone

  datatype Tab = Drones | PiPucks | Experiment

  /** `shared::DownMessage` as the client handles it. */
  datatype DownMessage =
    | AddDrone(descriptor: Arena.DroneDescriptor)
    | UpdateDrone(id: string, update: ClientDrone.Update)
    | UpdateExperiment
    | Other

  class UserInterface {
    var activeTab: Tab
    var drones: map<string, ClientDrone.Instance>

    /** Each drone sits under its own identifier, and no two identifiers share an instance. */
    ghost predicate Valid()
      reads this
    {
      (forall id :: id in drones ==> drones[id].descriptor.id == id) &&
      (forall a, b :: a in drones && b in drones && a != b ==> drones[a] != drones[b])
    }

    /** `create`: the experiment tab, no drones. */
    constructor ()
      ensures Valid() && activeTab == Experiment && drones == map[]
    {
      activeTab := Experiment;
      drones := map[];
    }

    /** `SetActiveTab`. */
    method SetActiveTab(tab: Tab) returns (render: bool)
      modifies this
      ensures activeTab == tab && drones == old(drones) && render
    {
      activeTab := tab;
      render := true;
    }

    /**
     * `AddDrone`: a new identifier gets a new instance; for a known one the
     * existing instance, and all it has learnt, is kept.
     */
    method Add(descriptor: Arena.DroneDescriptor)
      requires Valid()
      modifies this
      ensures Valid() && activeTab == old(activeTab)
      ensures descriptor.id in old(drones) ==> drones == old(drones)
      ensures descriptor.id !in old(drones) ==> (drones.Keys == old(drones).Keys + {descriptor.id} &&
        (forall id :: id in old(drones) ==> drones[id] == old(drones)[id]) &&
        fresh(drones[descriptor.id]) && drones[descriptor.id].descriptor == descriptor &&
        drones[descriptor.id].Snapshot() == ClientDrone.NEW_DRONE)
    {
      if descriptor.id !in drones {
        var instance := new ClientDrone.Instance(descriptor);
        drones := drones[descriptor.id := instance];
      }
    }

    /** `UpdateDrone`: a known drone takes the update; for an unknown identifier nothing changes. */
    method Update(id: string, update: ClientDrone.Update)
      requires Valid()
      modifies if id in drones then {drones[id]} else {}
      ensures Valid() && drones == old(drones) && activeTab == old(activeTab)
      ensures id in drones ==> drones[id].Snapshot() == ClientDrone.Next(old(drones[id].Snapshot()), update)
    {
      if id in drones {
        drones[id].Update(update);
      }
    }

    /**
     * `WebSocketRxData`: `message` is the decoded message, or the error of
     * receiving or decoding it, which is only logged and asks for no
     * redrawing.
     */
    method Receive(message: Result<DownMessage, string>) returns (render: bool)
      requires Valid()
      modifies this, drones.Values
      ensures Valid() && activeTab == old(activeTab)
      ensures render <==> message.Ok?
      ensures message.Err? ==> drones == old(drones)
      ensures !(message.Ok? && message.value.UpdateDrone?) ==> unchanged(old(drones).Values)
      ensures message.Ok? && !message.value.AddDrone? ==> drones == old(drones)
      ensures message.Ok? && message.value.AddDrone? ==> (var descriptor := message.value.descriptor;
        (descriptor.id in old(drones) ==> drones == old(drones)) &&
        (descriptor.id !in old(drones) ==>
          drones.Keys == old(drones).Keys + {descriptor.id} &&
          (forall id :: id in old(drones) ==> drones[id] == old(drones)[id]) &&
          fresh(drones[descriptor.id]) && drones[descriptor.id].descriptor == descriptor &&
          drones[descriptor.id].Snapshot() == ClientDrone.NEW_DRONE))
      ensures message.Ok? && message.value.UpdateDrone? && message.value.id in drones ==>
        drones[message.value.id].Snapshot() ==
          ClientDrone.Next(old(drones[message.value.id].Snapshot()), message.value.update)
      ensures message.Ok? && message.value.UpdateDrone? ==>
        forall id :: id in drones && id != message.value.id ==> drones[id].Snapshot() == old(drones[id].Snapshot())
    {
      match message {
        case Err(_) =>
          return false;
        case Ok(decoded) =>
          match decoded {
            case AddDrone(descriptor) =>
              Add(descriptor);
            case UpdateDrone(id, update) =>
              Update(id, update);
            case UpdateExperiment =>
            case Other =>
          }
          return true;
      }
    }
  }
}
