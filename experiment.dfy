/**
 * The experiment of the earlier supervisor: stopped or started, with one
 * software bundle per robot kind. Starting installs the kind's bundle on
 * every robot and starts ARGoS there with the bundle's configuration file;
 * any failure on the way panics (`unwrap`).
 */
module Experiment {
  import opened Wrappers
  import opened Bytes
  import Software

  datatype Action = Start | Stop

  datatype State = Started | Stopped

  datatype Kind = PiPuck | Drone

  /** The configuration file of each kind's bundle: `argos_config()` of the Pi-Puck and of the drone software. */
  type Configs = (Result<Software.Entry, Software.SoftwareError>, Result<Software.Entry, Software.SoftwareError>)

  function ConfigOf(configs: Configs, kind: Kind): Result<Software.Entry, Software.SoftwareError>
  {
    match kind
    case PiPuck => configs.0
    case Drone => configs.1
  }

  /**
   * Robot `i` gets through its start: the installation succeeds, its
   * bundle has a configuration file and ARGoS starts.
   */
  predicate Ready(robots: seq<Kind>, i: nat, configs: Configs, installOk: nat -> bool, startOk: nat -> bool)
    requires i < |robots|
  {
    installOk(i) && ConfigOf(configs, robots[i]).Ok? && startOk(i)
  }

  /**
   * The robots from `from` on, in order: each started robot is listed with
   * the configuration file it was started with, and the flag says whether
   * a robot panicked, which ends the start.
   */
  function Launched(robots: seq<Kind>, from: nat, configs: Configs, installOk: nat -> bool, startOk: nat -> bool)
    : (r: (seq<(nat, string)>, bool))
    requires from <= |robots|
    ensures |r.0| <= |robots| - from
    decreases |robots| - from
  {
    if from == |robots| then ([], false)
    else if !Ready(robots, from, configs, installOk, startOk) then ([], true)
    else
      var rest := Launched(robots, from + 1, configs, installOk, startOk);
      ([(from, ConfigOf(configs, robots[from]).value.0)] + rest.0, rest.1)
  }

  /**
   * The start panics exactly when some robot is not ready; the robots before
   * the first that is not are started in order, each with its kind's
   * configuration file, and without a panic every robot is.
   */
  lemma {:induction false} LaunchedSound(robots: seq<Kind>, from: nat, configs: Configs, installOk: nat -> bool, startOk: nat -> bool)
    requires from <= |robots|
    ensures var r := Launched(robots, from, configs, installOk, startOk);
      (r.1 <==> exists i :: from <= i < |robots| && !Ready(robots, i, configs, installOk, startOk)) &&
      (forall k :: from <= k < from + |r.0| ==> Ready(robots, k, configs, installOk, startOk)) &&
      (forall k :: 0 <= k < |r.0| ==>
        Ready(robots, from + k, configs, installOk, startOk) &&
        r.0[k] == (from + k, ConfigOf(configs, robots[from + k]).value.0)) &&
      (r.1 ==> from + |r.0| < |robots| && !Ready(robots, from + |r.0|, configs, installOk, startOk)) &&
      (!r.1 ==> |r.0| == |robots| - from)
    decreases |robots| - from
  {
    if from < |robots| && Ready(robots, from, configs, installOk, startOk) {
      LaunchedSound(robots, from + 1, configs, installOk, startOk);
      var rest := Launched(robots, from + 1, configs, installOk, startOk);
      var r := Launched(robots, from, configs, installOk, startOk);
      assert r.0 == [(from, ConfigOf(configs, robots[from]).value.0)] + rest.0;
      assert forall k :: 1 <= k < |r.0| ==> r.0[k] == rest.0[k - 1];
    }
  }

  class Experiment {
    var state: State
    const robots: seq<Kind>
    const droneSoftware: Software.Bundle
    const pipuckSoftware: Software.Bundle

    /** `with_robots`: a new experiment is stopped, with empty bundles. */
    constructor WithRobots(robots: seq<Kind>)
      ensures state == Stopped && this.robots == robots
      ensures fresh(droneSoftware) && fresh(pipuckSoftware) && droneSoftware != pipuckSoftware
      ensures droneSoftware.files == [] && pipuckSoftware.files == []
    {
      state := Stopped;
      this.robots := robots;
      droneSoftware := new Software.Bundle();
      pipuckSoftware := new Software.Bundle();
    }

    /** `actions`: start while stopped, stop while started. */
    function Actions(): (a: seq<Action>)
      reads this
      ensures |a| == 1
      ensures Start in a <==> state == Stopped
      ensures Stop in a <==> state == Started
    {
      match state
      case Started => [Stop]
      case Stopped => [Start]
    }

    function CurrentConfigs(): Configs
      reads pipuckSoftware, droneSoftware
    {
      (pipuckSoftware.ArgosConfig(), droneSoftware.ArgosConfig())
    }

    /**
     * `execute`: an action no longer on offer is ignored; a stop makes the
     * experiment stopped; a start goes through the robots in order and makes
     * it started once all are, unless one panicked. `installOk(i)` and
     * `startOk(i)` are the outcomes of installing and starting robot `i`.
     */
    method Execute(action: Action, installOk: nat -> bool, startOk: nat -> bool)
      returns (started: seq<(nat, string)>, panicked: bool)
      modifies this
      ensures action !in old(Actions()) ==> state == old(state) && started == [] && !panicked
      ensures action in old(Actions()) && action == Stop ==> state == Stopped && started == [] && !panicked
      ensures action in old(Actions()) && action == Start ==>
        (started, panicked) == Launched(robots, 0, CurrentConfigs(), installOk, startOk) &&
        state == (if panicked then old(state) else Started)
    {
      if action !in Actions() {
        return [], false;
      }
      match action
      case Stop =>
        state := Stopped;
        return [], false;
      case Start =>
        started, panicked := Launch(CurrentConfigs(), installOk, startOk);
        if !panicked {
          state := Started;
        }
    }

    /** The start loop: robot after robot, until one is not ready. */
    method Launch(configs: Configs, installOk: nat -> bool, startOk: nat -> bool)
      returns (started: seq<(nat, string)>, panicked: bool)
      ensures (started, panicked) == Launched(robots, 0, configs, installOk, startOk)
    {
      started := [];
      var i := 0;
      assert started + Launched(robots, 0, configs, installOk, startOk).0 == Launched(robots, 0, configs, installOk, startOk).0;
      while i < |robots|
        invariant i <= |robots|
        invariant Launched(robots, 0, configs, installOk, startOk) ==
          (started + Launched(robots, i, configs, installOk, startOk).0, Launched(robots, i, configs, installOk, startOk).1)
      {
        LaunchedStep(robots, i, configs, installOk, startOk);
        if !Ready(robots, i, configs, installOk, startOk) {
          assert started + [] == started;
          return started, true;
        }
        var config := ConfigOf(configs, robots[i]).value.0;
        ghost var tail := Launched(robots, i + 1, configs, installOk, startOk);
        assert (started + [(i, config)]) + tail.0 == started + ([(i, config)] + tail.0);
        started := started + [(i, config)];
        i := i + 1;
      }
      assert started + [] == started;
      return started, false;
    }
  }

  /** One robot of the start: a robot not ready panics, a ready one is started before the rest. */
  lemma LaunchedStep(robots: seq<Kind>, i: nat, configs: Configs, installOk: nat -> bool, startOk: nat -> bool)
    requires i < |robots|
    ensures !Ready(robots, i, configs, installOk, startOk) ==> Launched(robots, i, configs, installOk, startOk) == ([], true)
    ensures Ready(robots, i, configs, installOk, startOk) ==>
      var rest := Launched(robots, i + 1, configs, installOk, startOk);
      Launched(robots, i, configs, installOk, startOk) == ([(i, ConfigOf(configs, robots[i]).value.0)] + rest.0, rest.1)
  {
  }

  /** A start in which every robot is ready starts each of them, in order, with its kind's configuration file. */
  lemma AllReadyAllStarted(robots: seq<Kind>, configs: Configs, installOk: nat -> bool, startOk: nat -> bool)
    requires forall i :: 0 <= i < |robots| ==> Ready(robots, i, configs, installOk, startOk)
    ensures var r := Launched(robots, 0, configs, installOk, startOk);
      !r.1 && |r.0| == |robots| &&
      forall i :: 0 <= i < |robots| ==> ConfigOf(configs, robots[i]).Ok? && r.0[i] == (i, ConfigOf(configs, robots[i]).value.0)
  {
    LaunchedSound(robots, 0, configs, installOk, startOk);
    var r := Launched(robots, 0, configs, installOk, startOk);
    forall i | 0 <= i < |r.0|
      ensures ConfigOf(configs, robots[i]).Ok? && r.0[i] == (i, ConfigOf(configs, robots[i]).value.0)
    {
      assert Ready(robots, i, configs, installOk, startOk);
      assert r.0[i] == (0 + i, ConfigOf(configs, robots[0 + i]).value.0);
    }
  }

  /** A bundle without exactly one configuration file makes the start panic at the first robot of that kind. */
  lemma MissingConfigPanics(robots: seq<Kind>, configs: Configs, installOk: nat -> bool, startOk: nat -> bool, i: nat)
    requires i < |robots| && ConfigOf(configs, robots[i]).Err?
    ensures var r := Launched(robots, 0, configs, installOk, startOk);
      r.1 && |r.0| <= i
  {
    LaunchedSound(robots, 0, configs, installOk, startOk);
    var r := Launched(robots, 0, configs, installOk, startOk);
    assert !Ready(robots, 0 + i, configs, installOk, startOk);
  }
}
