/** Stopping the nodes of a devnet (internal/application/devnet/run.go:320-393).
    Whether a stop, removal or kill succeeds is given from outside. */
module NodeStop {
  import opened Outcomes
  import opened Sequences

  datatype Mode = Docker | Local

  /** A stored node as it is held in memory. */
  class Node {
    const index: nat
    var pid: Option<nat>
    var containerID: string

    constructor (index: nat, pid: Option<nat>, containerID: string)
      ensures this.index == index && this.pid == pid && this.containerID == containerID
    {
      this.index := index;
      this.pid := pid;
      this.containerID := containerID;
    }
  }

  /** How the first attempt on a node and the forced one end. */
  datatype Attempt = Attempt(stops: bool, forcedStops: bool)

  datatype Warning = NoDockerExecutor(index: nat) | StopFailed(index: nat) | ForcedStopFailed(index: nat)

  datatype Fate = Stopped | Skipped | Warned(warning: Warning)

  /** What becomes of a node. */
  function FateOf(mode: Mode, hasDocker: bool, force: bool, index: nat, pid: Option<nat>, a: Attempt): Fate {
    if mode.Docker? && !hasDocker then Warned(NoDockerExecutor(index))
    else if mode.Local? && pid.None? then Skipped
    else if a.stops || (force && a.forcedStops) then Stopped
    else if force then Warned(ForcedStopFailed(index))
    else Warned(StopFailed(index))
  }

  function Count(fates: seq<Fate>, f: Fate): nat
  {
    if fates == [] then 0
    else Count(fates[..|fates| - 1], f) + (if fates[|fates| - 1] == f then 1 else 0)
  }

  function Warnings(fates: seq<Fate>): seq<Warning>
  {
    if fates == [] then []
    else
      var last := fates[|fates| - 1];
      Warnings(fates[..|fates| - 1]) + (if last.Warned? then [last.warning] else [])
  }

  /** Every node is counted once. */
  lemma {:induction false} EveryNodeCounted(fates: seq<Fate>)
    ensures Count(fates, Stopped) + Count(fates, Skipped) + |Warnings(fates)| == |fates|
  {
    if fates != [] {
      EveryNodeCounted(fates[..|fates| - 1]);
    }
  }

  lemma {:induction false} NoWarningsIff(fates: seq<Fate>)
    ensures Warnings(fates) == [] <==> forall i :: 0 <= i < |fates| ==> !fates[i].Warned?
  {
    if fates != [] {
      NoWarningsIff(fates[..|fates| - 1]);
      assert forall i :: 0 <= i < |fates| - 1 ==> fates[..|fates| - 1][i] == fates[i];
    }
  }

  ghost predicate Different(nodes: seq<Node>) {
    forall i, j :: 0 <= i < j < |nodes| ==> nodes[i] != nodes[j]
  }

  /** `StopUseCase.Execute` after loading: returns how many nodes were stopped and
      the warnings. A node loses its process and container exactly when it is
      counted as stopped, and every node is stopped, skipped or warned about. */
  method StopNodes(nodes: seq<Node>, mode: Mode, hasDocker: bool, force: bool, attempts: seq<Attempt>)
    returns (stopped: nat, warnings: seq<Warning>, ghost fates: seq<Fate>)
    requires |attempts| == |nodes| && Different(nodes)
    modifies nodes
    ensures |fates| == |nodes|
    ensures forall i :: 0 <= i < |nodes| ==>
              fates[i] == FateOf(mode, hasDocker, force, nodes[i].index, old(nodes[i].pid), attempts[i])
    ensures stopped == Count(fates, Stopped) && warnings == Warnings(fates)
    ensures stopped + Count(fates, Skipped) + |warnings| == |nodes|
    ensures forall i :: 0 <= i < |nodes| ==>
              (nodes[i].pid, nodes[i].containerID) ==
              if fates[i].Stopped? then (None, "") else old((nodes[i].pid, nodes[i].containerID))
    ensures mode.Local? ==> (warnings == [] <==> forall i :: 0 <= i < |nodes| ==> nodes[i].pid.None?)
  {
    stopped, warnings, fates := 0, [], [];
    for k := 0 to |nodes|
      invariant |fates| == k
      invariant forall i :: 0 <= i < k ==>
                  fates[i] == FateOf(mode, hasDocker, force, nodes[i].index, old(nodes[i].pid), attempts[i])
      invariant stopped == Count(fates, Stopped) && warnings == Warnings(fates)
      invariant forall i :: 0 <= i < |nodes| ==>
                  (nodes[i].pid, nodes[i].containerID) ==
                  if i < k && fates[i].Stopped? then (None, "") else old((nodes[i].pid, nodes[i].containerID))
    {
      var node := nodes[k];
      ghost var fate := FateOf(mode, hasDocker, force, node.index, node.pid, attempts[k]);
      NextFate(fates, fate);
      fates := fates + [fate];
      if mode.Docker? {
        if !hasDocker {
          warnings := warnings + [NoDockerExecutor(node.index)];
          continue;
        }
      } else if node.pid.None? {
        continue;
      }
      if !attempts[k].stops {
        if force {
          if !attempts[k].forcedStops {
            warnings := warnings + [ForcedStopFailed(node.index)];
            continue;
          }
        } else {
          warnings := warnings + [StopFailed(node.index)];
          continue;
        }
      }
      node.pid := None;
      node.containerID := "";
      stopped := stopped + 1;
    }
    EveryNodeCounted(fates);
    NoWarningsIff(fates);
  }

  lemma NextFate(fates: seq<Fate>, f: Fate)
    ensures Count(fates + [f], Stopped) == Count(fates, Stopped) + (if f.Stopped? then 1 else 0)
    ensures Warnings(fates + [f]) == Warnings(fates) + (if f.Warned? then [f.warning] else [])
  {
    assert (fates + [f])[..|fates|] == fates;
  }

  /** Which nodes count as stopped, which are skipped, and what is said of the
      others. */
  lemma FateMeaning(mode: Mode, hasDocker: bool, force: bool, index: nat, pid: Option<nat>, a: Attempt)
    ensures var fate := FateOf(mode, hasDocker, force, index, pid, a);
            && (fate == Stopped <==> (if mode == Docker then hasDocker else pid.Some?)
                                     && (a.stops || (force && a.forcedStops)))
            && (fate == Skipped <==> mode == Local && pid == None)
            && (fate == Warned(NoDockerExecutor(index)) <==> mode == Docker && !hasDocker)
            && (fate.Warned? && !fate.warning.NoDockerExecutor? ==>
                  !a.stops && fate.warning == if force then ForcedStopFailed(index) else StopFailed(index))
  {
  }

  lemma OneWarning(f: Fate)
    ensures Warnings([f]) == if f.Warned? then [f.warning] else []
  {
    assert [f][..0] == [];
    assert Warnings([]) == [];
  }

  /** The warnings of more nodes come after those of the nodes before. */
  lemma {:induction false} WarningsInOrder(fates: seq<Fate>, more: seq<Fate>)
    ensures Warnings(fates + more) == Warnings(fates) + Warnings(more)
  {
    if more == [] {
      assert fates + more == fates;
    } else {
      var front, last := more[..|more| - 1], more[|more| - 1];
      WarningsInOrder(fates, front);
      assert (fates + more)[..|fates + more| - 1] == fates + front;
      Regroup(Warnings(fates), Warnings(front), if last.Warned? then [last.warning] else []);
    }
  }
}
