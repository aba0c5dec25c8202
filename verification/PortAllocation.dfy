/** The ports of the nodes of one machine (types/ports.go,
    internal/application/devnet/provision.go:293-306,
    internal/application/devnet/docker_deploy.go:284-294). */
module PortAllocation {
  datatype PortConfig = PortConfig(rpc: int, p2p: int, proxy: int, grpc: int, grpcWeb: int,
                                   api: int, evmRpc: int, evmWs: int, pprof: int, rosetta: int)

  const DEFAULTS := PortConfig(26657, 26656, 26658, 9090, 9091, 1317, 8545, 8546, 6060, 8080)
  const STRIDE: int := 100

  function WithOffset(p: PortConfig, offset: int): PortConfig {
    PortConfig(p.rpc + offset, p.p2p + offset, p.proxy + offset, p.grpc + offset, p.grpcWeb + offset,
               p.api + offset, p.evmRpc + offset, p.evmWs + offset, p.pprof + offset, p.rosetta + offset)
  }

  function AllPorts(p: PortConfig): (ports: seq<int>)
    ensures |ports| == 10
  {
    [p.rpc, p.p2p, p.proxy, p.grpc, p.grpcWeb, p.api, p.evmRpc, p.evmWs, p.pprof, p.rosetta]
  }

  /** `PortConfigForNode`: every node gets the defaults. */
  function PortConfigForNode(index: nat): PortConfig {
    DEFAULTS
  }

  /** `calculateNodePorts`, which leaves the proxy port unset. */
  function NodePorts(base: PortConfig, index: nat): PortConfig {
    WithOffset(base, index * STRIDE).(proxy := 0)
  }

  /** The ports a provisioned node is assigned. */
  function Assigned(p: PortConfig): (ports: seq<int>)
    ensures |ports| == 9
  {
    [p.rpc, p.p2p, p.grpc, p.grpcWeb, p.api, p.evmRpc, p.evmWs, p.pprof, p.rosetta]
  }

  lemma AssignedShifts(base: PortConfig, index: nat, service: nat)
    requires service < 9
    ensures Assigned(NodePorts(base, index))[service] == Assigned(base)[service] + index * STRIDE
  {
  }

  // --------------------------------------------------------------- distinctness

  /** Two services on two nodes share a port. */
  predicate Clash(bases: seq<int>, i: nat, s: nat, j: nat, t: nat)
    requires s < |bases| && t < |bases|
  {
    (i != j || s != t) && bases[s] + i * STRIDE == bases[t] + j * STRIDE
  }

  /** No two of the first `n` nodes' ports are equal, nor two on one node. */
  predicate AllDistinct(bases: seq<int>, n: nat) {
    forall i: nat, j: nat, s: nat, t: nat | i < n && j < n && s < |bases| && t < |bases| ::
      !Clash(bases, i, s, j, t)
  }

  /** The bases of two services are far enough apart for `n` nodes, or never meet
      because they differ modulo the stride. */
  predicate Apart(a: int, b: int, n: nat) {
    a % STRIDE != b % STRIDE || a - b >= n * STRIDE || b - a >= n * STRIDE
  }

  predicate PairwiseApart(bases: seq<int>, n: nat) {
    forall s: nat, t: nat | s < t < |bases| :: Apart(bases[s], bases[t], n)
  }

  /** Equal residues differ by whole strides. */
  lemma WholeStrides(a: int, b: int)
    requires a % STRIDE == b % STRIDE
    ensures a - b == (a / STRIDE - b / STRIDE) * STRIDE
  {
  }

  lemma ApartNeverClash(bases: seq<int>, n: nat, i: nat, s: nat, j: nat, t: nat)
    requires PairwiseApart(bases, n) && i < n && j < n && s < |bases| && t < |bases|
    ensures !Clash(bases, i, s, j, t)
  {
    if s < t {
      assert Apart(bases[s], bases[t], n);
    } else if t < s {
      assert Apart(bases[t], bases[s], n);
    }
  }

  lemma CloseClash(bases: seq<int>, n: nat, s: nat, t: nat)
    requires s < t < |bases| && !Apart(bases[s], bases[t], n)
    ensures !AllDistinct(bases, n)
  {
    var a, b := bases[s], bases[t];
    WholeStrides(a, b);
    var d := a / STRIDE - b / STRIDE;
    if d >= 0 {
      assert Clash(bases, 0, s, d, t);
    } else {
      assert Clash(bases, -d, s, 0, t);
    }
  }

  /** Exactly when the ports of `n` nodes are all different: any two bases differ
      modulo 100, or lie `n` strides apart. */
  lemma DistinctIff(bases: seq<int>, n: nat)
    ensures AllDistinct(bases, n) <==> PairwiseApart(bases, n)
  {
    hide Clash, Apart;
    if PairwiseApart(bases, n) {
      forall i: nat, j: nat, s: nat, t: nat | i < n && j < n && s < |bases| && t < |bases|
        ensures !Clash(bases, i, s, j, t)
      {
        ApartNeverClash(bases, n, i, s, j, t);
      }
    } else {
      var s: nat, t: nat :| s < t < |bases| && !Apart(bases[s], bases[t], n);
      CloseClash(bases, n, s, t);
    }
  }

  ghost predicate DistinctForEveryCount(bases: seq<int>) {
    forall n: nat :: AllDistinct(bases, n)
  }

  /** Exactly when no number of nodes makes two ports equal: the bases differ
      pairwise modulo 100. */
  lemma DistinctForEveryCountIff(bases: seq<int>)
    ensures DistinctForEveryCount(bases) <==>
            forall s: nat, t: nat | s < t < |bases| :: bases[s] % STRIDE != bases[t] % STRIDE
  {
    hide AllDistinct;
    if forall s: nat, t: nat | s < t < |bases| :: bases[s] % STRIDE != bases[t] % STRIDE {
      forall n: nat
        ensures AllDistinct(bases, n)
      {
        DistinctIff(bases, n);
      }
    } else {
      var s: nat, t: nat :| s < t < |bases| && bases[s] % STRIDE == bases[t] % STRIDE;
      var gap := bases[s] - bases[t];
      var n: nat := if gap >= 0 then gap + 1 else 1 - gap;
      assert !Apart(bases[s], bases[t], n);
      DistinctIff(bases, n);
      assert !PairwiseApart(bases, n);
    }
  }

  /** With the default base ports two assigned ports are equal only for the same
      service of the same node. */
  lemma DefaultsDistinct(i: nat, s: nat, j: nat, t: nat)
    requires s < 9 && t < 9
    ensures Assigned(NodePorts(DEFAULTS, i))[s] == Assigned(NodePorts(DEFAULTS, j))[t] <==> i == j && s == t
  {
    var bases := Assigned(DEFAULTS);
    var n := if i < j then j + 1 else i + 1;
    AssignedShifts(DEFAULTS, i, s);
    AssignedShifts(DEFAULTS, j, t);
    DefaultsApart(n);
    ApartNeverClash(bases, n, i, s, j, t);
  }

  lemma DefaultsApart(n: nat)
    ensures PairwiseApart(Assigned(DEFAULTS), n)
  {
    var bases := Assigned(DEFAULTS);
    assert bases == [26657, 26656, 9090, 9091, 1317, 8545, 8546, 6060, 8080];
  }

  /** They are valid port numbers exactly for indices up to 388. */
  lemma DefaultsInRangeIff(index: nat)
    ensures (forall s :: 0 <= s < 9 ==> 0 < Assigned(NodePorts(DEFAULTS, index))[s] <= 65535) <==> index <= 388
  {
    forall s: nat | s < 9
      ensures Assigned(NodePorts(DEFAULTS, index))[s] == Assigned(DEFAULTS)[s] + index * STRIDE
    {
      AssignedShifts(DEFAULTS, index, s);
    }
    assert Assigned(DEFAULTS)[0] == 26657;
  }

  /** The ports that are checked before a local deployment contain all those a
      node is assigned. */
  predicate CheckCovers(base: PortConfig, index: nat) {
    forall s :: 0 <= s < 9 ==> Assigned(NodePorts(base, index))[s] in AllPorts(PortConfigForNode(index))
  }

  /** With the default base ports they are those of the first node only. */
  lemma CheckCoversNodeIff(index: nat)
    ensures CheckCovers(DEFAULTS, index) <==> index == 0
  {
    AssignedShifts(DEFAULTS, index, 0);
    assert AllPorts(DEFAULTS) == [26657, 26656, 26658, 9090, 9091, 1317, 8545, 8546, 6060, 8080];
    assert Assigned(DEFAULTS)[0] == 26657;
  }

  /** Whatever base ports a network module declares, the check covers at most one
      of its nodes. */
  lemma CheckCoversOneNode(base: PortConfig, i: nat, j: nat)
    requires CheckCovers(base, i) && CheckCovers(base, j)
    ensures i == j
  {
    hide Assigned, NodePorts, AllPorts, CheckCovers;
    RpcIsCovered(base, i);
    RpcIsCovered(base, j);
    assert (base.rpc + i * 100) % 100 == base.rpc % 100 == (base.rpc + j * 100) % 100;
    DefaultsDifferModulo(base.rpc + i * 100, base.rpc + j * 100);
  }

  lemma RpcIsCovered(base: PortConfig, index: nat)
    requires CheckCovers(base, index)
    ensures base.rpc + index * 100 in AllPorts(DEFAULTS)
  {
    assert Assigned(NodePorts(base, index))[0] == base.rpc + index * 100;
  }

  /** The last two digits of the default ports. */
  lemma DefaultResidues(k: nat)
    requires k < 10
    ensures AllPorts(DEFAULTS)[k] % STRIDE == [57, 56, 58, 90, 91, 17, 45, 46, 60, 80][k]
  {
  }

  lemma ResiduesDiffer(i: nat, j: nat)
    requires i < 10 && j < 10
    requires [57, 56, 58, 90, 91, 17, 45, 46, 60, 80][i] == [57, 56, 58, 90, 91, 17, 45, 46, 60, 80][j]
    ensures i == j
  {
  }

  lemma DefaultsDifferModulo(p: int, q: int)
    requires p in AllPorts(DEFAULTS) && q in AllPorts(DEFAULTS) && p % STRIDE == q % STRIDE
    ensures p == q
  {
    hide AllPorts;
    var i :| 0 <= i < 10 && AllPorts(DEFAULTS)[i] == p;
    var j :| 0 <= j < 10 && AllPorts(DEFAULTS)[j] == q;
    DefaultResidues(i);
    DefaultResidues(j);
    ResiduesDiffer(i, j);
  }

  // --------------------------------------------------------------------- Docker

  datatype ContainerPorts = ContainerPorts(rpc: int, p2p: int, grpc: int, evmRpc: int, evmWs: int, pprof: int)

  /** `GetDefaultNodePorts`. */
  function DockerNodePorts(base: int, index: nat): ContainerPorts {
    var first := base + index * STRIDE;
    ContainerPorts(first, first + 1, first + 2, first + 3, first + 4, first + 5)
  }

  function DockerPorts(base: int, index: nat): (ports: seq<int>)
    ensures |ports| == 6
  {
    var p := DockerNodePorts(base, index);
    [p.rpc, p.p2p, p.grpc, p.evmRpc, p.evmWs, p.pprof]
  }

  /** Each container starts a hundred ports after the one before, with RPC first
      and pprof last. */
  lemma DockerPortsInOrder(base: int, index: nat)
    ensures DockerNodePorts(base, 0).rpc == base
    ensures DockerNodePorts(base, index + 1).rpc == DockerNodePorts(base, index).rpc + 100
    ensures var p := DockerNodePorts(base, index);
            && p.p2p == p.rpc + 1 && p.grpc == p.p2p + 1 && p.evmRpc == p.grpc + 1
            && p.evmWs == p.evmRpc + 1 && p.pprof == p.evmWs + 1
  {
  }

  /** The ports of `n` containers all differ and fill no more than
      [base, base + 100 n). */
  lemma DockerPortsDisjoint(base: int, n: nat, i: nat, s: nat, j: nat, t: nat)
    requires i < n && j < n && s < 6 && t < 6
    ensures DockerPorts(base, i)[s] == DockerPorts(base, j)[t] <==> i == j && s == t
    ensures base <= DockerPorts(base, i)[s] < base + n * 100
  {
    assert DockerPorts(base, i)[s] == base + i * STRIDE + s;
    assert DockerPorts(base, j)[t] == base + j * STRIDE + t;
  }

  /** Each node's ports lie a hundred above those of the node before, service by
      service, starting from the base ports; the proxy port is never set. */
  lemma NodePortsMeaning(base: PortConfig, index: nat)
    ensures NodePorts(base, 0) == base.(proxy := 0)
    ensures var p, q := NodePorts(base, index), NodePorts(base, index + 1);
            && q.rpc == p.rpc + 100 && q.p2p == p.p2p + 100 && q.grpc == p.grpc + 100 && q.grpcWeb == p.grpcWeb + 100
            && q.api == p.api + 100 && q.evmRpc == p.evmRpc + 100 && q.evmWs == p.evmWs + 100
            && q.pprof == p.pprof + 100 && q.rosetta == p.rosetta + 100 && q.proxy == 0
  {
  }

  /** Offsets add up and can be undone, on all ten ports. */
  lemma OffsetsAddUp(p: PortConfig, a: int, b: int)
    ensures WithOffset(WithOffset(p, a), b) == WithOffset(p, a + b)
    ensures WithOffset(p, 0) == p
    ensures forall k :: 0 <= k < 10 ==> AllPorts(WithOffset(p, a))[k] == AllPorts(p)[k] + a
  {
  }

  /** The default ports, by name. */
  lemma DefaultPortNumbers()
    ensures DEFAULTS.rpc == 26657 && DEFAULTS.p2p == 26656 && DEFAULTS.proxy == 26658 && DEFAULTS.grpc == 9090
    ensures DEFAULTS.grpcWeb == 9091 && DEFAULTS.api == 1317 && DEFAULTS.evmRpc == 8545 && DEFAULTS.evmWs == 8546
    ensures DEFAULTS.pprof == 6060 && DEFAULTS.rosetta == 8080
  {
  }
}
