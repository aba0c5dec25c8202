/** Per-node and per-validator tracking inside the upgrade state
    (internal/application/upgrade/resumable_execute.go:419-448 and 474-490). */
module NodeSwitches {
  import opened UpgradeStates
  import Decimal

  function NodeName(i: nat): string {
    "node" + Decimal.PrintInt(i)
  }

  function ValidatorName(i: nat): string {
    "validator-" + Decimal.PrintInt(i)
  }

  lemma NodeNameInjective(i: nat, j: nat)
    requires NodeName(i) == NodeName(j)
    ensures i == j
  {
    assert NodeName(i)[4..] == Decimal.PrintInt(i) && NodeName(j)[4..] == Decimal.PrintInt(j);
    Decimal.PrintInjective(i, j);
  }

  /** The entry a finished switch leaves for a node. */
  function Switched(name: string, oldBinary: string, newBinary: string): NodeSwitch {
    NodeSwitch(name, true, true, true, oldBinary, newBinary)
  }

  /** Index of the first entry named `name`, or the length. */
  function Find(entries: seq<NodeSwitch>, name: string): (j: nat)
    ensures j <= |entries|
    ensures forall i :: 0 <= i < j ==> entries[i].nodeName != name
    ensures j < |entries| ==> entries[j].nodeName == name
  {
    if entries == [] || entries[0].nodeName == name then 0 else 1 + Find(entries[1..], name)
  }

  function Upsert(entries: seq<NodeSwitch>, name: string, oldBinary: string, newBinary: string): seq<NodeSwitch>
  {
    var j := Find(entries, name);
    if j < |entries| then entries[j := Switched(name, oldBinary, newBinary)]
    else entries + [Switched(name, oldBinary, newBinary)]
  }

  /** The entries after a switch that restarted `n` nodes. */
  function UpsertAll(entries: seq<NodeSwitch>, n: nat, oldBinary: string, newBinary: string): seq<NodeSwitch>
  {
    if n == 0 then entries
    else Upsert(UpsertAll(entries, n - 1, oldBinary, newBinary), NodeName(n - 1), oldBinary, newBinary)
  }

  predicate DistinctNames(entries: seq<NodeSwitch>) {
    forall i, j :: 0 <= i < j < |entries| ==> entries[i].nodeName != entries[j].nodeName
  }

  predicate IsRestarted(name: string, n: nat) {
    exists i: nat | i < n :: NodeName(i) == name
  }

  /** Everything a reader of the tracking table may rely on after a switch. */
  ghost predicate SwitchRecorded(
      before: seq<NodeSwitch>, after: seq<NodeSwitch>, n: nat, oldBinary: string, newBinary: string)
  {
    && DistinctNames(after)
    && |before| <= |after|
    && (forall j :: 0 <= j < |before| ==>
          after[j] == if IsRestarted(before[j].nodeName, n)
                      then Switched(before[j].nodeName, oldBinary, newBinary) else before[j])
    && (forall j :: |before| <= j < |after| ==>
          IsRestarted(after[j].nodeName, n) && after[j] == Switched(after[j].nodeName, oldBinary, newBinary))
    && (forall i: nat :: i < n ==> Switched(NodeName(i), oldBinary, newBinary) in after)
  }

  lemma RestartedStep(name: string, n: nat)
    ensures IsRestarted(name, n + 1) <==> IsRestarted(name, n) || name == NodeName(n)
  {
  }

  /** From distinct names, a switch that restarted `n` nodes keeps names distinct
      and the order of the entries, gives each of node0..node(n-1) one entry
      marked stopped, switched and started with the new binary, and changes no
      other entry. */
  lemma {:induction false} UpsertAllRecords(entries: seq<NodeSwitch>, n: nat, oldBinary: string, newBinary: string)
    requires DistinctNames(entries)
    ensures SwitchRecorded(entries, UpsertAll(entries, n, oldBinary, newBinary), n, oldBinary, newBinary)
  {
    if n > 0 {
      var mid := UpsertAll(entries, n - 1, oldBinary, newBinary);
      UpsertAllRecords(entries, n - 1, oldBinary, newBinary);
      UpsertStep(entries, mid, n - 1, oldBinary, newBinary);
    }
  }

  lemma UpsertStep(entries: seq<NodeSwitch>, mid: seq<NodeSwitch>, n: nat, oldBinary: string, newBinary: string)
    requires SwitchRecorded(entries, mid, n, oldBinary, newBinary)
    ensures SwitchRecorded(entries, Upsert(mid, NodeName(n), oldBinary, newBinary), n + 1, oldBinary, newBinary)
  {
    var name := NodeName(n);
    var entry := Switched(name, oldBinary, newBinary);
    var after := Upsert(mid, name, oldBinary, newBinary);
    var j := Find(mid, name);
    assert after[j] == entry;
    forall k | 0 <= k < |mid| && k != j ensures after[k] == mid[k] && mid[k].nodeName != name {
    }
    forall k | 0 <= k < |entries|
      ensures after[k] == if IsRestarted(entries[k].nodeName, n + 1)
                          then Switched(entries[k].nodeName, oldBinary, newBinary) else entries[k]
    {
      RestartedStep(entries[k].nodeName, n);
      assert mid[k].nodeName == entries[k].nodeName;
    }
    forall k | |entries| <= k < |after|
      ensures IsRestarted(after[k].nodeName, n + 1)
      ensures after[k] == Switched(after[k].nodeName, oldBinary, newBinary)
    {
      RestartedStep(after[k].nodeName, n);
    }
    forall i: nat | i < n + 1 ensures Switched(NodeName(i), oldBinary, newBinary) in after {
      if i < n {
        var k :| 0 <= k < |mid| && mid[k] == Switched(NodeName(i), oldBinary, newBinary);
        assert after[k] == mid[k];
      }
    }
  }

  /** Recording the same switch again changes nothing. */
  lemma {:induction false} UpsertAllIdempotent(
      entries: seq<NodeSwitch>, n: nat, k: nat, oldBinary: string, newBinary: string)
    requires DistinctNames(entries) && k <= n
    ensures var once := UpsertAll(entries, n, oldBinary, newBinary);
            UpsertAll(once, k, oldBinary, newBinary) == once
  {
    if k > 0 {
      var once := UpsertAll(entries, n, oldBinary, newBinary);
      UpsertAllIdempotent(entries, n, k - 1, oldBinary, newBinary);
      RestartedIsPresent(entries, n, k - 1, oldBinary, newBinary);
      hide UpsertAll, SwitchRecorded, NodeName, Upsert;
      UpsertOfPresent(once, NodeName(k - 1), oldBinary, newBinary);
      UpsertAllNext(once, k - 1, oldBinary, newBinary);
    }
  }

  lemma RestartedIsPresent(entries: seq<NodeSwitch>, n: nat, i: nat, oldBinary: string, newBinary: string)
    requires DistinctNames(entries) && i < n
    ensures DistinctNames(UpsertAll(entries, n, oldBinary, newBinary))
    ensures Switched(NodeName(i), oldBinary, newBinary) in UpsertAll(entries, n, oldBinary, newBinary)
  {
    UpsertAllRecords(entries, n, oldBinary, newBinary);
  }

  lemma UpsertAllNext(entries: seq<NodeSwitch>, k: nat, oldBinary: string, newBinary: string)
    ensures UpsertAll(entries, k + 1, oldBinary, newBinary)
         == Upsert(UpsertAll(entries, k, oldBinary, newBinary), NodeName(k), oldBinary, newBinary)
  {
  }

  /** Upserting an entry that is there already. */
  lemma UpsertOfPresent(entries: seq<NodeSwitch>, name: string, oldBinary: string, newBinary: string)
    requires DistinctNames(entries) && Switched(name, oldBinary, newBinary) in entries
    ensures Upsert(entries, name, oldBinary, newBinary) == entries
  {
    var entry := Switched(name, oldBinary, newBinary);
    var i :| 0 <= i < |entries| && entries[i] == entry;
    assert Find(entries, name) == i;
  }

  /** The loop of `executeSwitchBinary` over the slice of tracked nodes. */
  method RecordSwitch(tracked: seq<NodeSwitch>, nodesRestarted: nat, oldBinary: string, newBinary: string)
    returns (switches: seq<NodeSwitch>)
    ensures switches == UpsertAll(tracked, nodesRestarted, oldBinary, newBinary)
  {
    switches := tracked;
    for i := 0 to nodesRestarted
      invariant switches == UpsertAll(tracked, i, oldBinary, newBinary)
    {
      var nodeName := NodeName(i);
      ghost var before := switches;
      var found := false;
      var j := 0;
      while j < |switches|
        invariant 0 <= j <= |switches| && switches == before && !found
        invariant forall k :: 0 <= k < j ==> before[k].nodeName != nodeName
      {
        if switches[j].nodeName == nodeName {
          assert Find(before, nodeName) == j;
          switches := switches[j := switches[j].(switched := true, stopped := true, started := true,
                                                 oldBinary := oldBinary, newBinary := newBinary)];
          found := true;
          break;
        }
        j := j + 1;
      }
      if !found {
        switches := switches + [NodeSwitch(nodeName, true, true, true, oldBinary, newBinary)];
      }
    }
  }

  /** The votes after the transactions `txHashes` were cast, by position. */
  function RecordVotes(votes: seq<ValidatorVote>, txHashes: seq<string>): seq<ValidatorVote>
  {
    seq(if |votes| < |txHashes| then |txHashes| else |votes|,
      i requires 0 <= i && (i < |votes| || i < |txHashes|) =>
        if i >= |txHashes| then votes[i]
        else if i < |votes| then votes[i].(voted := true, txHash := txHashes[i])
        else ValidatorVote(ValidatorName(i), true, txHashes[i]))
  }

  /** The loop of `executeVoting` over the transaction hashes. */
  method RunRecordVotes(tracked: seq<ValidatorVote>, txHashes: seq<string>) returns (votes: seq<ValidatorVote>)
    ensures votes == RecordVotes(tracked, txHashes)
  {
    votes := tracked;
    for i := 0 to |txHashes|
      invariant votes == RecordVotes(tracked, txHashes[..i])
    {
      ghost var before := votes;
      if i >= |votes| {
        votes := votes + [ValidatorVote(ValidatorName(i), true, txHashes[i])];
      } else {
        votes := votes[i := votes[i].(voted := true, txHash := txHashes[i])];
      }
      var expected := RecordVotes(tracked, txHashes[..i + 1]);
      assert |votes| == |expected|;
      assert forall k :: 0 <= k < |votes| ==> votes[k] == expected[k];
    }
    assert txHashes[..|txHashes|] == txHashes;
  }

  /** After voting there is a voted entry with its transaction for every
      transaction; entries keep their address, new ones are named by position, and
      those beyond stay as they were. */
  lemma VotesRecorded(votes: seq<ValidatorVote>, txHashes: seq<string>)
    ensures var r := RecordVotes(votes, txHashes);
            && |r| >= |votes| && |r| >= |txHashes| && (|r| == |votes| || |r| == |txHashes|)
            && (forall i :: 0 <= i < |txHashes| ==> r[i].voted && r[i].txHash == txHashes[i])
            && (forall i :: 0 <= i < |votes| ==> r[i].address == votes[i].address)
            && (forall i :: |votes| <= i < |r| ==> r[i].address == "validator-" + Decimal.PrintInt(i))
            && (forall i :: |txHashes| <= i < |r| ==> r[i] == votes[i])
  {
  }

  /** The name of a node is "node" and its number. */
  lemma NodeNameMeaning(i: nat)
    ensures NodeName(i)[..4] == "node" && Decimal.ParseInt(NodeName(i)[4..]) == i
  {
    Decimal.PrintIntRoundTrip(i);
    assert NodeName(i)[4..] == Decimal.PrintInt(i);
  }

  /** The entry of a node that was switched. */
  lemma SwitchedMeaning(entries: seq<NodeSwitch>, n: nat, i: nat, oldBinary: string, newBinary: string)
    requires DistinctNames(entries) && i < n
    ensures exists j ::
              var all := UpsertAll(entries, n, oldBinary, newBinary);
              && 0 <= j < |all| && all[j].nodeName == NodeName(i)
              && all[j].switched && all[j].stopped && all[j].started
              && all[j].oldBinary == oldBinary && all[j].newBinary == newBinary
  {
    RestartedIsPresent(entries, n, i, oldBinary, newBinary);
  }
}
