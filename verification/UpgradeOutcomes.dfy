/** What the runs of an upgrade leave behind and report: the plan and the failure
    in the state file, and the fields of the output. */
module UpgradeOutcomes {
  import opened Outcomes
  import opened UpgradeStates
  import opened UpgradeWorld
  import opened UpgradeWorkflow
  import opened UpgradeSafety
  import opened UpgradeRuns
  import opened UpgradeReports
  import opened ChainObservers
  import NodeSwitches
  import UpgradeArguments

  // --------------------------------------------------------------- why a run fails

  predicate VotesShort(answer: Option<Answer>, cast: int, total: int) {
    match answer
    case Some(VoteAnswer(Ok(v))) => v.votesCast == cast && v.totalVoters == total && cast != total
    case _ => false
  }

  /** What was polled, if the call was answered. */
  function Polled(answer: Option<Answer>): Option<seq<Poll>> {
    match answer
    case Some(PollAnswer(polls)) => Some(polls)
    case _ => None
  }

  predicate NeverReached(polls: Option<seq<Poll>>, height: int) {
    polls.Some? && forall k: nat | k < |polls.value| :: !HeightObservedAt(polls.value, height, k)
  }

  predicate NeverHalted(polls: Option<seq<Poll>>, height: int) {
    polls.Some? && forall k: nat | k < |polls.value| :: !HaltObservedAt(polls.value, height, k)
  }

  predicate NeverResumed(polls: Option<seq<Poll>>) {
    polls.Some? && forall k: nat | k < |polls.value| :: !ResumeObservedAt(polls.value, k)
  }

  /** The last call gave the reason for the failure. */
  predicate Explained(calls: seq<Event>, f: Failure)
  {
    && calls != []
    && var last := calls[|calls| - 1];
       match f
       case External(message) =>
         || (last.call.Propose? && last.answer == Some(ProposeAnswer(Err(message))))
         || (last.call.Vote? && last.answer == Some(VoteAnswer(Err(message))))
         || (last.call.Switch? && last.answer == Some(SwitchAnswer(Err(message))))
       case PreExportFailed(message) => last.call.Export? && last.answer == Some(ExportAnswer(Err(message)))
       case NotAllVotesCast(cast, total) => last.call.Vote? && VotesShort(last.answer, cast, total)
       case HeightNotReached => last.call.WaitHeight? && NeverReached(Polled(last.answer), last.call.height)
       case HaltNotDetected => last.call.WaitHalt? && NeverHalted(Polled(last.answer), last.call.height)
       case ResumeNotDetected => last.call.Verify? && NeverResumed(Polled(last.answer))
       case _ => false
  }

  /** The plan is the one that `s` started with. */
  predicate SamePlan(skip: bool, d: State, s: State) {
    d.plan == s.plan && (skip ==> d.upgradeHeight == s.upgradeHeight)
  }

  /** The state on disk has the plan of `s` and no failure. */
  ghost predicate Working(skip: bool, m: Machine, s: State) {
    && m.disk.Some? && SamePlan(skip, m.disk.value, s)
    && !m.disk.value.stage.Failed? && m.disk.value.error.None?
  }

  /** The state on disk, if there is one, has the plan of `s`, and a failure exactly
      if its stage says so, with its reason. */
  ghost predicate Resting(skip: bool, m: Machine, s: State) {
    m.disk.Some? ==>
      && SamePlan(skip, m.disk.value, s)
      && if m.disk.value.stage.Failed?
         then m.disk.value.error.Some? && Explained(m.calls, m.disk.value.error.value)
         else m.disk.value.error.None?
  }

  /** An output with an error is the failure it returns with, and explained. */
  ghost predicate ReportsFailure(p: Progress) {
    p.Done? && p.ret.output.Some? && p.ret.err.Some? ==>
      && p.ret.output.value.error == p.ret.err && !p.ret.output.value.success
      && Explained(p.m.calls, p.ret.err.value)
  }

  /** What a stage that was entered with the state `s0` leaves. */
  ghost predicate Leaves(skip: bool, p: Progress, s0: State) {
    && Resting(skip, p.m, s0)
    && ReportsFailure(p)
    && (p.Onward? ==> Working(skip, p.m, s0) && p.m.disk == Some(p.s) && !p.out.success)
  }

  lemma AbortLeaves(env: Env, skip: bool, m: Machine, s: State, out: Output, failure: Failure, s0: State)
    requires Working(skip, m, s0) && SamePlan(skip, s, s0) && s.error.None? && !out.success
    requires Explained(m.calls, failure)
    ensures Leaves(skip, Abort(env, m, s, out, failure), s0)
  {
    hide Explained;
  }

  lemma AdvanceLeaves(env: Env, skip: bool, m: Machine, s: State, out: Output, target: Stage, s0: State)
    requires Working(skip, m, s0) && SamePlan(skip, s, s0) && s.error.None? && !out.success && !target.Failed?
    ensures Leaves(skip, Advance(env, m, s, out, target), s0)
  {
    hide Explained;
  }

  lemma PerformLeaves(env: Env, skip: bool, m: Machine, call: Call, answer: Answer, s0: State)
    requires Working(skip, m, s0)
    ensures var m1 := Perform(env, m, call, answer).m;
            && Working(skip, m1, s0) && Resting(skip, m1, s0) && m1.disk == m.disk
            && (Perform(env, m, call, answer).Lived? ==> m1.calls == m.calls + [Event(call, Some(answer))])
  {
    hide Explained;
  }

  lemma SaveLeaves(env: Env, skip: bool, m: Machine, t: State, s0: State)
    requires Working(skip, m, s0) && SamePlan(skip, t, s0) && !t.stage.Failed? && t.error.None?
    ensures var m1 := Save(env, m, t).m;
            Working(skip, m1, s0) && Resting(skip, m1, s0) && m1.calls == m.calls
  {
    hide Explained;
  }

  /** A stage that can be entered: nothing has failed yet. */
  predicate Enters(m: Machine, s: State, out: Output) {
    m.disk == Some(s) && !s.stage.Failed? && s.error.None? && !out.success
  }

  lemma ProposeLeaves(env: Env, input: Input, m: Machine, s: State, out: Output)
    requires Enters(m, s, out) && !input.skipGovernance
    ensures Leaves(false, ProposeStage(env, input, m, s, out), s)
  {
    hide Abort, Advance, Perform;
    var arg := ProposeInputOf(input);
    var r := env.world.propose(m.calls, arg);
    PerformLeaves(env, false, m, Propose(arg), ProposeAnswer(r), s);
    var m1 := Perform(env, m, Propose(arg), ProposeAnswer(r)).m;
    if Perform(env, m, Propose(arg), ProposeAnswer(r)).Lived? {
      match r
      case Err(e) => AbortLeaves(env, false, m1, s, out, External(e), s);
      case Ok(p) =>
        var t := s.(proposalID := p.id, upgradeHeight := p.height);
        AdvanceLeaves(env, false, m1, t, WithProposal(out, t), ProposalSubmitted, s);
    }
  }

  lemma VoteLeaves(env: Env, input: Input, m: Machine, s: State, out: Output)
    requires Enters(m, s, out)
    ensures Leaves(input.skipGovernance, VoteStage(env, input, m, s, out), s)
  {
    hide Abort, Advance, Perform, Save, NodeSwitches.RecordVotes;
    var skip := input.skipGovernance;
    var arg := VoteInputOf(input, s.proposalID);
    var r := env.world.vote(m.calls, arg);
    var out1 := WithProposal(out, s);
    PerformLeaves(env, skip, m, Vote(arg), VoteAnswer(r), s);
    var m1 := Perform(env, m, Vote(arg), VoteAnswer(r)).m;
    if Perform(env, m, Vote(arg), VoteAnswer(r)).Lived? {
      match r
      case Err(e) => AbortLeaves(env, skip, m1, s, out1, External(e), s);
      case Ok(v) =>
        var t := s.(votes := NodeSwitches.RecordVotes(s.votes, v.txHashes));
        SaveLeaves(env, skip, m1, t, s);
        var m2 := Save(env, m1, t).m;
        if v.votesCast != v.totalVoters {
          AbortLeaves(env, skip, m2, t, out1, NotAllVotesCast(v.votesCast, v.totalVoters), s);
        } else {
          AdvanceLeaves(env, skip, m2, t, out1, WaitingForHeight, s);
        }
    }
  }

  lemma SwitchLeaves(env: Env, input: Input, m: Machine, s: State, out: Output)
    requires Enters(m, s, out)
    ensures Leaves(input.skipGovernance, SwitchStage(env, input, m, s, out), s)
  {
    hide Abort, Advance, Perform, Save, NodeSwitches.UpsertAll;
    var skip := input.skipGovernance;
    var arg := SwitchInputOf(input, s.upgradeHeight);
    var r := env.world.switch(m.calls, arg);
    var out1 := if input.skipGovernance then out else WithProposal(out, s);
    PerformLeaves(env, skip, m, Switch(arg), SwitchAnswer(r), s);
    var m1 := Perform(env, m, Switch(arg), SwitchAnswer(r)).m;
    if Perform(env, m, Switch(arg), SwitchAnswer(r)).Lived? {
      match r
      case Err(e) => AbortLeaves(env, skip, m1, s, out1, External(e), s);
      case Ok(w) =>
        var t := s.(switches := NodeSwitches.UpsertAll(s.switches, w.nodesRestarted, w.oldBinary, w.newBinary));
        SaveLeaves(env, skip, m1, t, s);
        AdvanceLeaves(env, skip, Save(env, m1, t).m, t, out1.(newBinary := w.newBinary), VerifyingResume, s);
    }
  }

  lemma WaitHeightLeaves(env: Env, input: Input, m: Machine, s: State, out: Output)
    requires Enters(m, s, out)
    ensures Leaves(input.skipGovernance, WaitHeightStage(env, input, m, s, out), s)
  {
    hide Abort, Advance, Perform, WaitForUpgradeHeight;
    var skip, out1 := input.skipGovernance, WithProposal(out, s);
    var call := WaitHeight(s.upgradeHeight);
    var polls := env.world.polls(m.calls, call);
    PerformLeaves(env, skip, m, call, PollAnswer(polls), s);
    var m1 := Perform(env, m, call, PollAnswer(polls)).m;
    WaitForUpgradeHeightMeaning(polls, s.upgradeHeight);
    if Perform(env, m, call, PollAnswer(polls)).Lived? {
      if !WaitForUpgradeHeight(polls, s.upgradeHeight).Reached? {
        AbortLeaves(env, skip, m1, s, out1, HeightNotReached, s);
      } else {
        AdvanceLeaves(env, skip, m1, s, out1, ChainHalted, s);
      }
    }
  }

  /** Without a halt verdict no poll shows a halt. */
  lemma NoHaltObserved(polls: seq<Poll>, target: int, k: nat)
    requires !WaitForChainHalt(polls, target).Halted?
    ensures !HaltObservedAt(polls, target, k)
  {
    if forall j: nat | j < k :: !HaltObservedAt(polls, target, j) {
      WaitForChainHaltMeaning(polls, target, k);
    } else {
      var j: nat :| j < k && HaltObservedAt(polls, target, j);
      NoHaltObserved(polls, target, j);
    }
  }

  lemma NoResumeObserved(polls: seq<Poll>, k: nat)
    requires !VerifyChainResumed(polls).Resumed?
    ensures !ResumeObservedAt(polls, k)
  {
    if forall j: nat | j < k :: !ResumeObservedAt(polls, j) {
      if ResumeObservedAt(polls, k) {
        VerifyChainResumedMeaning(polls, polls[k].rpc.h, k);
      }
    } else {
      var j: nat :| j < k && ResumeObservedAt(polls, j);
      NoResumeObserved(polls, j);
    }
  }

  lemma WaitHaltLeaves(env: Env, input: Input, m: Machine, s: State, out: Output)
    requires Enters(m, s, out)
    ensures Leaves(input.skipGovernance, WaitHaltStage(env, input, m, s, out), s)
  {
    hide Abort, Advance, Perform, WaitForChainHalt, HaltObservedAt;
    var skip, out1 := input.skipGovernance, WithProposal(out, s);
    var call := WaitHalt(s.upgradeHeight);
    var polls := env.world.polls(m.calls, call);
    PerformLeaves(env, skip, m, call, PollAnswer(polls), s);
    var m1 := Perform(env, m, call, PollAnswer(polls)).m;
    if Perform(env, m, call, PollAnswer(polls)).Lived? {
      if !WaitForChainHalt(polls, s.upgradeHeight).Halted? {
        forall k: nat
          ensures !HaltObservedAt(polls, s.upgradeHeight, k)
        {
          NoHaltObserved(polls, s.upgradeHeight, k);
        }
        AbortLeaves(env, skip, m1, s, out1, HaltNotDetected, s);
      } else {
        AdvanceLeaves(env, skip, m1, s, out1, SwitchingBinary, s);
      }
    }
  }

  lemma ExportLeaves(env: Env, input: Input, m: Machine, out: Output, s0: State)
    requires Working(input.skipGovernance, m, s0) && !out.success
    ensures var o := PostExport(env, input, m, out);
            && Working(input.skipGovernance, o.m, s0) && Resting(input.skipGovernance, o.m, s0)
            && (o.Lived? ==> !o.value.success)
  {
    hide Perform, Explained;
    if !input.skipGovernance && input.withExport {
      var arg := ExportInputOf(input);
      PerformLeaves(env, input.skipGovernance, m, Export(arg), ExportAnswer(env.world.exportState(m.calls, arg)), s0);
    }
  }

  lemma VerifyLeaves(env: Env, input: Input, m: Machine, s: State, out: Output)
    requires Enters(m, s, out)
    ensures Leaves(input.skipGovernance, VerifyStage(env, input, m, s, out), s)
  {
    hide Abort, Advance, Perform, PostExport, VerifyChainResumed, ResumeObservedAt;
    var skip := input.skipGovernance;
    var out1 := if skip then out else WithProposal(out, s);
    var call := Verify(input.homeDir);
    var polls := env.world.polls(m.calls, call);
    PerformLeaves(env, skip, m, call, PollAnswer(polls), s);
    var m1 := Perform(env, m, call, PollAnswer(polls)).m;
    if Perform(env, m, call, PollAnswer(polls)).Lived? {
      match VerifyChainResumed(polls)
      case Resumed(h, _) =>
        var out2 := out1.(postUpgradeHeight := h);
        ExportLeaves(env, input, m1, out2, s);
        match PostExport(env, input, m1, out2) {
          case Died(_) =>
          case Lived(m2, out3) => AdvanceLeaves(env, skip, m2, s, out3, Completed, s);
        }
      case _ =>
        forall k: nat
          ensures !ResumeObservedAt(polls, k)
        {
          NoResumeObserved(polls, k);
        }
        AbortLeaves(env, skip, m1, s, out1, ResumeNotDetected, s);
    }
  }

  lemma FinishLeaves(env: Env, input: Input, m: Machine, s: State, out: Output)
    requires Enters(m, s, out)
    ensures Leaves(input.skipGovernance, FinishStage(env, input, m, s, out), s)
  {
    hide Perform, Explained;
    var answer := SetVersionAnswer(env.world.setVersion(m.calls, input.targetVersion));
    PerformLeaves(env, input.skipGovernance, m, SetVersion(input.homeDir, input.targetVersion), answer, s);
  }

  lemma StageLeaves(env: Env, input: Input, m: Machine, s: State, out: Output)
    requires Enters(m, s, out)
    ensures Leaves(input.skipGovernance, RunStage(env, input, m, s, out), s)
  {
    hide Explained, ProposeStage, VoteStage, WaitHeightStage, WaitHaltStage, SwitchStage, VerifyStage, FinishStage,
         Advance;
    match s.stage
    case Initialized =>
      if input.skipGovernance {
        AdvanceLeaves(env, true, m, s, out, SwitchingBinary, s);
      } else {
        ProposeLeaves(env, input, m, s, out);
      }
    case ProposalSubmitted => AdvanceLeaves(env, input.skipGovernance, m, s, out, Voting, s);
    case Voting => VoteLeaves(env, input, m, s, out);
    case WaitingForHeight => WaitHeightLeaves(env, input, m, s, out);
    case ChainHalted => WaitHaltLeaves(env, input, m, s, out);
    case SwitchingBinary => SwitchLeaves(env, input, m, s, out);
    case VerifyingResume => VerifyLeaves(env, input, m, s, out);
    case Completed => FinishLeaves(env, input, m, s, out);
    case _ =>
  }

  lemma {:induction false} RunLeaves(env: Env, input: Input, m: Machine, s: State, out: Output)
    requires Enters(m, s, out)
    ensures Resting(input.skipGovernance, RunFrom(env, input, m, s, out).m, s)
    ensures ReportsFailure(RunFrom(env, input, m, s, out))
    decreases 7 - s.stage.Rank()
  {
    hide Explained, RunStage;
    StageLeaves(env, input, m, s, out);
    match RunStage(env, input, m, s, out)
    case Onward(m1, s1, out1) => RunLeaves(env, input, m1, s1, out1);
    case _ =>
  }

  lemma LoadedLeaves(env: Env, input: Input, m: Machine, s: State)
    requires Enters(m, s, BLANK)
    ensures Resting(input.skipGovernance, RunLoaded(env, input, m, s).m, s)
    ensures ReportsFailure(RunLoaded(env, input, m, s))
  {
    hide RunFrom, Perform;
    var arg := ExportInputOf(input);
    PerformLeaves(env, input.skipGovernance, m, Export(arg), ExportAnswer(env.world.exportState(m.calls, arg)), s);
    match PreExport(env, input, m, s)
    case Onward(m1, s1, out) => RunLeaves(env, input, m1, s1, out);
    case _ =>
  }

  // ------------------------------------------------------------ over all runs

  /** The persisted plan is the input's. */
  predicate PlanOfInput(s: State, input: Input) {
    && s.plan.upgradeName == input.upgradeName && s.plan.mode == input.mode
    && s.plan.skipGovernance == input.skipGovernance && s.plan.targetBinary == input.targetBinary
    && s.plan.targetImage == input.targetImage && s.plan.targetVersion == input.targetVersion
    && (input.skipGovernance ==> s.upgradeHeight == input.upgradeHeight)
  }

  /** A persisted failure is explained by the last call; a state without one has no
      error. */
  ghost predicate Truthful(m: Machine) {
    m.disk.Some? ==>
      if m.disk.value.stage.Failed?
      then m.disk.value.error.Some? && Explained(m.calls, m.disk.value.error.value)
      else m.disk.value.error.None?
  }

  lemma ExecuteLeaves(env: Env, input: Input, m: Machine)
    requires Truthful(m) && !m.deleted
    ensures Truthful(Execute(env, input, m).m) && ReportsFailure(Execute(env, input, m))
    ensures m.disk.Some? && Execute(env, input, m).m.disk.Some? ==>
              SamePlan(input.skipGovernance, Execute(env, input, m).m.disk.value, m.disk.value)
    ensures m.disk.None? && Execute(env, input, m).m.disk.Some? ==>
              PlanOfInput(Execute(env, input, m).m.disk.value, input)
  {
    hide Explained, RunLoaded;
    match m.disk
    case Some(s) =>
      if s.stage.Failed? {
        RefusingRunIsInert(env, input, m);
      } else {
        LoadedLeaves(env, input, m, s);
      }
    case None =>
      var s := NewState(PlanOf(input), input.upgradeHeight);
      match Save(env, m, s)
      case Lived(m1, true) => LoadedLeaves(env, input, m1, s);
      case _ =>
  }

  /** After any runs a state on disk carries the plan of one of the inputs and, if
      it has failed, the reason that the last call gave. */
  lemma {:induction false} PersistedPlanAndFailure(env: Env, inputs: seq<Input>, skip: bool)
    requires forall i :: 0 <= i < |inputs| ==> inputs[i].skipGovernance == skip
    ensures var m := Sessions(env, inputs);
            && Truthful(m)
            && (m.disk.Some? ==> exists k :: 0 <= k < |inputs| && PlanOfInput(m.disk.value, inputs[k]))
  {
    hide Execute, Explained;
    if inputs != [] {
      var front, last := inputs[..|inputs| - 1], inputs[|inputs| - 1];
      PersistedPlanAndFailure(env, front, skip);
      var m := Sessions(env, front);
      if !m.deleted {
        ExecuteLeaves(env, last, m);
        var n := Execute(env, last, m).m;
        if n.disk.Some? {
          if m.disk.Some? {
            var k :| 0 <= k < |front| && PlanOfInput(m.disk.value, front[k]);
            assert PlanOfInput(n.disk.value, inputs[k]);
          } else {
            assert PlanOfInput(n.disk.value, inputs[|inputs| - 1]);
          }
        }
      }
    }
  }

  /** A run that returns an output with an error names the error in the output, and
      the last call gave it. */
  lemma FailuresAreExplained(env: Env, inputs: seq<Input>, skip: bool, later: Env, input: Input)
    requires forall i :: 0 <= i < |inputs| ==> inputs[i].skipGovernance == skip
    requires !Sessions(env, inputs).deleted
    ensures ReportsFailure(Execute(later, input, Sessions(env, inputs)))
  {
    hide Execute, Sessions;
    PersistedPlanAndFailure(env, inputs, skip);
    ExecuteLeaves(later, input, Sessions(env, inputs));
  }

  // ----------------------------------------------------- what a success reports

  /** The height at which the last verification saw the chain go on. */
  function LastResume(calls: seq<Event>): Option<int>
  {
    if calls == [] then None
    else
      match calls[|calls| - 1]
      case Event(Verify(_), Some(PollAnswer(polls))) =>
        (match VerifyChainResumed(polls)
         case Resumed(h, _) => Some(h)
         case _ => None)
      case _ => LastResume(calls[..|calls| - 1])
  }

  lemma LastResumeAppend(calls: seq<Event>, event: Event)
    ensures LastResume(calls + [event]) ==
            match event
            case Event(Verify(_), Some(PollAnswer(polls))) =>
              (match VerifyChainResumed(polls)
               case Resumed(h, _) => Some(h)
               case _ => None)
            case _ => LastResume(calls)
  {
    assert (calls + [event])[..|calls|] == calls;
  }

  /** The path in an answered export. */
  function PathIn(event: Event): string {
    match event
    case Event(Export(_), Some(ExportAnswer(Ok(ExportOutput(path))))) => path
    case _ => ""
  }

  /** The same proposal and height, path by path. */
  predicate SameReport(o: Output, out: Output) {
    && o.proposalID == out.proposalID && o.upgradeHeight == out.upgradeHeight
    && o.postUpgradeHeight == out.postUpgradeHeight
    && o.preGenesisPath == out.preGenesisPath && o.postGenesisPath == out.postGenesisPath
  }

  /** The calls after the verification of a run that succeeds. */
  function CallsToFinish(input: Input): nat {
    if input.targetVersion == "" then 0 else 1
  }

  lemma FinishReports(env: Env, input: Input, m: Machine, s: State, out: Output)
    ensures var p := FinishStage(env, input, m, s, out);
            Succeeds(p) ==>
              && p.ret.output.value.success && p.ret.output.value.error == out.error
              && SameReport(p.ret.output.value, out)
              && LastProposal(p.m.calls) == LastProposal(m.calls) && LastResume(p.m.calls) == LastResume(m.calls)
              && |p.m.calls| == |m.calls| + CallsToFinish(input) && m.calls <= p.m.calls
              && (input.targetVersion != "" ==>
                    p.m.calls[|p.m.calls| - 1].call == SetVersion(input.homeDir, input.targetVersion))
  {
    hide LastProposal, LastResume;
    var answer := SetVersionAnswer(env.world.setVersion(m.calls, input.targetVersion));
    LastProposalAppend(m.calls, Event(SetVersion(input.homeDir, input.targetVersion), Some(answer)));
    LastResumeAppend(m.calls, Event(SetVersion(input.homeDir, input.targetVersion), Some(answer)));
  }

  /** What the verification adds to the output. */
  lemma VerifyReports(env: Env, input: Input, m: Machine, s: State, out: Output)
    requires s.stage.VerifyingResume?
    ensures var p := VerifyStage(env, input, m, s, out);
            p.Onward? ==>
              && p.s.stage.Completed? && p.out.error == out.error
              && p.out.proposalID == (if input.skipGovernance then out.proposalID else s.proposalID)
              && p.out.upgradeHeight == (if input.skipGovernance then out.upgradeHeight else s.upgradeHeight)
              && p.out.preGenesisPath == out.preGenesisPath
              && LastProposal(p.m.calls) == LastProposal(m.calls)
              && LastResume(p.m.calls) == Some(p.out.postUpgradeHeight)
              && |p.m.calls| > 0
              && (!input.skipGovernance && input.withExport && out.postGenesisPath == "" ==>
                    p.out.postGenesisPath == PathIn(p.m.calls[|p.m.calls| - 1]))
              && (input.skipGovernance || !input.withExport ==> p.out.postGenesisPath == out.postGenesisPath)
  {
    hide LastProposal, LastResume, VerifyChainResumed, Advance, TransitionAndSave;
    var call := Verify(input.homeDir);
    var polls := env.world.polls(m.calls, call);
    var event := Event(call, Some(PollAnswer(polls)));
    LastProposalAppend(m.calls, event);
    LastResumeAppend(m.calls, event);
    var arg := ExportInputOf(input);
    var calls1 := m.calls + [event];
    var exported := Event(Export(arg), Some(ExportAnswer(env.world.exportState(calls1, arg))));
    LastProposalAppend(calls1, exported);
    LastResumeAppend(calls1, exported);
    match VerifyChainResumed(polls)
    case Resumed(h, _) =>
      var m1 := Perform(env, m, call, PollAnswer(polls)).m;
      var out1 := if input.skipGovernance then out else WithProposal(out, s);
      match PostExport(env, input, m1, out1.(postUpgradeHeight := h)) {
        case Died(_) =>
        case Lived(m2, out2) => AdvanceKeepsOutput(env, m2, s, out2, Completed);
      }
    case _ =>
  }

  lemma AdvanceKeepsOutput(env: Env, m: Machine, s: State, out: Output, target: Stage)
    ensures Advance(env, m, s, out, target).m.calls == m.calls
    ensures Advance(env, m, s, out, target).Onward? ==> Advance(env, m, s, out, target).out == out
  {
  }

  /** The stages before the verification leave the error, the paths and the height
      after the upgrade alone, and without governance the proposal as well. */
  lemma EarlyReports(env: Env, input: Input, m: Machine, s: State, out: Output)
    requires !s.stage.VerifyingResume? && !s.stage.Completed?
    ensures var p := RunStage(env, input, m, s, out);
            p.Onward? ==>
              && p.out.error == out.error
              && p.out.preGenesisPath == out.preGenesisPath && p.out.postGenesisPath == out.postGenesisPath
              && (input.skipGovernance ==>
                    p.out.proposalID == out.proposalID && p.out.upgradeHeight == out.upgradeHeight)
  {
    hide Perform, TransitionAndSave, ExecuteVoting, ExecuteSwitchBinary, WaitForUpgradeHeight, WaitForChainHalt;
  }

  /** What a run that succeeds has put into its output `o`, given what it started
      with. */
  ghost predicate Reported(input: Input, s: State, out: Output, before: seq<Event>, o: Output, calls: seq<Event>) {
    && o.success && o.error == out.error
    && o.preGenesisPath == out.preGenesisPath
    && (input.targetVersion != "" ==>
          |calls| > 0 && calls[|calls| - 1].call == SetVersion(input.homeDir, input.targetVersion))
    && (s.stage.Completed? ==>
          && SameReport(o, out) && LastProposal(calls) == LastProposal(before) && LastResume(calls) == LastResume(before)
          && before <= calls && |calls| == |before| + CallsToFinish(input))
    && (!s.stage.Completed? ==> LastResume(calls) == Some(o.postUpgradeHeight))
    && (!s.stage.Completed? && !input.skipGovernance ==>
          LastProposal(calls) == Some(Proposal(o.proposalID, o.upgradeHeight)))
    && (input.skipGovernance ==> o.proposalID == out.proposalID && o.upgradeHeight == out.upgradeHeight)
    && (!s.stage.Completed? && !input.skipGovernance && input.withExport && out.postGenesisPath == "" ==>
          |calls| > CallsToFinish(input) && o.postGenesisPath == PathIn(calls[|calls| - 1 - CallsToFinish(input)]))
    && (input.skipGovernance || !input.withExport ==> o.postGenesisPath == out.postGenesisPath)
  }

  lemma {:induction false} RunReportsAll(env: Env, input: Input, m: Machine, s: State, out: Output)
    requires Ready(input.skipGovernance, m, s)
    ensures var p := RunFrom(env, input, m, s, out);
            Succeeds(p) ==> Reported(input, s, out, m.calls, p.ret.output.value, p.m.calls)
    decreases 7 - s.stage.Rank()
  {
    hide LastProposal, LastResume, FinishStage, VerifyStage, AtRest;
    StageKeeps(env, input, m, s, out);
    var p := RunStage(env, input, m, s, out);
    if s.stage.Completed? {
      FinishReports(env, input, m, s, out);
    } else {
      OnlyFinishSucceeds(env, input, m, s, out);
      if p.Onward? {
        assert RunFrom(env, input, m, s, out) == RunFrom(env, input, p.m, p.s, p.out);
        RunReportsAll(env, input, p.m, p.s, p.out);
        if s.stage.VerifyingResume? {
          VerifyReports(env, input, m, s, out);
          ProposalIsLast(input.skipGovernance, m, s);
        } else {
          EarlyReports(env, input, m, s, out);
        }
      }
    }
  }

  /** In a governance run past the proposal the state has the last proposal. */
  lemma ProposalIsLast(skip: bool, m: Machine, s: State)
    requires Ready(skip, m, s) && s.stage.VerifyingResume?
    ensures !skip ==> LastProposal(m.calls) == Some(Proposal(s.proposalID, s.upgradeHeight))
  {
    hide Ordered, RepeatsExplained, StageNotLeft, Settled, Walked, MarksInRange, ArgumentsFollow;
  }

  /** The calls of a run go on from those before. */
  lemma RunExtends(env: Env, input: Input, m: Machine, s: State, out: Output)
    ensures m.calls <= RunFrom(env, input, m, s, out).m.calls
  {
    hide UpgradeArguments.FromInput, UpgradeArguments.AnswerOf;
    UpgradeArguments.RunFromGoesOn(env, input, m, s, out);
  }

  /** What the export before an upgrade puts into the output. */
  lemma PreExportReports(env: Env, input: Input, m: Machine, s: State)
    ensures !Succeeds(PreExport(env, input, m, s))
    ensures var p := PreExport(env, input, m, s);
            p.Onward? ==>
              && p.s == s && p.out == BLANK.(preGenesisPath := p.out.preGenesisPath)
              && if input.skipGovernance || !input.withExport || !s.stage.Initialized?
                 then p.m == m && p.out.preGenesisPath == ""
                 else && |p.m.calls| == |m.calls| + 1 && m.calls <= p.m.calls && p.m.disk == m.disk
                      && p.out.preGenesisPath == PathIn(p.m.calls[|m.calls|])
  {
  }

  ghost predicate ReportedFrom(input: Input, m: Machine, first: bool, stage: Stage, o: Output, calls: seq<Event>) {
    && o.success && o.error == None
    && m.calls <= calls
    && (input.targetVersion != "" ==>
          |calls| > 0 && calls[|calls| - 1].call == SetVersion(input.homeDir, input.targetVersion))
    && (stage.Completed? ==> o.proposalID == o.upgradeHeight == o.postUpgradeHeight == 0 && o.postGenesisPath == "")
    && (!stage.Completed? ==> LastResume(calls) == Some(o.postUpgradeHeight))
    && (!stage.Completed? && !input.skipGovernance ==>
          LastProposal(calls) == Some(Proposal(o.proposalID, o.upgradeHeight)))
    && (input.skipGovernance ==> o.proposalID == o.upgradeHeight == 0)
    && (if input.skipGovernance || !input.withExport then o.preGenesisPath == o.postGenesisPath == ""
        else && (first ==> |calls| > |m.calls| && o.preGenesisPath == PathIn(calls[|m.calls|]))
             && (!first ==> o.preGenesisPath == "")
             && (!stage.Completed? ==>
                   |calls| > CallsToFinish(input)
                   && o.postGenesisPath == PathIn(calls[|calls| - 1 - CallsToFinish(input)])))
  }

  lemma LoadedReportsAll(env: Env, input: Input, m: Machine, s: State)
    requires Ready(input.skipGovernance, m, s)
    ensures var p := RunLoaded(env, input, m, s);
            Succeeds(p) ==>
              ReportedFrom(input, m, s.stage.Initialized?, s.stage, p.ret.output.value, p.m.calls)
  {
    hide RunFrom, LastProposal, LastResume, Ready, PathIn;
    ExportFirstKeeps(env, input, m, s);
    PreExportReports(env, input, m, s);
    hide Perform;
    match PreExport(env, input, m, s)
    case Onward(m1, s1, out) =>
      RunReportsAll(env, input, m1, s1, out);
      RunExtends(env, input, m1, s1, out);
    case _ =>
  }

  lemma ExecuteReportsAll(env: Env, input: Input, m: Machine)
    requires AtRest(input.skipGovernance, m) && !m.deleted
    ensures var p := Execute(env, input, m);
            Succeeds(p) ==>
              ReportedFrom(input, m, StartsFresh(m), if m.disk.Some? then m.disk.value.stage else Initialized,
                           p.ret.output.value, p.m.calls)
  {
    hide RunLoaded, Kept, Successor, ReportedFrom;
    match m.disk
    case Some(s) => LoadedReportsAll(env, input, m, s);
    case None =>
      var s := NewState(PlanOf(input), input.upgradeHeight);
      FreshIsSuccessor(input.skipGovernance, m, PlanOf(input), input.upgradeHeight);
      SaveNextKeeps(env, input.skipGovernance, m, s);
      match Save(env, m, s)
      case Lived(m1, true) =>
        LoadedReportsAll(env, input, m1, s);
        ReportedSame(input, m1, m, s);
      case _ =>
  }

  lemma ReportedSame(input: Input, m1: Machine, m: Machine, s: State)
    requires m1.calls == m.calls
    ensures forall o, calls :: ReportedFrom(input, m1, true, s.stage, o, calls)
                           ==> ReportedFrom(input, m, true, s.stage, o, calls)
  {
  }

  /** Whatever runs came before, a run that succeeds reports success and no error,
      the proposal and height that were last accepted and the height at which the
      chain was seen to go on, unless it resumed at Completed, when it reports zeros;
      the path of the export before the upgrade if it made one, and of the one
      after it; and it ends by recording the target version, if there is one. */
  lemma SuccessReport(env: Env, inputs: seq<Input>, skip: bool, later: Env, input: Input)
    requires forall k :: 0 <= k < |inputs| ==> inputs[k].skipGovernance == skip
    requires input.skipGovernance == skip && !Sessions(env, inputs).deleted
    ensures var m := Sessions(env, inputs);
            var p := Execute(later, input, m);
            Succeeds(p) ==>
              var o, calls := p.ret.output.value, p.m.calls;
              && o.success && o.error == None
              && (if m.disk.Some? && m.disk.value.stage.Completed?
                  then o.proposalID == o.upgradeHeight == o.postUpgradeHeight == 0
                  else && LastResume(calls) == Some(o.postUpgradeHeight)
                       && if skip then o.proposalID == o.upgradeHeight == 0
                          else LastProposal(calls) == Some(Proposal(o.proposalID, o.upgradeHeight)))
              && (input.targetVersion != "" ==>
                    |calls| > 0 && calls[|calls| - 1].call == SetVersion(input.homeDir, input.targetVersion))
  {
    hide Execute, AtRest, LastProposal, LastResume;
    SessionsKeep(env, inputs, skip);
    var m := Sessions(env, inputs);
    hide Sessions;
    ExecuteReportsAll(later, input, m);
  }

  /** The paths in the output of a governance run that exports: the first one is
      that of the export it starts with, if it starts at Initialized, and the second
      that of the export after the verification, unless it resumed at Completed. */
  lemma ExportedPaths(env: Env, input: Input, m: Machine)
    requires AtRest(input.skipGovernance, m) && !m.deleted && Succeeds(Execute(env, input, m))
    ensures var p := Execute(env, input, m);
            var o, calls := p.ret.output.value, p.m.calls;
            if input.skipGovernance || !input.withExport then o.preGenesisPath == o.postGenesisPath == ""
            else && (StartsFresh(m) ==> |calls| > |m.calls| && o.preGenesisPath == PathIn(calls[|m.calls|]))
                 && (!StartsFresh(m) ==> o.preGenesisPath == "")
                 && (ResumesCompleted(m) ==> o.postGenesisPath == "")
                 && (!ResumesCompleted(m) ==>
                       |calls| > CallsToFinish(input)
                       && o.postGenesisPath == PathIn(calls[|calls| - 1 - CallsToFinish(input)]))
  {
    hide Execute, AtRest, LastProposal, LastResume;
    ExecuteReportsAll(env, input, m);
  }

  predicate StartsFresh(m: Machine) {
    m.disk.Some? ==> m.disk.value.stage.Initialized?
  }

  predicate ResumesCompleted(m: Machine) {
    m.disk.Some? && m.disk.value.stage.Completed?
  }

  // -------------------------------------------------- heights without governance

  lemma {:induction false} RunSwitchHeights(env: Env, input: Input, m: Machine, s: State, out: Output)
    requires input.skipGovernance && Enters(m, s, out)
    ensures UpgradeArguments.SwitchHeights(m.calls, RunFrom(env, input, m, s, out).m.calls, s.upgradeHeight)
    decreases 7 - s.stage.Rank()
  {
    hide RunStage, UpgradeArguments.FromInput, UpgradeArguments.AnswerOf, Explained;
    StageLeaves(env, input, m, s, out);
    UpgradeArguments.RunStageGoesOn(env, input, m, s, out);
    match RunStage(env, input, m, s, out)
    case Onward(m1, s1, out1) =>
      RunSwitchHeights(env, input, m1, s1, out1);
      UpgradeArguments.RunFromGoesOn(env, input, m1, s1, out1);
      UpgradeArguments.HeightsTwice(m.calls, m1.calls, RunFrom(env, input, m1, s1, out1).m.calls, s.upgradeHeight);
    case _ =>
  }

  /** Without governance every switch of a run is at the height in the state file,
      and the height that a new state file gets is the input's. */
  lemma SkipSwitchHeights(env: Env, input: Input, m: Machine)
    requires input.skipGovernance && Truthful(m) && !m.deleted
    ensures UpgradeArguments.SwitchHeights(
              m.calls, Execute(env, input, m).m.calls,
              if m.disk.Some? then m.disk.value.upgradeHeight else input.upgradeHeight)
  {
    hide RunFrom, Explained, UpgradeArguments.SwitchHeights;
    NoSwitches(m.calls, if m.disk.Some? then m.disk.value.upgradeHeight else input.upgradeHeight);
    match m.disk
    case Some(s) =>
      if s.stage.Failed? {
        RefusingRunIsInert(env, input, m);
      } else {
        RunSwitchHeights(env, input, m, s, BLANK);
      }
    case None =>
      var s := NewState(PlanOf(input), input.upgradeHeight);
      match Save(env, m, s)
      case Lived(m1, true) => RunSwitchHeights(env, input, m1, s, BLANK);
      case _ =>
  }

  lemma NoSwitches(calls: seq<Event>, height: int)
    ensures UpgradeArguments.SwitchHeights(calls, calls, height)
  {
  }
}
