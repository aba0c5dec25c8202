/** What the actual transition table and a benign environment add: no transition
    is refused, and every persisted state can be carried to the end. */
module UpgradeProgress {
  import opened Outcomes
  import opened UpgradeStates
  import opened UpgradeWorld
  import opened UpgradeWorkflow
  import opened UpgradeSafety
  import opened UpgradeRuns
  import opened ChainObservers
  import NodeSwitches

  ghost predicate UsesTable(env: Env) {
    forall from, to :: env.can(from, to) == CanTransition(from, to)
  }

  predicate NoRefusal(marks: seq<Mark>) {
    forall q :: 0 <= q < |marks| ==> !marks[q].kind.Refused?
  }

  lemma TableAllows(env: Env, skip: bool, m: Machine, s: State, target: Stage, reason: Option<Failure>)
    requires UsesTable(env) && NoRefusal(m.marks)
    requires NextStage(skip, s.stage) == Some(target) || (target.Failed? && !s.stage.IsTerminal())
    ensures NoRefusal(TransitionAndSave(env, m, s, target, reason).m.marks)
  {
    TableServesWorkflows(skip, s.stage, target);
    assert env.can(s.stage, target) == CanTransition(s.stage, target);
  }

  lemma AbortAllowed(env: Env, m: Machine, s: State, out: Output, failure: Failure)
    requires UsesTable(env) && NoRefusal(m.marks) && !s.stage.IsTerminal()
    ensures NoRefusal(Abort(env, m, s, out, failure).m.marks)
  {
    TableAllows(env, false, m, s, Failed, Some(failure));
  }

  lemma AdvanceAllowed(env: Env, skip: bool, m: Machine, s: State, out: Output, target: Stage)
    requires UsesTable(env) && NoRefusal(m.marks) && NextStage(skip, s.stage) == Some(target)
    ensures NoRefusal(Advance(env, m, s, out, target).m.marks)
  {
    TableAllows(env, skip, m, s, target, None);
  }

  lemma PerformAllowed(env: Env, m: Machine, call: Call, answer: Answer)
    requires NoRefusal(m.marks)
    ensures NoRefusal(Perform(env, m, call, answer).m.marks)
  {
  }

  lemma SaveAllowed(env: Env, m: Machine, s: State)
    requires NoRefusal(m.marks)
    ensures NoRefusal(Save(env, m, s).m.marks)
  {
  }

  lemma VotingAllowed(env: Env, input: Input, m: Machine, s: State)
    requires NoRefusal(m.marks)
    ensures var o := ExecuteVoting(env, input, m, s);
            NoRefusal(o.m.marks) && (o.Lived? ==> o.value.0.stage == s.stage)
  {
    var arg := VoteInputOf(input, s.proposalID);
    var r := env.world.vote(m.calls, arg);
    PerformAllowed(env, m, Vote(arg), VoteAnswer(r));
    if r.Ok? {
      SaveAllowed(env, Perform(env, m, Vote(arg), VoteAnswer(r)).m,
                  s.(votes := NodeSwitches.RecordVotes(s.votes, r.value.txHashes)));
    }
  }

  lemma SwitchingAllowed(env: Env, input: Input, m: Machine, s: State)
    requires NoRefusal(m.marks)
    ensures var o := ExecuteSwitchBinary(env, input, m, s);
            NoRefusal(o.m.marks) && (o.Lived? ==> o.value.0.stage == s.stage)
  {
    var arg := SwitchInputOf(input, s.upgradeHeight);
    var r := env.world.switch(m.calls, arg);
    PerformAllowed(env, m, Switch(arg), SwitchAnswer(r));
    if r.Ok? {
      SaveAllowed(env, Perform(env, m, Switch(arg), SwitchAnswer(r)).m,
                  s.(switches := NodeSwitches.UpsertAll(
                    s.switches, r.value.nodesRestarted, r.value.oldBinary, r.value.newBinary)));
    }
  }

  lemma ProposeAllowed(env: Env, input: Input, m: Machine, s: State, out: Output)
    requires UsesTable(env) && NoRefusal(m.marks) && s.stage.Initialized?
    ensures NoRefusal(ProposeStage(env, input, m, s, out).m.marks)
  {
    var arg := ProposeInputOf(input);
    var r := env.world.propose(m.calls, arg);
    PerformAllowed(env, m, Propose(arg), ProposeAnswer(r));
    var m1 := Perform(env, m, Propose(arg), ProposeAnswer(r)).m;
    match r
    case Err(e) => AbortAllowed(env, m1, s, out, External(e));
    case Ok(p) =>
      var t := s.(proposalID := p.id, upgradeHeight := p.height);
      AdvanceAllowed(env, false, m1, t, WithProposal(out, t), ProposalSubmitted);
  }

  lemma VoteAllowed(env: Env, input: Input, m: Machine, s: State, out: Output)
    requires UsesTable(env) && NoRefusal(m.marks) && s.stage.Voting?
    ensures NoRefusal(VoteStage(env, input, m, s, out).m.marks)
  {
    VotingAllowed(env, input, m, s);
    var out1 := WithProposal(out, s);
    match ExecuteVoting(env, input, m, s)
    case Died(_) =>
    case Lived(m1, (t, Err(e))) => AbortAllowed(env, m1, t, out1, External(e));
    case Lived(m1, (t, Ok(v))) =>
      AbortAllowed(env, m1, t, out1, NotAllVotesCast(v.votesCast, v.totalVoters));
      AdvanceAllowed(env, false, m1, t, out1, WaitingForHeight);
  }

  lemma SwitchAllowed(env: Env, input: Input, m: Machine, s: State, out: Output)
    requires UsesTable(env) && NoRefusal(m.marks) && s.stage.SwitchingBinary?
    ensures NoRefusal(SwitchStage(env, input, m, s, out).m.marks)
  {
    SwitchingAllowed(env, input, m, s);
    var out1 := if input.skipGovernance then out else WithProposal(out, s);
    match ExecuteSwitchBinary(env, input, m, s)
    case Died(_) =>
    case Lived(m1, (t, Err(e))) => AbortAllowed(env, m1, t, out1, External(e));
    case Lived(m1, (t, Ok(w))) => AdvanceAllowed(env, false, m1, t, out1.(newBinary := w.newBinary), VerifyingResume);
  }

  lemma WaitsAllowed(env: Env, input: Input, m: Machine, s: State, out: Output)
    requires UsesTable(env) && NoRefusal(m.marks)
    ensures s.stage.WaitingForHeight? ==> NoRefusal(WaitHeightStage(env, input, m, s, out).m.marks)
    ensures s.stage.ChainHalted? ==> NoRefusal(WaitHaltStage(env, input, m, s, out).m.marks)
  {
    var out1 := WithProposal(out, s);
    if s.stage.WaitingForHeight? {
      var call := WaitHeight(s.upgradeHeight);
      var answer := PollAnswer(env.world.polls(m.calls, call));
      PerformAllowed(env, m, call, answer);
      AbortAllowed(env, Perform(env, m, call, answer).m, s, out1, HeightNotReached);
      AdvanceAllowed(env, false, Perform(env, m, call, answer).m, s, out1, ChainHalted);
    } else if s.stage.ChainHalted? {
      var call := WaitHalt(s.upgradeHeight);
      var answer := PollAnswer(env.world.polls(m.calls, call));
      PerformAllowed(env, m, call, answer);
      AbortAllowed(env, Perform(env, m, call, answer).m, s, out1, HaltNotDetected);
      AdvanceAllowed(env, false, Perform(env, m, call, answer).m, s, out1, SwitchingBinary);
    }
  }

  lemma VerifyAllowed(env: Env, input: Input, m: Machine, s: State, out: Output)
    requires UsesTable(env) && NoRefusal(m.marks) && s.stage.VerifyingResume?
    ensures NoRefusal(VerifyStage(env, input, m, s, out).m.marks)
  {
    var out1 := if input.skipGovernance then out else WithProposal(out, s);
    var call := Verify(input.homeDir);
    var polls := env.world.polls(m.calls, call);
    PerformAllowed(env, m, call, PollAnswer(polls));
    var m1 := Perform(env, m, call, PollAnswer(polls)).m;
    AbortAllowed(env, m1, s, out1, ResumeNotDetected);
    match VerifyChainResumed(polls)
    case Resumed(h, _) =>
      var out2 := out1.(postUpgradeHeight := h);
      assert NoRefusal(PostExport(env, input, m1, out2).m.marks);
      match PostExport(env, input, m1, out2) {
        case Died(_) =>
        case Lived(m2, out3) => AdvanceAllowed(env, false, m2, s, out3, Completed);
      }
    case _ =>
  }

  lemma FinishAllowed(env: Env, input: Input, m: Machine, s: State, out: Output)
    requires NoRefusal(m.marks)
    ensures NoRefusal(FinishStage(env, input, m, s, out).m.marks)
  {
  }

  lemma StageNeverRefused(env: Env, input: Input, m: Machine, s: State, out: Output)
    requires UsesTable(env) && NoRefusal(m.marks)
    ensures NoRefusal(RunStage(env, input, m, s, out).m.marks)
  {
    match s.stage
    case Initialized =>
      ProposeAllowed(env, input, m, s, out);
      if input.skipGovernance {
        AdvanceAllowed(env, true, m, s, out, SwitchingBinary);
      }
    case ProposalSubmitted => AdvanceAllowed(env, false, m, s, out, Voting);
    case Voting => VoteAllowed(env, input, m, s, out);
    case SwitchingBinary => SwitchAllowed(env, input, m, s, out);
    case VerifyingResume => VerifyAllowed(env, input, m, s, out);
    case Completed => FinishAllowed(env, input, m, s, out);
    case _ => WaitsAllowed(env, input, m, s, out);
  }

  lemma {:induction false} RunNeverRefused(env: Env, input: Input, m: Machine, s: State, out: Output)
    requires UsesTable(env) && NoRefusal(m.marks)
    ensures NoRefusal(RunFrom(env, input, m, s, out).m.marks)
    decreases 7 - s.stage.Rank()
  {
    StageNeverRefused(env, input, m, s, out);
    match RunStage(env, input, m, s, out)
    case Onward(m1, s1, out1) => RunNeverRefused(env, input, m1, s1, out1);
    case _ =>
  }

  lemma LoadedNeverRefused(env: Env, input: Input, m: Machine, s: State)
    requires UsesTable(env) && NoRefusal(m.marks)
    ensures NoRefusal(RunLoaded(env, input, m, s).m.marks)
  {
    match PreExport(env, input, m, s)
    case Onward(m1, s1, out) => RunNeverRefused(env, input, m1, s1, out);
    case _ =>
  }

  /** With the actual table no run ever has a transition refused. */
  lemma {:induction false} NeverRefused(env: Env, inputs: seq<Input>)
    requires UsesTable(env)
    ensures NoRefusal(Sessions(env, inputs).marks)
  {
    if inputs != [] {
      NeverRefused(env, inputs[..|inputs| - 1]);
      var m := Sessions(env, inputs[..|inputs| - 1]);
      var input := inputs[|inputs| - 1];
      if !m.deleted {
        match m.disk
        case Some(s) => LoadedNeverRefused(env, input, m, s);
        case None =>
          var s := NewState(PlanOf(input), input.upgradeHeight);
          match Save(env, m, s)
          case Lived(m1, true) => LoadedNeverRefused(env, input, m1, s);
          case _ =>
      }
    }
  }

  /** Hence, with the actual table, between two attempts at an effect the process
      died or a save failed. */
  lemma RepeatsNeedCrashOrFailedSave(env: Env, inputs: seq<Input>, skip: bool, i: nat, j: nat, e: Effect)
    requires UsesTable(env)
    requires forall k :: 0 <= k < |inputs| ==> inputs[k].skipGovernance == skip
    requires var calls := Sessions(env, inputs).calls;
             i < j && Performs(calls, i, e) && Performs(calls, j, e)
    ensures var marks := Sessions(env, inputs).marks;
            exists q :: 0 <= q < |marks| && i < marks[q].at <= j
                     && (marks[q].kind.Crashed? || marks[q].kind.NotSaved?)
  {
    CrashResumeRepeats(env, inputs, skip, i, j, e);
    NeverRefused(env, inputs);
  }

  // ------------------------------------------------------------------- progress

  /** No fault befalls the process, and every call to the world succeeds. */
  ghost predicate Benign(env: Env)
  {
    && UsesTable(env)
    && (forall k :: env.fault(k) == Fine)
    && (forall calls, arg :: env.world.exportState(calls, arg).Ok?)
    && (forall calls, arg :: env.world.propose(calls, arg).Ok?)
    && (forall calls, arg :: env.world.vote(calls, arg).Ok?
                          && var v := env.world.vote(calls, arg).value; v.votesCast == v.totalVoters)
    && (forall calls, arg :: env.world.switch(calls, arg).Ok?)
    && (forall calls, h :: WaitForUpgradeHeight(env.world.polls(calls, WaitHeight(h)), h).Reached?)
    && (forall calls, h :: WaitForChainHalt(env.world.polls(calls, WaitHalt(h)), h).Halted?)
    && (forall calls, dir :: VerifyChainResumed(env.world.polls(calls, Verify(dir))).Resumed?)
  }

  lemma BenignAdvance(env: Env, skip: bool, m: Machine, s: State, out: Output, target: Stage)
    requires Benign(env) && NextStage(skip, s.stage) == Some(target)
    ensures Advance(env, m, s, out, target).Onward?
    ensures Advance(env, m, s, out, target).out == out
  {
    TableServesWorkflows(skip, s.stage, target);
    assert env.can(s.stage, target) == CanTransition(s.stage, target);
    assert env.fault(m.ticks) == Fine;
  }

  lemma BenignStage(env: Env, input: Input, m: Machine, s: State, out: Output)
    requires Benign(env)
    requires NextStage(input.skipGovernance, s.stage).Some?
    ensures RunStage(env, input, m, s, out).Onward?
  {
    forall m1: Machine, t: State, out1, target
      | t.stage == s.stage && NextStage(input.skipGovernance, s.stage) == Some(target)
      ensures Advance(env, m1, t, out1, target).Onward?
    {
      BenignAdvance(env, input.skipGovernance, m1, t, out1, target);
    }
  }

  lemma {:induction false} BenignRun(env: Env, input: Input, m: Machine, s: State, out: Output)
    requires Benign(env) && OnPath(input.skipGovernance, s.stage) && !s.stage.Failed?
    ensures var p := RunFrom(env, input, m, s, out);
            && p.Done? && p.m.deleted && p.m.disk == None
            && p.ret.err == None && p.ret.output.Some? && p.ret.output.value.success
    decreases 7 - s.stage.Rank()
  {
    if s.stage.Completed? {
      assert env.fault(m.ticks) == Fine && env.fault(m.ticks + 1) == Fine;
    } else {
      BenignStage(env, input, m, s, out);
      var p := RunStage(env, input, m, s, out);
      BenignRun(env, input, p.m, p.s, p.out);
    }
  }

  /** No persisted state is a dead end: from whatever any runs left on disk short
      of a recorded failure, one benign run completes the upgrade, having
      performed the whole order of effects, and removes the state file. */
  lemma EveryStateCanComplete(env: Env, inputs: seq<Input>, skip: bool, later: Env, input: Input)
    requires forall k :: 0 <= k < |inputs| ==> inputs[k].skipGovernance == skip
    requires input.skipGovernance == skip && Benign(later)
    requires var m := Sessions(env, inputs);
             !m.deleted && (m.disk.Some? ==> !m.disk.value.stage.Failed?)
    ensures var p := Execute(later, input, Sessions(env, inputs));
            && p.Done? && p.m.deleted && Collapsed(p.m.calls) == Order(skip)
            && p.ret.err == None && p.ret.output.Some? && p.ret.output.value.success
  {
    SessionsKeep(env, inputs, skip);
    var m := Sessions(env, inputs);
    ExecuteKeeps(later, input, m);
    BenignExecute(later, input, m);
    RestIsOrdered(skip, Execute(later, input, m).m);
  }

  lemma BenignExecute(env: Env, input: Input, m: Machine)
    requires Benign(env) && AtRest(input.skipGovernance, m) && !m.deleted
    requires m.disk.Some? ==> !m.disk.value.stage.Failed?
    ensures var p := Execute(env, input, m);
            p.Done? && p.m.deleted && p.ret.err == None && p.ret.output.Some? && p.ret.output.value.success
  {
    assert forall k :: env.fault(k) == Fine;
    match m.disk
    case Some(s) => BenignLoaded(env, input, m, s);
    case None =>
      var s := NewState(PlanOf(input), input.upgradeHeight);
      assert env.fault(m.ticks) == Fine;
      BenignLoaded(env, input, Ticked(Written(m, s)), s);
  }

  lemma BenignLoaded(env: Env, input: Input, m: Machine, s: State)
    requires Benign(env) && OnPath(input.skipGovernance, s.stage) && !s.stage.Failed?
    ensures var p := RunLoaded(env, input, m, s);
            p.Done? && p.m.deleted && p.ret.err == None && p.ret.output.Some? && p.ret.output.value.success
  {
    assert env.fault(m.ticks) == Fine;
    match PreExport(env, input, m, s)
    case Onward(m1, s1, out) => BenignRun(env, input, m1, s1, out);
    case _ =>
  }
}
