/** The plain upgrade (internal/application/upgrade/execute.go:61-253) as a function
    of the world, and exactly when the resumable one does the same. */
module UpgradeRefinement {
  import opened Outcomes
  import opened UpgradeStates
  import opened UpgradeWorld
  import opened UpgradeWorkflow
  import opened ChainObservers
  import NodeSwitches

  /** The calls a run performed and what it returned. */
  datatype PlainRun = PlainRun(calls: seq<Event>, ret: Return)

  function Did(calls: seq<Event>, call: Call, answer: Answer): seq<Event> {
    calls + [Event(call, Some(answer))]
  }

  function Fail(calls: seq<Event>, out: Output, failure: Failure): PlainRun {
    PlainRun(calls, Return(Some(out.(error := Some(failure))), Some(failure)))
  }

  // ------------------------------------------------------- the plain workflow

  function PlainFinish(w: World, input: Input, calls: seq<Event>, out: Output): PlainRun
  {
    var calls1 :=
      if input.targetVersion == "" then calls
      else Did(calls, SetVersion(input.homeDir, input.targetVersion),
               SetVersionAnswer(w.setVersion(calls, input.targetVersion)));
    PlainRun(calls1, Return(Some(out.(success := true)), None))
  }

  function PlainPostExport(w: World, input: Input, calls: seq<Event>, out: Output): PlainRun
  {
    if !input.withExport then PlainFinish(w, input, calls, out)
    else
      var arg := ExportInputOf(input);
      var r := w.exportState(calls, arg);
      var calls1 := Did(calls, Export(arg), ExportAnswer(r));
      match r
      case Ok(ExportOutput(path)) => PlainFinish(w, input, calls1, out.(postGenesisPath := path))
      case _ => PlainFinish(w, input, calls1, out)
  }

  function PlainVerify(w: World, input: Input, calls: seq<Event>, out: Output): PlainRun
  {
    var call := Verify(input.homeDir);
    var polls := w.polls(calls, call);
    var calls1 := Did(calls, call, PollAnswer(polls));
    match VerifyChainResumed(polls)
    case Resumed(h, _) =>
      var out1 := out.(postUpgradeHeight := h);
      if input.skipGovernance then PlainFinish(w, input, calls1, out1)
      else PlainPostExport(w, input, calls1, out1)
    case _ => Fail(calls1, out, ResumeNotDetected)
  }

  function PlainSwitch(w: World, input: Input, calls: seq<Event>, height: int, out: Output): PlainRun
  {
    var arg := SwitchInputOf(input, height);
    var r := w.switch(calls, arg);
    var calls1 := Did(calls, Switch(arg), SwitchAnswer(r));
    match r
    case Err(e) => Fail(calls1, out, External(e))
    case Ok(result) => PlainVerify(w, input, calls1, out.(newBinary := result.newBinary))
  }

  function PlainWaitHalt(w: World, input: Input, calls: seq<Event>, p: Proposal, out: Output): PlainRun
  {
    var call := WaitHalt(p.height);
    var polls := w.polls(calls, call);
    var calls1 := Did(calls, call, PollAnswer(polls));
    if !WaitForChainHalt(polls, p.height).Halted? then Fail(calls1, out, HaltNotDetected)
    else PlainSwitch(w, input, calls1, p.height, out)
  }

  function PlainWaitHeight(w: World, input: Input, calls: seq<Event>, p: Proposal, out: Output): PlainRun
  {
    var call := WaitHeight(p.height);
    var polls := w.polls(calls, call);
    var calls1 := Did(calls, call, PollAnswer(polls));
    if !WaitForUpgradeHeight(polls, p.height).Reached? then Fail(calls1, out, HeightNotReached)
    else PlainWaitHalt(w, input, calls1, p, out)
  }

  function PlainVote(w: World, input: Input, calls: seq<Event>, p: Proposal, out: Output): PlainRun
  {
    var arg := VoteInputOf(input, p.id);
    var r := w.vote(calls, arg);
    var calls1 := Did(calls, Vote(arg), VoteAnswer(r));
    match r
    case Err(e) => Fail(calls1, out, External(e))
    case Ok(v) =>
      if v.votesCast != v.totalVoters then Fail(calls1, out, NotAllVotesCast(v.votesCast, v.totalVoters))
      else PlainWaitHeight(w, input, calls1, p, out)
  }

  function PlainPropose(w: World, input: Input, calls: seq<Event>, out: Output): PlainRun
  {
    var arg := ProposeInputOf(input);
    var r := w.propose(calls, arg);
    var calls1 := Did(calls, Propose(arg), ProposeAnswer(r));
    match r
    case Err(e) => Fail(calls1, out, External(e))
    case Ok(p) => PlainVote(w, input, calls1, p, out.(proposalID := p.id, upgradeHeight := p.height))
  }

  /** `executeWithGov`. */
  function PlainGovernance(w: World, input: Input, calls: seq<Event>): PlainRun
  {
    if !input.withExport then PlainPropose(w, input, calls, BLANK)
    else
      var arg := ExportInputOf(input);
      var r := w.exportState(calls, arg);
      var calls1 := Did(calls, Export(arg), ExportAnswer(r));
      match r
      case Err(e) => Fail(calls1, BLANK, PreExportFailed(e))
      case Ok(OtherType) => Fail(calls1, BLANK, InvalidExportResult)
      case Ok(ExportOutput(path)) => PlainPropose(w, input, calls1, BLANK.(preGenesisPath := path))
  }

  /** `executeSkipGov`, which always switches with height 0. */
  function PlainSkip(w: World, input: Input, calls: seq<Event>): PlainRun
  {
    PlainSwitch(w, input, calls, 0, BLANK)
  }

  // ------------------------------------------------- a run without interference

  /** No fault befalls the process and the table grants what the workflow asks. */
  ghost predicate Undisturbed(env: Env)
  {
    && (forall k :: env.fault(k) == Fine)
    && (forall from, to, skip :: NextStage(skip, from) == Some(to) ==> env.can(from, to))
    && (forall from: Stage :: !from.IsTerminal() ==> env.can(from, Failed))
  }

  /** The resumable run `p` performed the calls and returned the values of `q`. */
  predicate Agrees(p: Progress, q: PlainRun) {
    p.Done? && p.m.calls == q.calls && p.ret == q.ret
  }

  lemma AbortAgrees(env: Env, m: Machine, s: State, out: Output, failure: Failure)
    requires Undisturbed(env) && !s.stage.IsTerminal()
    ensures Agrees(Abort(env, m, s, out, failure), Fail(m.calls, out, failure))
  {
    assert env.fault(m.ticks) == Fine && env.can(s.stage, Failed);
  }

  lemma AdvanceSucceeds(env: Env, skip: bool, m: Machine, s: State, out: Output, target: Stage)
    requires Undisturbed(env) && NextStage(skip, s.stage) == Some(target)
    ensures var p := Advance(env, m, s, out, target);
            && p.Onward? && p.out == out && p.m.calls == m.calls && p.s.stage == target
            && p.s.proposalID == s.proposalID && p.s.upgradeHeight == s.upgradeHeight
  {
    assert env.fault(m.ticks) == Fine && env.can(s.stage, target);
  }

  lemma PerformSucceeds(env: Env, m: Machine, call: Call, answer: Answer)
    requires Undisturbed(env)
    ensures var o := Perform(env, m, call, answer);
            o.Lived? && o.m.calls == Did(m.calls, call, answer)
  {
    assert env.fault(m.ticks) == Fine;
  }

  lemma SaveSucceeds(env: Env, m: Machine, s: State)
    requires Undisturbed(env)
    ensures Save(env, m, s) == Lived(Ticked(Written(m, s)), true)
  {
    assert env.fault(m.ticks) == Fine;
  }

  lemma FinishAgrees(env: Env, input: Input, m: Machine, s: State, out: Output)
    requires Undisturbed(env) && s.stage.Completed?
    ensures Agrees(RunFrom(env, input, m, s, out), PlainFinish(env.world, input, m.calls, out))
  {
    assert env.fault(m.ticks) == Fine && env.fault(m.ticks + 1) == Fine;
  }

  lemma VerifyAgrees(env: Env, input: Input, m: Machine, s: State, out: Output)
    requires Undisturbed(env) && s.stage.VerifyingResume?
    requires !input.skipGovernance ==> out == WithProposal(out, s)
    ensures Agrees(RunFrom(env, input, m, s, out), PlainVerify(env.world, input, m.calls, out))
  {
    var call := Verify(input.homeDir);
    var polls := env.world.polls(m.calls, call);
    PerformSucceeds(env, m, call, PollAnswer(polls));
    var m1 := Perform(env, m, call, PollAnswer(polls)).m;
    match VerifyChainResumed(polls)
    case Resumed(h, _) =>
      var out1 := out.(postUpgradeHeight := h);
      var arg := ExportInputOf(input);
      var r := env.world.exportState(m1.calls, arg);
      PerformSucceeds(env, m1, Export(arg), ExportAnswer(r));
      match PostExport(env, input, m1, out1) {
        case Died(_) => assert false;
        case Lived(m2, out2) =>
          AdvanceSucceeds(env, input.skipGovernance, m2, s, out2, Completed);
          var p := Advance(env, m2, s, out2, Completed);
          assert VerifyStage(env, input, m, s, out) == p;
          FinishAgrees(env, input, p.m, p.s, p.out);
      }
    case _ => AbortAgrees(env, m1, s, out, ResumeNotDetected);
  }

  lemma SwitchAgrees(env: Env, input: Input, m: Machine, s: State, out: Output)
    requires Undisturbed(env) && s.stage.SwitchingBinary?
    requires !input.skipGovernance ==> out == WithProposal(out, s)
    ensures Agrees(RunFrom(env, input, m, s, out), PlainSwitch(env.world, input, m.calls, s.upgradeHeight, out))
  {
    var arg := SwitchInputOf(input, s.upgradeHeight);
    var r := env.world.switch(m.calls, arg);
    PerformSucceeds(env, m, Switch(arg), SwitchAnswer(r));
    var m1 := Perform(env, m, Switch(arg), SwitchAnswer(r)).m;
    match r
    case Err(e) => AbortAgrees(env, m1, s, out, External(e));
    case Ok(w) =>
      var t := s.(switches := NodeSwitches.UpsertAll(s.switches, w.nodesRestarted, w.oldBinary, w.newBinary));
      SaveSucceeds(env, m1, t);
      var m2 := Ticked(Written(m1, t));
      AdvanceSucceeds(env, input.skipGovernance, m2, t, out.(newBinary := w.newBinary), VerifyingResume);
      var p := Advance(env, m2, t, out.(newBinary := w.newBinary), VerifyingResume);
      assert SwitchStage(env, input, m, s, out) == p;
      VerifyAgrees(env, input, p.m, p.s, p.out);
  }

  lemma WaitHaltAgrees(env: Env, input: Input, m: Machine, s: State, out: Output)
    requires Undisturbed(env) && s.stage.ChainHalted? && !input.skipGovernance && out == WithProposal(out, s)
    ensures Agrees(RunFrom(env, input, m, s, out),
                   PlainWaitHalt(env.world, input, m.calls, Proposal(s.proposalID, s.upgradeHeight), out))
  {
    var call := WaitHalt(s.upgradeHeight);
    var polls := env.world.polls(m.calls, call);
    PerformSucceeds(env, m, call, PollAnswer(polls));
    var m1 := Perform(env, m, call, PollAnswer(polls)).m;
    if !WaitForChainHalt(polls, s.upgradeHeight).Halted? {
      AbortAgrees(env, m1, s, out, HaltNotDetected);
    } else {
      AdvanceSucceeds(env, false, m1, s, out, SwitchingBinary);
      var p := Advance(env, m1, s, out, SwitchingBinary);
      SwitchAgrees(env, input, p.m, p.s, p.out);
    }
  }

  lemma WaitHeightAgrees(env: Env, input: Input, m: Machine, s: State, out: Output)
    requires Undisturbed(env) && s.stage.WaitingForHeight? && !input.skipGovernance && out == WithProposal(out, s)
    ensures Agrees(RunFrom(env, input, m, s, out),
                   PlainWaitHeight(env.world, input, m.calls, Proposal(s.proposalID, s.upgradeHeight), out))
  {
    var call := WaitHeight(s.upgradeHeight);
    var polls := env.world.polls(m.calls, call);
    PerformSucceeds(env, m, call, PollAnswer(polls));
    var m1 := Perform(env, m, call, PollAnswer(polls)).m;
    if !WaitForUpgradeHeight(polls, s.upgradeHeight).Reached? {
      AbortAgrees(env, m1, s, out, HeightNotReached);
    } else {
      AdvanceSucceeds(env, false, m1, s, out, ChainHalted);
      var p := Advance(env, m1, s, out, ChainHalted);
      WaitHaltAgrees(env, input, p.m, p.s, p.out);
    }
  }

  lemma VoteAgrees(env: Env, input: Input, m: Machine, s: State, out: Output)
    requires Undisturbed(env) && s.stage.Voting? && !input.skipGovernance && out == WithProposal(out, s)
    ensures Agrees(RunFrom(env, input, m, s, out),
                   PlainVote(env.world, input, m.calls, Proposal(s.proposalID, s.upgradeHeight), out))
  {
    var arg := VoteInputOf(input, s.proposalID);
    var r := env.world.vote(m.calls, arg);
    PerformSucceeds(env, m, Vote(arg), VoteAnswer(r));
    var m1 := Perform(env, m, Vote(arg), VoteAnswer(r)).m;
    match r
    case Err(e) => AbortAgrees(env, m1, s, out, External(e));
    case Ok(v) =>
      var t := s.(votes := NodeSwitches.RecordVotes(s.votes, v.txHashes));
      SaveSucceeds(env, m1, t);
      var m2 := Ticked(Written(m1, t));
      if v.votesCast != v.totalVoters {
        AbortAgrees(env, m2, t, out, NotAllVotesCast(v.votesCast, v.totalVoters));
      } else {
        AdvanceSucceeds(env, false, m2, t, out, WaitingForHeight);
        var p := Advance(env, m2, t, out, WaitingForHeight);
        assert VoteStage(env, input, m, s, out) == p;
        WaitHeightAgrees(env, input, p.m, p.s, p.out);
      }
  }

  lemma ProposeAgrees(env: Env, input: Input, m: Machine, s: State, out: Output)
    requires Undisturbed(env) && s.stage.Initialized? && !input.skipGovernance
    ensures Agrees(RunFrom(env, input, m, s, out), PlainPropose(env.world, input, m.calls, out))
  {
    var arg := ProposeInputOf(input);
    var r := env.world.propose(m.calls, arg);
    PerformSucceeds(env, m, Propose(arg), ProposeAnswer(r));
    var m1 := Perform(env, m, Propose(arg), ProposeAnswer(r)).m;
    match r
    case Err(e) => AbortAgrees(env, m1, s, out, External(e));
    case Ok(p) =>
      var t := s.(proposalID := p.id, upgradeHeight := p.height);
      var out1 := WithProposal(out, t);
      AdvanceSucceeds(env, false, m1, t, out1, ProposalSubmitted);
      var q := Advance(env, m1, t, out1, ProposalSubmitted);
      assert RunFrom(env, input, m, s, out) == RunFrom(env, input, q.m, q.s, q.out);
      AdvanceSucceeds(env, false, q.m, q.s, q.out, Voting);
      var v := Advance(env, q.m, q.s, q.out, Voting);
      assert RunFrom(env, input, q.m, q.s, q.out) == RunFrom(env, input, v.m, v.s, v.out);
      VoteAgrees(env, input, v.m, v.s, v.out);
  }

  /** The export before the upgrade yields something other than an export result. */
  predicate IllTypedPreExport(w: World, input: Input) {
    input.withExport && w.exportState([], ExportInputOf(input)) == Ok(OtherType)
  }

  /** Refinement: undisturbed, a fresh governance run of the resumable upgrade
      performs the calls of the plain one with the same arguments and returns the
      same output and error, exactly unless the export before the upgrade is
      ill-typed: the plain upgrade then stops, the resumable one goes on. */
  lemma GovernanceRefines(env: Env, input: Input)
    requires Undisturbed(env) && !input.skipGovernance
    ensures Agrees(Execute(env, input, FRESH), PlainGovernance(env.world, input, []))
       <==> !IllTypedPreExport(env.world, input)
  {
    var s := NewState(PlanOf(input), input.upgradeHeight);
    SaveSucceeds(env, FRESH, s);
    var m := Ticked(Written(FRESH, s));
    var arg := ExportInputOf(input);
    var r := env.world.exportState([], arg);
    PerformSucceeds(env, m, Export(arg), ExportAnswer(r));
    match PreExport(env, input, m, s)
    case Onward(m1, s1, out) =>
      ProposeAgrees(env, input, m1, s1, out);
      ProposeIsCalled(env.world, input, m1.calls, out);
    case _ =>
  }

  /** The plain continuation from the proposal on performs at least one call. */
  lemma ProposeIsCalled(w: World, input: Input, calls: seq<Event>, out: Output)
    ensures |PlainPropose(w, input, calls, out).calls| > |calls|
  {
  }

  /** Without governance the two versions differ in the height they switch with:
      they agree exactly when the input asks for no upgrade height. */
  lemma SkipRefines(env: Env, input: Input)
    requires Undisturbed(env) && input.skipGovernance
    ensures Agrees(Execute(env, input, FRESH), PlainSkip(env.world, input, [])) <==> input.upgradeHeight == 0
  {
    var s := NewState(PlanOf(input), input.upgradeHeight);
    SaveSucceeds(env, FRESH, s);
    var m := Ticked(Written(FRESH, s));
    AdvanceSucceeds(env, true, m, s, BLANK, SwitchingBinary);
    var p := Advance(env, m, s, BLANK, SwitchingBinary);
    assert RunFrom(env, input, m, s, BLANK) == RunFrom(env, input, p.m, p.s, p.out);
    SwitchAgrees(env, input, p.m, p.s, p.out);
    SwitchComesFirst(env.world, input, 0, BLANK);
    SwitchComesFirst(env.world, input, input.upgradeHeight, BLANK);
  }

  lemma SwitchComesFirst(w: World, input: Input, height: int, out: Output)
    ensures var calls := PlainSwitch(w, input, [], height, out).calls;
            |calls| > 0 && calls[0].call == Switch(SwitchInputOf(input, height))
  {
    assert Did([], Switch(SwitchInputOf(input, height)),
               SwitchAnswer(w.switch([], SwitchInputOf(input, height))))[0].call
        == Switch(SwitchInputOf(input, height));
  }
}
