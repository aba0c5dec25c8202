/** What the calls of an upgrade carry, and what the state file says of the plan,
    in terms of the inputs of the runs. */
module UpgradeArguments {
  import opened Outcomes
  import opened UpgradeStates
  import opened UpgradeWorld
  import opened UpgradeWorkflow
  import opened UpgradeSafety
  import opened UpgradeRefinement
  import UpgradeEffects
  import ChainObservers
  import NodeSwitches

  /** The call is one that a run with this input may make, with the input's values.
      Proposal ids and heights come from the proposal, not from the input. */
  predicate FromInput(call: Call, input: Input)
  {
    match call
    case Export(a) =>
      && !input.skipGovernance && input.withExport
      && a.homeDir == input.homeDir && a.outputDir == input.genesisDir && !a.force
    case Propose(a) =>
      && !input.skipGovernance
      && a.homeDir == input.homeDir && a.upgradeName == input.upgradeName && a.upgradeHeight == input.upgradeHeight
      && a.votingPeriod == input.votingPeriod && a.heightBuffer == input.heightBuffer
    case Vote(a) => !input.skipGovernance && a.homeDir == input.homeDir && a.voteOption == "yes" && a.fromAll
    case WaitHeight(_) => !input.skipGovernance
    case WaitHalt(_) => !input.skipGovernance
    case Switch(a) =>
      && a.homeDir == input.homeDir && a.targetBinary == input.targetBinary && a.targetImage == input.targetImage
      && a.targetVersion == input.targetVersion && a.cachePath == input.cachePath
      && a.commitHash == input.commitHash && a.cacheRef == input.cacheRef && a.mode == input.mode
    case Verify(homeDir) => homeDir == input.homeDir
    case SetVersion(homeDir, version) =>
      homeDir == input.homeDir && version == input.targetVersion && version != ""
  }

  /** What the world answers to a call. */
  function AnswerOf(w: World, before: seq<Event>, call: Call): Answer
  {
    match call
    case Export(a) => ExportAnswer(w.exportState(before, a))
    case Propose(a) => ProposeAnswer(w.propose(before, a))
    case Vote(a) => VoteAnswer(w.vote(before, a))
    case Switch(a) => SwitchAnswer(w.switch(before, a))
    case SetVersion(_, version) => SetVersionAnswer(w.setVersion(before, version))
    case _ => PollAnswer(w.polls(before, call))
  }

  predicate EventOk(w: World, input: Input, calls: seq<Event>, i: nat)
    requires i < |calls|
  {
    && FromInput(calls[i].call, input)
    && (calls[i].answer.Some? ==> calls[i].answer.value == AnswerOf(w, calls[..i], calls[i].call))
  }

  /** `after` goes on from `before` with calls from the input, answered by the
      world. */
  ghost predicate GoesOn(w: World, input: Input, before: seq<Event>, after: seq<Event>) {
    before <= after && forall i :: |before| <= i < |after| ==> EventOk(w, input, after, i)
  }

  lemma GoesOnTwice(w: World, input: Input, a: seq<Event>, b: seq<Event>, c: seq<Event>)
    requires GoesOn(w, input, a, b) && GoesOn(w, input, b, c)
    ensures GoesOn(w, input, a, c)
  {
    hide FromInput, AnswerOf;
    forall i | |a| <= i < |c|
      ensures EventOk(w, input, c, i)
    {
      if i < |b| {
        assert EventOk(w, input, b, i);
        assert c[..i] == b[..i];
      }
    }
  }

  lemma OneCall(w: World, input: Input, calls: seq<Event>, call: Call)
    requires FromInput(call, input)
    ensures GoesOn(w, input, calls, calls + [Event(call, Some(AnswerOf(w, calls, call)))])
    ensures GoesOn(w, input, calls, calls + [Event(call, None)])
  {
    hide FromInput, AnswerOf;
    assert (calls + [Event(call, Some(AnswerOf(w, calls, call)))])[..|calls|] == calls;
  }

  lemma PerformGoesOn(env: Env, input: Input, m: Machine, call: Call)
    requires FromInput(call, input)
    ensures GoesOn(env.world, input, m.calls, Perform(env, m, call, AnswerOf(env.world, m.calls, call)).m.calls)
  {
    hide FromInput, AnswerOf;
    OneCall(env.world, input, m.calls, call);
  }

  // ------------------------------------------------------------------- the stages

  /** The calls of a stage, and the heights of its switches. */
  ghost predicate StageGoesOn(env: Env, input: Input, m: Machine, s: State, p: Progress) {
    && GoesOn(env.world, input, m.calls, p.m.calls)
    && SwitchHeights(m.calls, p.m.calls, s.upgradeHeight)
  }

  /** Every switch after `before` is at the height. */
  ghost predicate SwitchHeights(before: seq<Event>, after: seq<Event>, height: int) {
    forall i :: |before| <= i < |after| && after[i].call.Switch? ==> after[i].call.switchInput.upgradeHeight == height
  }

  lemma ProposeGoesOn(env: Env, input: Input, m: Machine, s: State, out: Output)
    requires !input.skipGovernance
    ensures StageGoesOn(env, input, m, s, ProposeStage(env, input, m, s, out))
  {
    hide Abort, Advance, GoesOn;
    var arg := ProposeInputOf(input);
    var r := env.world.propose(m.calls, arg);
    PerformGoesOn(env, input, m, Propose(arg));
    var m1 := Perform(env, m, Propose(arg), ProposeAnswer(r)).m;
    match r
    case Err(e) => UpgradeEffects.EndsCallNothing(env, m1, s, out, Failed, External(e));
    case Ok(p) =>
      var t := s.(proposalID := p.id, upgradeHeight := p.height);
      UpgradeEffects.EndsCallNothing(env, m1, t, WithProposal(out, t), ProposalSubmitted, WasRejected);
  }

  lemma VoteGoesOn(env: Env, input: Input, m: Machine, s: State, out: Output)
    requires !input.skipGovernance
    ensures StageGoesOn(env, input, m, s, VoteStage(env, input, m, s, out))
  {
    hide Abort, Advance, GoesOn, Save;
    var arg := VoteInputOf(input, s.proposalID);
    var r := env.world.vote(m.calls, arg);
    var out1 := WithProposal(out, s);
    PerformGoesOn(env, input, m, Vote(arg));
    var m1 := Perform(env, m, Vote(arg), VoteAnswer(r)).m;
    match r
    case Err(e) => UpgradeEffects.EndsCallNothing(env, m1, s, out1, Failed, External(e));
    case Ok(v) =>
      var t := s.(votes := NodeSwitches.RecordVotes(s.votes, v.txHashes));
      UpgradeEffects.SaveCallsNothing(env, m1, t);
      UpgradeEffects.EndsCallNothing(env, Save(env, m1, t).m, t, out1, WaitingForHeight,
                                     NotAllVotesCast(v.votesCast, v.totalVoters));
  }

  lemma SwitchGoesOn(env: Env, input: Input, m: Machine, s: State, out: Output)
    ensures StageGoesOn(env, input, m, s, SwitchStage(env, input, m, s, out))
  {
    hide Abort, Advance, GoesOn, Save;
    var arg := SwitchInputOf(input, s.upgradeHeight);
    var r := env.world.switch(m.calls, arg);
    var out1 := if input.skipGovernance then out else WithProposal(out, s);
    PerformGoesOn(env, input, m, Switch(arg));
    var m1 := Perform(env, m, Switch(arg), SwitchAnswer(r)).m;
    match r
    case Err(e) => UpgradeEffects.EndsCallNothing(env, m1, s, out1, Failed, External(e));
    case Ok(w) =>
      var t := s.(switches := NodeSwitches.UpsertAll(s.switches, w.nodesRestarted, w.oldBinary, w.newBinary));
      UpgradeEffects.SaveCallsNothing(env, m1, t);
      UpgradeEffects.EndsCallNothing(env, Save(env, m1, t).m, t, out1.(newBinary := w.newBinary), VerifyingResume,
                                     WasRejected);
  }

  lemma WaitsGoOn(env: Env, input: Input, m: Machine, s: State, out: Output)
    requires !input.skipGovernance
    ensures StageGoesOn(env, input, m, s, WaitHeightStage(env, input, m, s, out))
    ensures StageGoesOn(env, input, m, s, WaitHaltStage(env, input, m, s, out))
  {
    hide Abort, Advance, GoesOn, ChainObservers.WaitForUpgradeHeight, ChainObservers.WaitForChainHalt;
    var call, other := WaitHeight(s.upgradeHeight), WaitHalt(s.upgradeHeight);
    PerformGoesOn(env, input, m, call);
    PerformGoesOn(env, input, m, other);
    UpgradeEffects.EndsCallNothing(env, Perform(env, m, call, AnswerOf(env.world, m.calls, call)).m, s,
                                   WithProposal(out, s), ChainHalted, HeightNotReached);
    UpgradeEffects.EndsCallNothing(env, Perform(env, m, other, AnswerOf(env.world, m.calls, other)).m, s,
                                   WithProposal(out, s), SwitchingBinary, HaltNotDetected);
  }

  lemma NothingGoesOn(w: World, input: Input, calls: seq<Event>)
    ensures GoesOn(w, input, calls, calls)
  {
  }

  lemma ExportGoesOn(env: Env, input: Input, m: Machine, out: Output)
    ensures GoesOn(env.world, input, m.calls, PostExport(env, input, m, out).m.calls)
  {
    hide GoesOn;
    NothingGoesOn(env.world, input, m.calls);
    if !input.skipGovernance && input.withExport {
      PerformGoesOn(env, input, m, Export(ExportInputOf(input)));
    }
  }

  lemma ExportSwitchesNothing(env: Env, input: Input, m: Machine, out: Output, height: int)
    ensures SwitchHeights(m.calls, PostExport(env, input, m, out).m.calls, height)
  {
  }

  lemma HeightsTwice(a: seq<Event>, b: seq<Event>, c: seq<Event>, height: int)
    requires a <= b <= c && SwitchHeights(a, b, height) && SwitchHeights(b, c, height)
    ensures SwitchHeights(a, c, height)
  {
    forall i | |a| <= i < |c| && c[i].call.Switch?
      ensures c[i].call.switchInput.upgradeHeight == height
    {
      if i < |b| {
        assert b[i] == c[i];
      }
    }
  }

  lemma VerifyGoesOn(env: Env, input: Input, m: Machine, s: State, out: Output)
    ensures StageGoesOn(env, input, m, s, VerifyStage(env, input, m, s, out))
  {
    hide Abort, Advance, GoesOn, PostExport, ChainObservers.VerifyChainResumed;
    var out1 := if input.skipGovernance then out else WithProposal(out, s);
    var call := Verify(input.homeDir);
    var polls := env.world.polls(m.calls, call);
    PerformGoesOn(env, input, m, call);
    var m1 := Perform(env, m, call, PollAnswer(polls)).m;
    match ChainObservers.VerifyChainResumed(polls)
    case Resumed(h, _) =>
      var out2 := out1.(postUpgradeHeight := h);
      ExportGoesOn(env, input, m1, out2);
      ExportSwitchesNothing(env, input, m1, out2, s.upgradeHeight);
      var m2 := PostExport(env, input, m1, out2).m;
      GoesOnTwice(env.world, input, m.calls, m1.calls, m2.calls);
      PrefixOf(env.world, input, m.calls, m1.calls);
      PrefixOf(env.world, input, m1.calls, m2.calls);
      HeightsTwice(m.calls, m1.calls, m2.calls, s.upgradeHeight);
      match PostExport(env, input, m1, out2) {
        case Died(_) =>
        case Lived(_, out3) => UpgradeEffects.EndsCallNothing(env, m2, s, out3, Completed, ResumeNotDetected);
      }
    case _ => UpgradeEffects.EndsCallNothing(env, m1, s, out1, Completed, ResumeNotDetected);
  }

  lemma PrefixOf(w: World, input: Input, a: seq<Event>, b: seq<Event>)
    requires GoesOn(w, input, a, b)
    ensures a <= b
  {
  }

  lemma FinishGoesOn(env: Env, input: Input, m: Machine, s: State, out: Output)
    ensures StageGoesOn(env, input, m, s, FinishStage(env, input, m, s, out))
  {
    hide GoesOn;
    NothingGoesOn(env.world, input, m.calls);
    if input.targetVersion != "" {
      PerformGoesOn(env, input, m, SetVersion(input.homeDir, input.targetVersion));
    }
  }

  lemma RunStageGoesOn(env: Env, input: Input, m: Machine, s: State, out: Output)
    ensures StageGoesOn(env, input, m, s, RunStage(env, input, m, s, out))
  {
    hide Abort, Advance, ProposeStage, VoteStage, WaitHeightStage, WaitHaltStage, SwitchStage, VerifyStage,
         FinishStage, GoesOn;
    NothingGoesOn(env.world, input, m.calls);
    UpgradeEffects.EndsCallNothing(env, m, s, out, SwitchingBinary, WasRejected);
    UpgradeEffects.EndsCallNothing(env, m, s, out, Voting, WasRejected);
    SwitchGoesOn(env, input, m, s, out);
    VerifyGoesOn(env, input, m, s, out);
    FinishGoesOn(env, input, m, s, out);
    if !input.skipGovernance {
      ProposeGoesOn(env, input, m, s, out);
      VoteGoesOn(env, input, m, s, out);
      WaitsGoOn(env, input, m, s, out);
    }
  }

  lemma {:induction false} RunFromGoesOn(env: Env, input: Input, m: Machine, s: State, out: Output)
    ensures GoesOn(env.world, input, m.calls, RunFrom(env, input, m, s, out).m.calls)
    decreases 7 - s.stage.Rank()
  {
    hide GoesOn, RunStage, SwitchHeights;
    RunStageGoesOn(env, input, m, s, out);
    match RunStage(env, input, m, s, out)
    case Onward(m1, s1, out1) =>
      RunFromGoesOn(env, input, m1, s1, out1);
      GoesOnTwice(env.world, input, m.calls, m1.calls, RunFrom(env, input, m1, s1, out1).m.calls);
    case _ =>
  }

  lemma LoadedGoesOn(env: Env, input: Input, m: Machine, s: State)
    ensures GoesOn(env.world, input, m.calls, RunLoaded(env, input, m, s).m.calls)
  {
    hide GoesOn, RunFrom;
    NothingGoesOn(env.world, input, m.calls);
    if !input.skipGovernance && input.withExport {
      PerformGoesOn(env, input, m, Export(ExportInputOf(input)));
    }
    match PreExport(env, input, m, s)
    case Onward(m1, s1, out) =>
      RunFromGoesOn(env, input, m1, s1, out);
      GoesOnTwice(env.world, input, m.calls, m1.calls, RunFrom(env, input, m1, s1, out).m.calls);
    case _ =>
  }

  /** Whatever a run finds on disk, it only adds calls that carry its input's
      values, every vote a "yes" from all validators, and what it records of the
      answers is what the world answered. */
  lemma RunUsesItsInput(env: Env, input: Input, m: Machine)
    ensures GoesOn(env.world, input, m.calls, Execute(env, input, m).m.calls)
  {
    hide GoesOn, RunLoaded;
    match m.disk
    case Some(s) => LoadedGoesOn(env, input, m, s);
    case None =>
      var s := NewState(PlanOf(input), input.upgradeHeight);
      NothingGoesOn(env.world, input, m.calls);
      UpgradeEffects.SaveCallsNothing(env, m, s);
      LoadedGoesOn(env, input, Save(env, m, s).m, s);
  }

  /** After any runs, every call carries the values of one of the inputs. */
  lemma {:induction false} CallsUseInputs(env: Env, inputs: seq<Input>, i: nat) returns (k: nat)
    requires i < |Sessions(env, inputs).calls|
    ensures k < |inputs| && EventOk(env.world, inputs[k], Sessions(env, inputs).calls, i)
  {
    hide Execute, FromInput, AnswerOf;
    assert inputs != [];
    var front := inputs[..|inputs| - 1];
    var m := Sessions(env, front);
    if !m.deleted {
      RunUsesItsInput(env, inputs[|inputs| - 1], m);
    }
    var calls := Sessions(env, inputs).calls;
    if i < |m.calls| {
      k := CallsUseInputs(env, front, i);
      assert calls[..i] == m.calls[..i] && calls[i] == m.calls[i];
    } else {
      k := |inputs| - 1;
    }
  }

  // -------------------------------------------------------------- the plain upgrade

  lemma PlainFinishGoesOn(w: World, input: Input, calls: seq<Event>, out: Output)
    ensures GoesOn(w, input, calls, PlainFinish(w, input, calls, out).calls)
  {
    hide GoesOn;
    NothingGoesOn(w, input, calls);
    if input.targetVersion != "" {
      OneCall(w, input, calls, SetVersion(input.homeDir, input.targetVersion));
    }
  }

  /** A step of the plain upgrade that makes one call and goes on. */
  lemma PlainStep(w: World, input: Input, calls: seq<Event>, call: Call, after: seq<Event>)
    requires FromInput(call, input)
    requires var calls1 := calls + [Event(call, Some(AnswerOf(w, calls, call)))];
             after == calls1 || GoesOn(w, input, calls1, after)
    ensures GoesOn(w, input, calls, after)
  {
    hide GoesOn, FromInput, AnswerOf;
    var calls1 := calls + [Event(call, Some(AnswerOf(w, calls, call)))];
    OneCall(w, input, calls, call);
    if after != calls1 {
      GoesOnTwice(w, input, calls, calls1, after);
    }
  }

  lemma PlainVerifyGoesOn(w: World, input: Input, calls: seq<Event>, out: Output)
    ensures GoesOn(w, input, calls, PlainVerify(w, input, calls, out).calls)
  {
    hide GoesOn, PlainFinish, ChainObservers.VerifyChainResumed;
    var call := Verify(input.homeDir);
    var polls := w.polls(calls, call);
    var calls1 := Did(calls, call, PollAnswer(polls));
    var after := PlainVerify(w, input, calls, out).calls;
    match ChainObservers.VerifyChainResumed(polls)
    case Resumed(h, _) =>
      var out1 := out.(postUpgradeHeight := h);
      PlainFinishGoesOn(w, input, calls1, out1);
      if !input.skipGovernance && input.withExport {
        var arg := ExportInputOf(input);
        var r := w.exportState(calls1, arg);
        var calls2 := Did(calls1, Export(arg), ExportAnswer(r));
        var out2 := if r.Ok? && r.value.ExportOutput? then out1.(postGenesisPath := r.value.path) else out1;
        PlainFinishGoesOn(w, input, calls2, out2);
        PlainStep(w, input, calls1, Export(arg), after);
      }
      PlainStep(w, input, calls, call, after);
    case _ => PlainStep(w, input, calls, call, after);
  }

  lemma PlainSwitchGoesOn(w: World, input: Input, calls: seq<Event>, height: int, out: Output)
    ensures GoesOn(w, input, calls, PlainSwitch(w, input, calls, height, out).calls)
  {
    hide GoesOn, PlainVerify;
    var arg := SwitchInputOf(input, height);
    var r := w.switch(calls, arg);
    var calls1 := Did(calls, Switch(arg), SwitchAnswer(r));
    if r.Ok? {
      PlainVerifyGoesOn(w, input, calls1, out.(newBinary := r.value.newBinary));
    }
    PlainStep(w, input, calls, Switch(arg), PlainSwitch(w, input, calls, height, out).calls);
  }

  lemma PlainWaitsGoOn(w: World, input: Input, calls: seq<Event>, p: Proposal, out: Output)
    requires !input.skipGovernance
    ensures GoesOn(w, input, calls, PlainWaitHeight(w, input, calls, p, out).calls)
  {
    hide GoesOn, PlainSwitch, ChainObservers.WaitForUpgradeHeight, ChainObservers.WaitForChainHalt;
    var call := WaitHeight(p.height);
    var calls1 := Did(calls, call, PollAnswer(w.polls(calls, call)));
    var other := WaitHalt(p.height);
    var calls2 := Did(calls1, other, PollAnswer(w.polls(calls1, other)));
    PlainSwitchGoesOn(w, input, calls2, p.height, out);
    PlainStep(w, input, calls1, other, PlainWaitHalt(w, input, calls1, p, out).calls);
    PlainStep(w, input, calls, call, PlainWaitHeight(w, input, calls, p, out).calls);
  }

  lemma PlainProposeGoesOn(w: World, input: Input, calls: seq<Event>, out: Output)
    requires !input.skipGovernance
    ensures GoesOn(w, input, calls, PlainPropose(w, input, calls, out).calls)
  {
    hide GoesOn, PlainWaitHeight;
    var arg := ProposeInputOf(input);
    var r := w.propose(calls, arg);
    var calls1 := Did(calls, Propose(arg), ProposeAnswer(r));
    if r.Ok? {
      var out1 := out.(proposalID := r.value.id, upgradeHeight := r.value.height);
      var vote := VoteInputOf(input, r.value.id);
      var calls2 := Did(calls1, Vote(vote), VoteAnswer(w.vote(calls1, vote)));
      PlainWaitsGoOn(w, input, calls2, r.value, out1);
      PlainStep(w, input, calls1, Vote(vote), PlainVote(w, input, calls1, r.value, out1).calls);
    }
    PlainStep(w, input, calls, Propose(arg), PlainPropose(w, input, calls, out).calls);
  }

  /** The plain upgrade, too, only makes calls with its input's values. */
  lemma PlainRunUsesItsInput(w: World, input: Input)
    ensures !input.skipGovernance ==> GoesOn(w, input, [], PlainGovernance(w, input, []).calls)
    ensures input.skipGovernance ==> GoesOn(w, input, [], PlainSkip(w, input, []).calls)
  {
    hide GoesOn, PlainPropose, PlainSwitch;
    PlainSwitchGoesOn(w, input, [], 0, BLANK);
    if !input.skipGovernance {
      PlainProposeGoesOn(w, input, [], BLANK);
      if input.withExport {
        var arg := ExportInputOf(input);
        var r := w.exportState([], arg);
        var calls1 := Did([], Export(arg), ExportAnswer(r));
        if r.Ok? && r.value.ExportOutput? {
          PlainProposeGoesOn(w, input, calls1, BLANK.(preGenesisPath := r.value.path));
        }
        PlainStep(w, input, [], Export(arg), PlainGovernance(w, input, []).calls);
      }
    }
  }

  // --------------------------------------- the proposal in the plain upgrade

  /** The calls so far use their proposals, and the last one is `p`. */
  ghost predicate Follows(calls: seq<Event>, p: Proposal) {
    ArgumentsFollow(calls) && LastProposal(calls) == Some(p)
  }

  lemma CallFollows(calls: seq<Event>, p: Proposal, call: Call, answer: Answer)
    requires Follows(calls, p) && Uses(call, Some(p)) && !call.Propose?
    ensures Follows(Did(calls, call, answer), p)
  {
    hide Uses;
    var event := Event(call, Some(answer));
    ArgumentsGrow(calls, event);
    LastProposalAppend(calls, event);
  }

  lemma PlainSwitchFollows(w: World, input: Input, calls: seq<Event>, p: Proposal, out: Output)
    requires Follows(calls, p)
    ensures ArgumentsFollow(PlainSwitch(w, input, calls, p.height, out).calls)
  {
    hide ArgumentsFollow, LastProposal, ChainObservers.VerifyChainResumed;
    var arg := SwitchInputOf(input, p.height);
    var calls1 := Did(calls, Switch(arg), SwitchAnswer(w.switch(calls, arg)));
    CallFollows(calls, p, Switch(arg), SwitchAnswer(w.switch(calls, arg)));
    var verify := Verify(input.homeDir);
    var polls := w.polls(calls1, verify);
    var calls2 := Did(calls1, verify, PollAnswer(polls));
    CallFollows(calls1, p, verify, PollAnswer(polls));
    var second := Export(ExportInputOf(input));
    var exported := ExportAnswer(w.exportState(calls2, ExportInputOf(input)));
    var calls3 := Did(calls2, second, exported);
    CallFollows(calls2, p, second, exported);
    var version := SetVersion(input.homeDir, input.targetVersion);
    CallFollows(calls2, p, version, SetVersionAnswer(w.setVersion(calls2, input.targetVersion)));
    CallFollows(calls3, p, version, SetVersionAnswer(w.setVersion(calls3, input.targetVersion)));
  }

  lemma PlainWaitsFollow(w: World, input: Input, calls: seq<Event>, p: Proposal, out: Output)
    requires Follows(calls, p)
    ensures ArgumentsFollow(PlainWaitHeight(w, input, calls, p, out).calls)
  {
    hide ArgumentsFollow, LastProposal, PlainSwitch, ChainObservers.WaitForUpgradeHeight, ChainObservers.WaitForChainHalt;
    var call, other := WaitHeight(p.height), WaitHalt(p.height);
    var polls := w.polls(calls, call);
    var calls1 := Did(calls, call, PollAnswer(polls));
    CallFollows(calls, p, call, PollAnswer(polls));
    var polls1 := w.polls(calls1, other);
    CallFollows(calls1, p, other, PollAnswer(polls1));
    PlainSwitchFollows(w, input, Did(calls1, other, PollAnswer(polls1)), p, out);
  }

  lemma PlainProposeFollows(w: World, input: Input, calls: seq<Event>, out: Output)
    requires ArgumentsFollow(calls)
    ensures ArgumentsFollow(PlainPropose(w, input, calls, out).calls)
  {
    hide ArgumentsFollow, LastProposal, PlainWaitHeight;
    var arg := ProposeInputOf(input);
    var r := w.propose(calls, arg);
    var event := Event(Propose(arg), Some(ProposeAnswer(r)));
    ArgumentsGrow(calls, event);
    LastProposalAppend(calls, event);
    if r.Ok? {
      var calls1 := Did(calls, Propose(arg), ProposeAnswer(r));
      var vote := VoteInputOf(input, r.value.id);
      var voted := VoteAnswer(w.vote(calls1, vote));
      CallFollows(calls1, r.value, Vote(vote), voted);
      PlainWaitsFollow(w, input, Did(calls1, Vote(vote), voted), r.value,
                       out.(proposalID := r.value.id, upgradeHeight := r.value.height));
    }
  }

  /** In the plain governance run, too, every vote, wait and switch uses the
      proposal that was accepted before it. */
  lemma PlainArgumentsFollow(w: World, input: Input)
    ensures ArgumentsFollow(PlainGovernance(w, input, []).calls)
  {
    hide PlainPropose;
    PlainProposeFollows(w, input, [], BLANK);
    if input.withExport {
      var arg := ExportInputOf(input);
      var r := w.exportState([], arg);
      ArgumentsGrow([], Event(Export(arg), Some(ExportAnswer(r))));
      var calls1 := Did([], Export(arg), ExportAnswer(r));
      if r.Ok? && r.value.ExportOutput? {
        PlainProposeFollows(w, input, calls1, BLANK.(preGenesisPath := r.value.path));
      }
    }
  }
}
