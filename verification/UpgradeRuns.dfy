/** The invariants of UpgradeSafety hold across every stage, every run and every
    sequence of runs of the resumable upgrade. */
module UpgradeRuns {
  import opened Outcomes
  import opened UpgradeStates
  import opened UpgradeWorld
  import opened UpgradeWorkflow
  import opened UpgradeSafety
  import opened ChainObservers

  /** The invariant of a piece of the workflow that ended in `p`. */
  ghost predicate Keeps(skip: bool, p: Progress)
  {
    match p
    case Dead(m) => AtRest(skip, m)
    case Done(m, _, _) => AtRest(skip, m)
    case Onward(m, s, _) => Ready(skip, m, s)
  }

  // ---------------------------------------------------------------- the helpers

  /** The invariants do not see the tick counter. */
  lemma TicksUnseen(skip: bool, a: Machine, b: Machine)
    requires a.disk == b.disk && a.calls == b.calls && a.marks == b.marks && a.deleted == b.deleted
    ensures Kept(skip, a) == Kept(skip, b) && AtRest(skip, a) == AtRest(skip, b)
  {
  }

  /** A save of a successor of the state on disk. */
  lemma SaveNextKeeps(env: Env, skip: bool, m: Machine, t: State)
    requires Kept(skip, m) && !m.deleted && Collapsed(m.calls) <= Order(skip)
    requires Successor(skip, m.calls, t)
    ensures match Save(env, m, t)
            case Died(m1) => AtRest(skip, m1)
            case Lived(m1, true) => Ready(skip, m1, t)
            case Lived(m1, false) => AtRest(skip, m1)
  {
    hide Kept, Evidence;
    var m1 := Save(env, m, t).m;
    match env.fault(m.ticks)
    case Fine =>
      WriteKeeps(skip, m, t);
      TicksUnseen(skip, Written(m, t), m1);
    case Fails =>
      FaultSettles(skip, m, NotSaved);
      TicksUnseen(skip, Noted(m, NotSaved), m1);
    case Crash(applied) =>
      if applied {
        WriteKeeps(skip, m, t);
      }
      var written := if applied then Written(m, t) else m;
      FaultSettles(skip, written, Crashed);
      TicksUnseen(skip, Noted(written, Crashed), m1);
  }

  /** What a stage must have achieved before `target` may be recorded. */
  ghost predicate MayRecord(skip: bool, calls: seq<Event>, s: State, target: Stage) {
    || (target.Failed? && !s.stage.IsTerminal())
    || (&& NextStage(skip, s.stage) == Some(target)
        && |Collapsed(calls)| == Floor(skip, target)
        && Evidence(skip, calls, target, s.proposalID, s.upgradeHeight))
  }

  lemma TransitionIsSuccessor(
      env: Env, skip: bool, calls: seq<Event>, s: State, target: Stage, reason: Option<Failure>)
    requires IsWalk(s.history, s.stage) && OnPath(skip, s.stage) && MayRecord(skip, calls, s, target)
    ensures var t := TransitionTo(env.can, s, target, reason);
            t.Some? ==> Successor(skip, calls, t.value)
  {
    TransitionExtendsWalk(env.can, s, target, reason);
  }

  lemma TransitionKeeps(env: Env, skip: bool, m: Machine, s: State, target: Stage, reason: Option<Failure>)
    requires Within(skip, m, s) && MayRecord(skip, m.calls, s, target)
    ensures match TransitionAndSave(env, m, s, target, reason)
            case Died(m1) => AtRest(skip, m1)
            case Lived(m1, (t, None)) => Ready(skip, m1, t)
            case Lived(m1, (t, Some(_))) => AtRest(skip, m1)
  {
    hide Evidence, Successor, MayRecord, IsWalk;
    match TransitionTo(env.can, s, target, reason)
    case None => FaultSettles(skip, m, Refused);
    case Some(t) =>
      TransitionIsSuccessor(env, skip, m.calls, s, target, reason);
      SaveNextKeeps(env, skip, m, t);
  }

  lemma AbortKeeps(env: Env, skip: bool, m: Machine, s: State, out: Output, failure: Failure)
    requires Within(skip, m, s) && !s.stage.IsTerminal()
    ensures Keeps(skip, Abort(env, m, s, out, failure))
  {
    hide Kept, Evidence, TransitionAndSave;
    TransitionKeeps(env, skip, m, s, Failed, Some(failure));
  }

  lemma AdvanceKeeps(env: Env, skip: bool, m: Machine, s: State, out: Output, target: Stage)
    requires Within(skip, m, s) && NextStage(skip, s.stage) == Some(target)
    requires MayRecord(skip, m.calls, s, target)
    ensures Keeps(skip, Advance(env, m, s, out, target))
  {
    hide Kept, Evidence, TransitionAndSave;
    TransitionKeeps(env, skip, m, s, target, None);
  }

  lemma PerformKeeps(env: Env, skip: bool, m: Machine, s: State, call: Call, answer: Answer)
    requires Within(skip, m, s) && Due(skip, m.disk, call)
    requires EffectOf(call).Some? ==> Settled(Current(skip, m.disk), m.calls, m.marks)
    requires !skip ==> Uses(call, LastProposal(m.calls))
    requires call.Propose? ==> s.stage.Initialized?
    ensures match Perform(env, m, call, answer)
            case Died(m1) => AtRest(skip, m1)
            case Lived(m1, _) =>
              && Within(skip, m1, s) && m1.disk == m.disk
              && m1.calls == m.calls + [Event(call, Some(answer))]
              && |Collapsed(m1.calls)| ==
                 if EffectOf(call).Some? then Floor(skip, s.stage) + 1 else |Collapsed(m.calls)|
  {
    hide Kept, Evidence;
    var m1 := Perform(env, m, call, answer).m;
    match env.fault(m.ticks)
    case Crash(applied) =>
      var called := if applied then m.(calls := m.calls + [Event(call, None)]) else m;
      if applied {
        CallKeeps(skip, m, s, Event(call, None));
      }
      FaultSettles(skip, called, Crashed);
      TicksUnseen(skip, Noted(called, Crashed), m1);
    case _ =>
      var event := Event(call, Some(answer));
      CallKeeps(skip, m, s, event);
      TicksUnseen(skip, m.(calls := m.calls + [event]), m1);
  }

  /** A save that may fail silently, of the stage on disk. */
  lemma SaveKeeps(env: Env, skip: bool, m: Machine, t: State)
    requires Within(skip, m, t)
    requires Evidence(skip, m.calls, t.stage, t.proposalID, t.upgradeHeight)
    ensures match Save(env, m, t)
            case Died(m1) => AtRest(skip, m1)
            case Lived(m1, _) => Within(skip, m1, t) && m1.calls == m.calls
  {
    hide Kept, Evidence;
    RewriteKeeps(skip, m, t);
    var m1 := Save(env, m, t).m;
    match env.fault(m.ticks)
    case Fine => TicksUnseen(skip, Written(m, t), m1);
    case Fails =>
      MarkKeeps(skip, m, NotSaved);
      TicksUnseen(skip, Noted(m, NotSaved), m1);
    case Crash(applied) =>
      var written := if applied then Written(m, t) else m;
      FaultSettles(skip, written, Crashed);
      TicksUnseen(skip, Noted(written, Crashed), m1);
  }

  // ----------------------------------------------------------------- the stages

  lemma ReadyIsWithin(skip: bool, m: Machine, s: State)
    requires Ready(skip, m, s)
    ensures Within(skip, m, s)
  {
  }

  /** An accepted proposal is all the evidence ProposalSubmitted asks for. */
  lemma ProposedMayRecord(calls: seq<Event>, arg: ProposeInput, p: Proposal, t: State)
    requires t.stage.Initialized? && t.proposalID == p.id && t.upgradeHeight == p.height
    requires |Collapsed(calls + [Event(Propose(arg), Some(ProposeAnswer(Ok(p))))])| == 1
    ensures MayRecord(false, calls + [Event(Propose(arg), Some(ProposeAnswer(Ok(p))))], t, ProposalSubmitted)
  {
    LastProposalAppend(calls, Event(Propose(arg), Some(ProposeAnswer(Ok(p)))));
  }

  lemma ProposeKeeps(env: Env, input: Input, m: Machine, s: State, out: Output)
    requires !input.skipGovernance && s.stage.Initialized? && Ready(false, m, s)
    ensures Keeps(false, ProposeStage(env, input, m, s, out))
  {
    hide Kept, Evidence, MayRecord;
    var arg := ProposeInputOf(input);
    var r := env.world.propose(m.calls, arg);
    ReadyIsWithin(false, m, s);
    PerformKeeps(env, false, m, s, Propose(arg), ProposeAnswer(r));
    match Perform(env, m, Propose(arg), ProposeAnswer(r))
    case Died(_) =>
    case Lived(m1, _) =>
      match r
      case Err(e) => AbortKeeps(env, false, m1, s, out, External(e));
      case Ok(p) =>
        var t := s.(proposalID := p.id, upgradeHeight := p.height);
        ProposedMayRecord(m.calls, arg, p, t);
        AdvanceKeeps(env, false, m1, t, WithProposal(out, t), ProposalSubmitted);
  }

  /** The event that completes a stage. */
  ghost predicate Completes(event: Event, stage: Stage, id: nat, height: int)
  {
    match stage
    case Voting => VotedAt([event], 0, id)
    case WaitingForHeight => HeightReadAt([event], 0, height)
    case ChainHalted => HaltSeenAt([event], 0, height)
    case SwitchingBinary => SwitchedAt([event], 0, height)
    case VerifyingResume => ResumeSeenAt([event], 0)
    case _ => false
  }

  /** The completing event carries the evidence over to the next stage. */
  lemma EvidenceAdvances(skip: bool, calls: seq<Event>, event: Event, stage: Stage, id: nat, height: int)
    requires OnPath(skip, stage) && Evidence(skip, calls, stage, id, height)
    requires Completes(event, stage, id, height)
    ensures Evidence(skip, calls + [event], NextStage(skip, stage).value, id, height)
  {
    var calls1 := calls + [event];
    var n := |calls|;
    EvidenceGrows(skip, calls, event, stage, id, height);
    match stage
    case Voting => assert VotedAt(calls1, n, id);
    case WaitingForHeight => assert HeightReadAt(calls1, n, height);
    case ChainHalted => assert HaltSeenAt(calls1, n, height);
    case SwitchingBinary => assert SwitchedAt(calls1, n, height);
    case VerifyingResume =>
      var k: nat :| SwitchedAt(calls, k, height);
      assert SwitchedAt(calls1, k, height) && k < n && ResumeSeenAt(calls1, n);
  }

  /** What `Perform` leaves when the process lives, seen from the evidence. */
  ghost predicate Called(skip: bool, m: Machine, m1: Machine, s: State, call: Call, answer: Answer) {
    && Within(skip, m1, s)
    && m1.calls == m.calls + [Event(call, Some(answer))]
    && |Collapsed(m1.calls)| == Floor(skip, s.stage) + 1
    && Evidence(skip, m1.calls, s.stage, s.proposalID, s.upgradeHeight)
    && (Completes(Event(call, Some(answer)), s.stage, s.proposalID, s.upgradeHeight)
        ==> MayRecord(skip, m1.calls, s, NextStage(skip, s.stage).value))
  }

  lemma CalledEvidence(skip: bool, calls: seq<Event>, s: State, event: Event)
    requires OnPath(skip, s.stage) && Evidence(skip, calls, s.stage, s.proposalID, s.upgradeHeight)
    requires s.stage.Rank() >= Voting.Rank() && !s.stage.IsTerminal()
    requires !event.call.Propose? && |Collapsed(calls + [event])| == Floor(skip, s.stage) + 1
    ensures Evidence(skip, calls + [event], s.stage, s.proposalID, s.upgradeHeight)
    ensures Completes(event, s.stage, s.proposalID, s.upgradeHeight)
        ==> MayRecord(skip, calls + [event], s, NextStage(skip, s.stage).value)
  {
    hide Evidence, Completes, Collapsed;
    EvidenceGrows(skip, calls, event, s.stage, s.proposalID, s.upgradeHeight);
    if Completes(event, s.stage, s.proposalID, s.upgradeHeight) {
      EvidenceAdvances(skip, calls, event, s.stage, s.proposalID, s.upgradeHeight);
    }
  }

  /** What a stage may take from the state it loaded. */
  lemma ReadyFacts(skip: bool, m: Machine, s: State)
    requires Ready(skip, m, s) && s.stage.Rank() >= Voting.Rank() && !s.stage.IsTerminal()
    ensures Within(skip, m, s) && OnPath(skip, s.stage) && !m.deleted
    ensures !skip ==> LastProposal(m.calls) == Some(Proposal(s.proposalID, s.upgradeHeight))
    ensures Evidence(skip, m.calls, s.stage, s.proposalID, s.upgradeHeight)
  {
  }

  /** The call of a stage after the proposal, made with the arguments on disk. */
  lemma StageCallKeeps(env: Env, skip: bool, m: Machine, s: State, call: Call, answer: Answer)
    requires Ready(skip, m, s) && s.stage.Rank() >= Voting.Rank() && !s.stage.IsTerminal()
    requires EffectOf(call).Some? && EffectOf(call) == StageEffect(skip, s.stage)
    requires Uses(call, Some(Proposal(s.proposalID, s.upgradeHeight)))
    ensures match Perform(env, m, call, answer)
            case Died(m1) => AtRest(skip, m1)
            case Lived(m1, _) => Called(skip, m, m1, s, call, answer)
  {
    hide Kept, Evidence, Completes, MayRecord;
    ReadyFacts(skip, m, s);
    PerformKeeps(env, skip, m, s, call, answer);
    match Perform(env, m, call, answer)
    case Died(_) =>
    case Lived(m1, _) =>
      CalledEvidence(skip, m.calls, s, Event(call, Some(answer)));
      assert Within(skip, m1, s);
  }

  /** A reached verdict makes the poll of its stage a completing event. */
  lemma HeightCompletes(polls: seq<Poll>, id: nat, height: int)
    ensures WaitForUpgradeHeight(polls, height).Reached?
        ==> Completes(Event(WaitHeight(height), Some(PollAnswer(polls))), WaitingForHeight, id, height)
  {
    WaitForUpgradeHeightMeaning(polls, height);
  }

  /** A halt verdict makes the poll of the ChainHalted stage a completing event. */
  lemma HaltCompletes(polls: seq<Poll>, id: nat, height: int)
    ensures WaitForChainHalt(polls, height).Halted?
        ==> Completes(Event(WaitHalt(height), Some(PollAnswer(polls))), ChainHalted, id, height)
  {
    match WaitForChainHalt(polls, height)
    case Halted(k) => WaitForChainHaltMeaning(polls, height, k);
    case _ =>
  }

  /** A resume verdict makes the poll of the last stage a completing event. */
  lemma ResumeCompletes(polls: seq<Poll>, homeDir: string, id: nat, height: int)
    ensures VerifyChainResumed(polls).Resumed?
        ==> Completes(Event(Verify(homeDir), Some(PollAnswer(polls))), VerifyingResume, id, height)
  {
    match VerifyChainResumed(polls)
    case Resumed(h, k) => VerifyChainResumedMeaning(polls, h, k);
    case _ =>
  }

  /** What a stage with a silently failing save leaves. */
  ghost predicate Tracked(skip: bool, m1: Machine, s: State, t: State, event: Event) {
    && Within(skip, m1, t) && t.stage == s.stage
    && (Completes(event, s.stage, s.proposalID, s.upgradeHeight)
        ==> MayRecord(skip, m1.calls, t, NextStage(skip, s.stage).value))
  }

  lemma TrackingKeeps(env: Env, skip: bool, m: Machine, m1: Machine, s: State, t: State, call: Call, answer: Answer)
    requires Called(skip, m, m1, s, call, answer)
    requires t.stage == s.stage && t.history == s.history
    requires t.proposalID == s.proposalID && t.upgradeHeight == s.upgradeHeight
    ensures match Save(env, m1, t)
            case Died(m2) => AtRest(skip, m2)
            case Lived(m2, _) => Tracked(skip, m2, s, t, Event(call, Some(answer)))
  {
    hide Kept, Completes, Evidence;
    SaveKeeps(env, skip, m1, t);
  }

  lemma VotingKeeps(env: Env, input: Input, m: Machine, s: State)
    requires s.stage.Voting? && Ready(false, m, s)
    ensures match ExecuteVoting(env, input, m, s)
            case Died(m1) => AtRest(false, m1)
            case Lived(m1, (t, r)) =>
              Tracked(false, m1, s, t, Event(Vote(VoteInputOf(input, s.proposalID)), Some(VoteAnswer(r))))
  {
    hide Kept, Completes, MayRecord, Evidence, NodeSwitches.RecordVotes, NodeSwitches.UpsertAll;
    var arg := VoteInputOf(input, s.proposalID);
    var r := env.world.vote(m.calls, arg);
    StageCallKeeps(env, false, m, s, Vote(arg), VoteAnswer(r));
    match Perform(env, m, Vote(arg), VoteAnswer(r))
    case Died(_) =>
    case Lived(m1, _) =>
      if r.Ok? {
        var t := s.(votes := NodeSwitches.RecordVotes(s.votes, r.value.txHashes));
        TrackingKeeps(env, false, m, m1, s, t, Vote(arg), VoteAnswer(r));
      }
  }

  lemma SwitchingKeeps(env: Env, input: Input, m: Machine, s: State)
    requires s.stage.SwitchingBinary? && Ready(input.skipGovernance, m, s)
    ensures match ExecuteSwitchBinary(env, input, m, s)
            case Died(m1) => AtRest(input.skipGovernance, m1)
            case Lived(m1, (t, r)) =>
              Tracked(input.skipGovernance, m1, s, t,
                      Event(Switch(SwitchInputOf(input, s.upgradeHeight)), Some(SwitchAnswer(r))))
  {
    hide Kept, Completes, MayRecord, Evidence, NodeSwitches.RecordVotes, NodeSwitches.UpsertAll;
    var skip := input.skipGovernance;
    var arg := SwitchInputOf(input, s.upgradeHeight);
    var r := env.world.switch(m.calls, arg);
    StageCallKeeps(env, skip, m, s, Switch(arg), SwitchAnswer(r));
    match Perform(env, m, Switch(arg), SwitchAnswer(r))
    case Died(_) =>
    case Lived(m1, _) =>
      if r.Ok? {
        var t := s.(switches := NodeSwitches.UpsertAll(
          s.switches, r.value.nodesRestarted, r.value.oldBinary, r.value.newBinary));
        TrackingKeeps(env, skip, m, m1, s, t, Switch(arg), SwitchAnswer(r));
      }
  }

  lemma VoteKeeps(env: Env, input: Input, m: Machine, s: State, out: Output)
    requires !input.skipGovernance && s.stage.Voting? && Ready(false, m, s)
    ensures Keeps(false, VoteStage(env, input, m, s, out))
  {
    hide Kept, MayRecord, Evidence;
    var out1 := WithProposal(out, s);
    VotingKeeps(env, input, m, s);
    match ExecuteVoting(env, input, m, s)
    case Died(_) =>
    case Lived(m1, (t, Err(e))) => AbortKeeps(env, false, m1, t, out1, External(e));
    case Lived(m1, (t, Ok(v))) =>
      if v.votesCast != v.totalVoters {
        AbortKeeps(env, false, m1, t, out1, NotAllVotesCast(v.votesCast, v.totalVoters));
      } else {
        AdvanceKeeps(env, false, m1, t, out1, WaitingForHeight);
      }
  }

  lemma WaitHeightKeeps(env: Env, input: Input, m: Machine, s: State, out: Output)
    requires !input.skipGovernance && s.stage.WaitingForHeight? && Ready(false, m, s)
    ensures Keeps(false, WaitHeightStage(env, input, m, s, out))
  {
    hide Kept, MayRecord, Evidence;
    var out1 := WithProposal(out, s);
    var call := WaitHeight(s.upgradeHeight);
    var polls := env.world.polls(m.calls, call);
    StageCallKeeps(env, false, m, s, call, PollAnswer(polls));
    HeightCompletes(polls, s.proposalID, s.upgradeHeight);
    match Perform(env, m, call, PollAnswer(polls))
    case Died(_) =>
    case Lived(m1, _) =>
      if !WaitForUpgradeHeight(polls, s.upgradeHeight).Reached? {
        AbortKeeps(env, false, m1, s, out1, HeightNotReached);
      } else {
        AdvanceKeeps(env, false, m1, s, out1, ChainHalted);
      }
  }

  lemma WaitHaltKeeps(env: Env, input: Input, m: Machine, s: State, out: Output)
    requires !input.skipGovernance && s.stage.ChainHalted? && Ready(false, m, s)
    ensures Keeps(false, WaitHaltStage(env, input, m, s, out))
  {
    hide Kept, MayRecord, Evidence;
    var out1 := WithProposal(out, s);
    var call := WaitHalt(s.upgradeHeight);
    var polls := env.world.polls(m.calls, call);
    StageCallKeeps(env, false, m, s, call, PollAnswer(polls));
    HaltCompletes(polls, s.proposalID, s.upgradeHeight);
    match Perform(env, m, call, PollAnswer(polls))
    case Died(_) =>
    case Lived(m1, _) =>
      if !WaitForChainHalt(polls, s.upgradeHeight).Halted? {
        AbortKeeps(env, false, m1, s, out1, HaltNotDetected);
      } else {
        AdvanceKeeps(env, false, m1, s, out1, SwitchingBinary);
      }
  }

  lemma SwitchKeeps(env: Env, input: Input, m: Machine, s: State, out: Output)
    requires s.stage.SwitchingBinary? && Ready(input.skipGovernance, m, s)
    ensures Keeps(input.skipGovernance, SwitchStage(env, input, m, s, out))
  {
    hide Kept, MayRecord, Evidence;
    var skip := input.skipGovernance;
    var out1 := if skip then out else WithProposal(out, s);
    SwitchingKeeps(env, input, m, s);
    match ExecuteSwitchBinary(env, input, m, s)
    case Died(_) =>
    case Lived(m1, (t, Err(e))) => AbortKeeps(env, skip, m1, t, out1, External(e));
    case Lived(m1, (t, Ok(w))) => AdvanceKeeps(env, skip, m1, t, out1.(newBinary := w.newBinary), VerifyingResume);
  }

  lemma VerifyKeeps(env: Env, input: Input, m: Machine, s: State, out: Output)
    requires s.stage.VerifyingResume? && Ready(input.skipGovernance, m, s)
    ensures Keeps(input.skipGovernance, VerifyStage(env, input, m, s, out))
  {
    hide Kept, MayRecord, Evidence;
    var skip := input.skipGovernance;
    var out1 := if skip then out else WithProposal(out, s);
    var call := Verify(input.homeDir);
    var polls := env.world.polls(m.calls, call);
    StageCallKeeps(env, skip, m, s, call, PollAnswer(polls));
    ResumeCompletes(polls, input.homeDir, s.proposalID, s.upgradeHeight);
    match Perform(env, m, call, PollAnswer(polls))
    case Died(_) =>
    case Lived(m1, _) =>
      match VerifyChainResumed(polls) {
        case Resumed(h, _) =>
          PostExportKeeps(env, input, m1, s, out1.(postUpgradeHeight := h));
          match PostExport(env, input, m1, out1.(postUpgradeHeight := h)) {
            case Died(_) =>
            case Lived(m2, out2) => AdvanceKeeps(env, skip, m2, s, out2, Completed);
          }
        case _ => AbortKeeps(env, skip, m1, s, out1, ResumeNotDetected);
      }
  }

  lemma PostExportKeeps(env: Env, input: Input, m: Machine, s: State, out: Output)
    requires Within(input.skipGovernance, m, s) && s.stage.VerifyingResume?
    requires MayRecord(input.skipGovernance, m.calls, s, Completed)
    ensures match PostExport(env, input, m, out)
            case Died(m1) => AtRest(input.skipGovernance, m1)
            case Lived(m1, _) =>
              Within(input.skipGovernance, m1, s) && MayRecord(input.skipGovernance, m1.calls, s, Completed)
  {
    hide Kept, Evidence;
    var skip := input.skipGovernance;
    if !skip && input.withExport {
      var arg := ExportInputOf(input);
      var r := env.world.exportState(m.calls, arg);
      PerformKeeps(env, skip, m, s, Export(arg), ExportAnswer(r));
      EvidenceGrows(skip, m.calls, Event(Export(arg), Some(ExportAnswer(r))), Completed, s.proposalID, s.upgradeHeight);
    }
  }

  lemma FinishKeeps(env: Env, input: Input, m: Machine, s: State, out: Output)
    requires s.stage.Completed? && Ready(input.skipGovernance, m, s)
    ensures Keeps(input.skipGovernance, FinishStage(env, input, m, s, out))
  {
    hide Kept, Settled, AtRest, Within, Ready, Perform, Delete;
    var skip := input.skipGovernance;
    ReadyIsWithin(skip, m, s);
    if input.targetVersion == "" {
      DeleteKeeps(env, skip, m, s);
    } else {
      var call := SetVersion(input.homeDir, input.targetVersion);
      var answer := SetVersionAnswer(env.world.setVersion(m.calls, input.targetVersion));
      SetVersionKeeps(env, skip, m, s, call, answer);
      match Perform(env, m, call, answer)
      case Died(_) =>
      case Lived(n, _) => DeleteKeeps(env, skip, n, s);
    }
  }

  /** Recording the version is no chain effect. */
  lemma SetVersionKeeps(env: Env, skip: bool, m: Machine, s: State, call: Call, answer: Answer)
    requires Within(skip, m, s) && call.SetVersion?
    ensures match Perform(env, m, call, answer)
            case Died(m1) => AtRest(skip, m1)
            case Lived(m1, _) => Within(skip, m1, s)
  {
    hide Kept, Settled, AtRest, Within, Perform;
    PerformKeeps(env, skip, m, s, call, answer);
  }

  /** Without the state file there is no stage to be in; all effects are done. */
  lemma RemovedKeeps(skip: bool, m: Machine, s: State)
    requires Within(skip, m, s) && s.stage.Completed?
    ensures Kept(skip, m.(disk := None, deleted := true))
  {
    hide RepeatsExplained, ArgumentsFollow, Collapsed, IsWalk, MarksInRange;
  }

  lemma DeletedAtRest(skip: bool, m: Machine, s: State)
    requires Within(skip, m, s) && s.stage.Completed?
    ensures AtRest(skip, Removed(m)) && AtRest(skip, Noted(Removed(m), Crashed))
  {
    RemovedKeeps(skip, m, s);
    NoDiskNoEffect(skip);
    hide Kept, AtRest, Current;
    MarkKeeps(skip, m.(disk := None, deleted := true), Deleted);
    NothingToSettle(skip, Removed(m));
    FaultSettles(skip, Removed(m), Crashed);
  }

  lemma NotDeletedAtRest(skip: bool, m: Machine, s: State)
    requires Within(skip, m, s) && s.stage.Completed?
    ensures AtRest(skip, Noted(m, NotDeleted)) && AtRest(skip, Noted(m, Crashed))
  {
    assert Kept(skip, m) && Current(skip, m.disk) == None;
    hide Kept, AtRest, Current, Within;
    MarkKeeps(skip, m, NotDeleted);
    NothingToSettle(skip, Noted(m, NotDeleted));
    FaultSettles(skip, m, Crashed);
  }

  lemma DeleteKeeps(env: Env, skip: bool, m: Machine, s: State)
    requires Within(skip, m, s) && s.stage.Completed?
    ensures match Delete(env, m)
            case Died(m1) => AtRest(skip, m1)
            case Lived(m1, _) => AtRest(skip, m1)
  {
    hide AtRest, Within;
    DeletedAtRest(skip, m, s);
    NotDeletedAtRest(skip, m, s);
    var m1 := Delete(env, m).m;
    match env.fault(m.ticks)
    case Fine => TicksUnseen(skip, Removed(m), m1);
    case Fails => TicksUnseen(skip, Noted(m, NotDeleted), m1);
    case Crash(applied) => TicksUnseen(skip, Noted(if applied then Removed(m) else m, Crashed), m1);
  }

  lemma NoDiskNoEffect(skip: bool)
    ensures Current(skip, None) == None
  {
  }

  /** A stage without an effect leaves nothing to settle. */
  lemma NothingToSettle(skip: bool, m: Machine)
    requires Kept(skip, m) && Current(skip, m.disk) == None
    ensures AtRest(skip, m)
  {
  }

  // ------------------------------------------------------------------- the runs

  /** The two stages that move on without a call. */
  lemma CalllessKeeps(env: Env, skip: bool, m: Machine, s: State, out: Output)
    requires Ready(skip, m, s)
    requires if skip then s.stage.Initialized? else s.stage.ProposalSubmitted?
    ensures Keeps(skip, Advance(env, m, s, out, NextStage(skip, s.stage).value))
  {
    AdvanceKeeps(env, skip, m, s, out, NextStage(skip, s.stage).value);
  }

  lemma StageKeeps(env: Env, input: Input, m: Machine, s: State, out: Output)
    requires Ready(input.skipGovernance, m, s)
    ensures Keeps(input.skipGovernance, RunStage(env, input, m, s, out))
  {
    hide AtRest, ProposeStage, VoteStage, WaitHeightStage, WaitHaltStage, SwitchStage, VerifyStage, FinishStage, Advance;
    match s.stage
    case Initialized =>
      if input.skipGovernance {
        CalllessKeeps(env, true, m, s, out);
      } else {
        ProposeKeeps(env, input, m, s, out);
      }
    case ProposalSubmitted =>
      if !input.skipGovernance {
        CalllessKeeps(env, false, m, s, out);
      }
    case Voting => if !input.skipGovernance { VoteKeeps(env, input, m, s, out); }
    case WaitingForHeight => if !input.skipGovernance { WaitHeightKeeps(env, input, m, s, out); }
    case ChainHalted => if !input.skipGovernance { WaitHaltKeeps(env, input, m, s, out); }
    case SwitchingBinary => SwitchKeeps(env, input, m, s, out);
    case VerifyingResume => VerifyKeeps(env, input, m, s, out);
    case Completed => FinishKeeps(env, input, m, s, out);
    case _ =>
  }

  lemma {:induction false} RunKeeps(env: Env, input: Input, m: Machine, s: State, out: Output)
    requires Ready(input.skipGovernance, m, s)
    ensures Keeps(input.skipGovernance, RunFrom(env, input, m, s, out))
    decreases 7 - s.stage.Rank()
  {
    hide AtRest, ProposeStage, VoteStage, WaitHeightStage, WaitHaltStage, SwitchStage, VerifyStage, FinishStage, Advance;
    StageKeeps(env, input, m, s, out);
    match RunStage(env, input, m, s, out)
    case Onward(m1, s1, out1) => RunKeeps(env, input, m1, s1, out1);
    case _ =>
  }

  lemma LoadedKeeps(env: Env, input: Input, m: Machine, s: State)
    requires Ready(input.skipGovernance, m, s)
    ensures Keeps(input.skipGovernance, RunLoaded(env, input, m, s))
  {
    hide AtRest, ProposeStage, VoteStage, WaitHeightStage, WaitHaltStage, SwitchStage, VerifyStage, FinishStage, Advance;
    var skip := input.skipGovernance;
    match PreExport(env, input, m, s)
    case Dead(_) => ExportFirstKeeps(env, input, m, s);
    case Done(_, _, _) => ExportFirstKeeps(env, input, m, s);
    case Onward(m1, s1, out) =>
      ExportFirstKeeps(env, input, m, s);
      RunKeeps(env, input, m1, s1, out);
  }

  lemma ExportFirstKeeps(env: Env, input: Input, m: Machine, s: State)
    requires Ready(input.skipGovernance, m, s)
    ensures Keeps(input.skipGovernance, PreExport(env, input, m, s))
  {
    hide Kept, Settled;
    ReadyIsWithin(input.skipGovernance, m, s);
    var skip := input.skipGovernance;
    if !skip && s.stage.Initialized? && input.withExport {
      var arg := ExportInputOf(input);
      var r := env.world.exportState(m.calls, arg);
      var event := Event(Export(arg), Some(ExportAnswer(r)));
      PerformKeeps(env, skip, m, s, Export(arg), ExportAnswer(r));
      SettledGrows(Current(skip, m.disk), m.calls, m.marks, event);
    }
  }

  /** A call without a chain effect leaves nothing to settle. */
  lemma SettledGrows(current: Option<Effect>, calls: seq<Event>, marks: seq<Mark>, event: Event)
    requires Settled(current, calls, marks) && EffectOf(event.call) == None
    ensures Settled(current, calls + [event], marks)
  {
    if current.Some? {
      forall i: nat | Performs(calls + [event], i, current.value)
        ensures FaultBetween(marks, i, |calls| + 1)
      {
        assert Performs(calls, i, current.value);
        var q :| 0 <= q < |marks| && marks[q].kind.IsFault() && i < marks[q].at <= |calls|;
      }
    }
  }

  lemma FreshIsSuccessor(skip: bool, m: Machine, plan: Plan, upgradeHeight: int)
    requires AtRest(skip, m) && !m.deleted && m.disk.None?
    ensures Collapsed(m.calls) == [] && Successor(skip, m.calls, NewState(plan, upgradeHeight))
  {
  }

  /** One `Execute` keeps the invariants, whatever happens to it. */
  lemma ExecuteKeeps(env: Env, input: Input, m: Machine)
    requires AtRest(input.skipGovernance, m) && !m.deleted
    ensures Keeps(input.skipGovernance, Execute(env, input, m))
  {
    hide Kept, Successor, RunLoaded, Save;
    var skip := input.skipGovernance;
    match m.disk
    case Some(s) => LoadedKeeps(env, input, m, s);
    case None =>
      var s := NewState(PlanOf(input), input.upgradeHeight);
      FreshIsSuccessor(skip, m, PlanOf(input), input.upgradeHeight);
      SaveNextKeeps(env, skip, m, s);
      match Save(env, m, s)
      case Lived(m1, true) => LoadedKeeps(env, input, m1, s);
      case _ =>
  }

  /** The invariants hold after any number of runs with the same governance mode,
      for every environment and every pattern of faults. */
  lemma {:induction false} SessionsKeep(env: Env, inputs: seq<Input>, skip: bool)
    requires forall i :: 0 <= i < |inputs| ==> inputs[i].skipGovernance == skip
    ensures AtRest(skip, Sessions(env, inputs))
  {
    if inputs != [] {
      SessionsKeep(env, inputs[..|inputs| - 1], skip);
      var m := Sessions(env, inputs[..|inputs| - 1]);
      if !m.deleted {
        ExecuteKeeps(env, inputs[|inputs| - 1], m);
      }
    }
  }

  // --------------------------------------------------------------- the theorems

  lemma RestIsOrdered(skip: bool, m: Machine)
    requires AtRest(skip, m)
    ensures Collapsed(m.calls) <= Order(skip)
    ensures m.deleted || (m.disk.Some? && m.disk.value.stage.Completed?) ==> Collapsed(m.calls) == Order(skip)
  {
    hide RepeatsExplained, StageNotLeft, Testified, MarksInRange, Walked, Settled, Collapsed;
  }

  lemma RestExplainsRepeats(skip: bool, m: Machine, i: nat, j: nat, e: Effect)
    requires AtRest(skip, m) && i < j && Performs(m.calls, i, e) && Performs(m.calls, j, e)
    ensures FaultBetween(m.marks, i, j) && OnlySaves(skip, m.marks, i, j, e)
  {
    hide Ordered, StageNotLeft, Testified, MarksInRange, Walked, Settled;
  }

  /** Crash-resume safety: whatever crashes, failed saves, refused transitions and
      resumes happen, the chain effects with repeats collapsed are a prefix of the
      order of the workflow, and the whole order once the state file is deleted. */
  lemma CrashResumeOrder(env: Env, inputs: seq<Input>, skip: bool)
    requires forall i :: 0 <= i < |inputs| ==> inputs[i].skipGovernance == skip
    ensures var m := Sessions(env, inputs);
            && Collapsed(m.calls) <= Order(skip)
            && (m.deleted || (m.disk.Some? && m.disk.value.stage.Completed?)
                ==> Collapsed(m.calls) == Order(skip))
  {
    SessionsKeep(env, inputs, skip);
    RestIsOrdered(skip, Sessions(env, inputs));
  }

  /** An effect is repeated only after a fault that kept its outcome from being
      persisted, and only while no other stage was left on disk. */
  lemma CrashResumeRepeats(env: Env, inputs: seq<Input>, skip: bool, i: nat, j: nat, e: Effect)
    requires forall k :: 0 <= k < |inputs| ==> inputs[k].skipGovernance == skip
    requires var calls := Sessions(env, inputs).calls;
             i < j && Performs(calls, i, e) && Performs(calls, j, e)
    ensures var m := Sessions(env, inputs);
            FaultBetween(m.marks, i, j) && OnlySaves(skip, m.marks, i, j, e)
  {
    SessionsKeep(env, inputs, skip);
    RestExplainsRepeats(skip, Sessions(env, inputs), i, j, e);
  }

  /** Every persisted stage testifies to what happened, and every vote, wait and
      switch used the proposal last accepted before it. */
  lemma PersistedEvidence(env: Env, inputs: seq<Input>, skip: bool)
    requires forall i :: 0 <= i < |inputs| ==> inputs[i].skipGovernance == skip
    ensures var m := Sessions(env, inputs);
            && (m.disk.Some? ==>
                  var s := m.disk.value; Evidence(skip, m.calls, s.stage, s.proposalID, s.upgradeHeight))
            && (!skip ==> ArgumentsFollow(m.calls))
  {
    SessionsKeep(env, inputs, skip);
  }

  /** The persisted history is a walk from Initialized to the persisted stage,
      without repeats and with at most eight entries. */
  lemma PersistedHistory(env: Env, inputs: seq<Input>, skip: bool)
    requires forall i :: 0 <= i < |inputs| ==> inputs[i].skipGovernance == skip
    requires Sessions(env, inputs).disk.Some?
    ensures var s := Sessions(env, inputs).disk.value;
            && IsWalk(s.history, s.stage) && |s.history| <= 8
            && forall i, j :: 0 <= i < j < |s.history| ==> s.history[i].to != s.history[j].to
  {
    SessionsKeep(env, inputs, skip);
    var s := Sessions(env, inputs).disk.value;
    WalkIsShort(s.history, s.stage);
  }

  predicate Refusing(m: Machine) {
    !m.deleted && m.disk.Some? && (m.disk.value.stage.Failed? || m.disk.value.stage.ProposalRejected?)
  }

  /** A run on a failed or rejected upgrade, in either mode, performs no call,
      touches no state and reports no output. */
  lemma RefusingRunIsInert(env: Env, input: Input, m: Machine)
    requires Refusing(m)
    ensures var p := Execute(env, input, m);
            p.Done? && p.m == m && Some(p.s) == m.disk && p.ret.output.None? && p.ret.err.Some?
  {
    assert RunLoaded(env, input, m, m.disk.value) == RunFrom(env, input, m, m.disk.value, BLANK);
  }

  /** Failed and ProposalRejected absorb: once either is on disk, no number of
      later runs performs a call or changes the stored state. */
  lemma {:induction false} FailureAbsorbs(env: Env, inputs: seq<Input>, n: nat)
    requires n <= |inputs| && Refusing(Sessions(env, inputs[..n]))
    ensures Sessions(env, inputs) == Sessions(env, inputs[..n])
  {
    hide Execute;
    if n < |inputs| {
      var init := inputs[..|inputs| - 1];
      assert init[..n] == inputs[..n];
      FailureAbsorbs(env, init, n);
      RefusingRunIsInert(env, inputs[|inputs| - 1], Sessions(env, init));
    } else {
      assert inputs[..n] == inputs;
    }
  }
}
