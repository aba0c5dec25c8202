/** The upgrade use cases in the form of the source: objects whose fields the
    steps update in place. Each method is proved to do what the functions of
    UpgradeWorkflow and UpgradeRefinement say. The death of the process is an
    early return. */
module UpgradeUseCase {
  import opened Outcomes
  import opened UpgradeStates
  import opened UpgradeWorld
  import opened UpgradeWorkflow
  import opened UpgradeRefinement
  import opened ChainObservers
  import NodeSwitches

  /** The in-memory upgrade state. */
  class UpgradeState {
    const plan: Plan
    var stage: Stage
    var proposalID: nat
    var upgradeHeight: int
    var validatorVotes: seq<ValidatorVote>
    var nodeSwitches: seq<NodeSwitch>
    var error: Option<Failure>
    var stageHistory: seq<Transition>

    function Snapshot(): State
      reads this
    {
      State(plan, stage, proposalID, upgradeHeight, validatorVotes, nodeSwitches, error, stageHistory)
    }

    constructor (plan: Plan, upgradeHeight: int)
      ensures Snapshot() == NewState(plan, upgradeHeight)
    {
      this.plan := plan;
      stage := Initialized;
      proposalID := 0;
      this.upgradeHeight := upgradeHeight;
      validatorVotes := [];
      nodeSwitches := [];
      error := None;
      stageHistory := [Transition(None, Initialized)];
    }

    method TransitionTo(can: (Stage, Stage) -> bool, target: Stage, reason: Option<Failure>) returns (ok: bool)
      modifies this
      ensures match UpgradeStates.TransitionTo(can, old(Snapshot()), target, reason)
              case None => !ok && Snapshot() == old(Snapshot())
              case Some(t) => ok && Snapshot() == t
    {
      if !can(stage, target) {
        return false;
      }
      stageHistory := stageHistory + [Transition(Some(stage), target)];
      stage := target;
      if target == Failed && error == None {
        error := reason;
      }
      return true;
    }
  }

  datatype SaveResult = KilledInSave | SaveOk | SaveError

  /** The world outside the process: the calls it received and the state file. */
  class Outside {
    const env: Env
    var disk: Option<State>
    var calls: seq<Event>
    var marks: seq<Mark>
    var ticks: nat
    var deleted: bool

    constructor (env: Env, disk: Option<State>)
      ensures this.env == env && View() == FRESH.(disk := disk)
    {
      this.env := env;
      this.disk := disk;
      calls, marks, ticks, deleted := [], [], 0, false;
    }

    function View(): Machine
      reads this
    {
      Machine(disk, calls, marks, ticks, deleted)
    }

    /** One call; false when the process died in it. */
    method Perform(call: Call, answer: Answer) returns (alive: bool)
      modifies this
      ensures View() == UpgradeWorld.Perform(env, old(View()), call, answer).m
      ensures alive == UpgradeWorld.Perform(env, old(View()), call, answer).Lived?
    {
      var fault := env.fault(ticks);
      ticks := ticks + 1;
      match fault
      case Crash(applied) =>
        if applied {
          calls := calls + [Event(call, None)];
        }
        marks := marks + [Mark(|calls|, Crashed)];
        return false;
      case _ =>
        calls := calls + [Event(call, Some(answer))];
        return true;
    }

    method SaveState(state: UpgradeState) returns (r: SaveResult)
      modifies this
      ensures View() == Save(env, old(View()), state.Snapshot()).m
      ensures match Save(env, old(View()), state.Snapshot())
              case Died(_) => r == KilledInSave
              case Lived(_, ok) => r == if ok then SaveOk else SaveError
    {
      var fault := env.fault(ticks);
      ticks := ticks + 1;
      if fault == Fine || fault == Crash(true) {
        disk := Some(state.Snapshot());
        marks := marks + [Mark(|calls|, Saved(state.stage))];
      }
      match fault
      case Fine => return SaveOk;
      case Fails =>
        marks := marks + [Mark(|calls|, NotSaved)];
        return SaveError;
      case Crash(_) =>
        marks := marks + [Mark(|calls|, Crashed)];
        return KilledInSave;
    }

    method DeleteState() returns (alive: bool)
      modifies this
      ensures View() == Delete(env, old(View())).m
      ensures alive == Delete(env, old(View())).Lived?
    {
      var fault := env.fault(ticks);
      ticks := ticks + 1;
      if fault == Fine || fault == Crash(true) {
        disk := None;
        deleted := true;
        marks := marks + [Mark(|calls|, Deleted)];
      }
      match fault
      case Fine => return true;
      case Fails =>
        marks := marks + [Mark(|calls|, NotDeleted)];
        return true;
      case Crash(_) =>
        marks := marks + [Mark(|calls|, Crashed)];
        return false;
    }

    method NoteRefusal()
      modifies this
      ensures View() == Noted(old(View()), Refused)
    {
      marks := marks + [Mark(|calls|, Refused)];
    }
  }

  /** How a method of the use case ended. */
  datatype Flow = Killed | Returned(ret: Return) | Fallthrough

  /** The method that ended with `flow`, leaving `m`, `s` and `out`, did `p`. */
  predicate Matches(p: Progress, flow: Flow, m: Machine, s: State, out: Output)
  {
    match p
    case Dead(m1) => flow == Killed && m == m1
    case Done(m1, s1, ret) => flow == Returned(ret) && m == m1 && s == s1
    case Onward(m1, s1, out1) => flow == Fallthrough && m == m1 && s == s1 && out == out1
  }

  /** The run that ended with `flow`, leaving `m` and `s`, did `p`. */
  predicate Ended(p: Progress, flow: Flow, m: Machine, s: State)
  {
    match p
    case Dead(m1) => flow == Killed && m == m1
    case Done(m1, s1, ret) => flow == Returned(ret) && m == m1 && s == s1
    case Onward(_, _, _) => false
  }

  /** The switch continues from the end of a stage. */
  ghost function Continue(env: Env, input: Input, p: Progress): Progress {
    if p.Onward? then RunFrom(env, input, p.m, p.s, p.out) else p
  }

  /** Which case the switch enters, and that it falls through from there. */
  lemma SwitchEnters(env: Env, input: Input, m: Machine, s: State, out: Output)
    ensures var p := RunStage(env, input, m, s, out);
            RunFrom(env, input, m, s, out) == Continue(env, input, p)
    ensures RunStage(env, input, m, s, out) ==
            match s.stage
            case SwitchingBinary => SwitchStage(env, input, m, s, out)
            case VerifyingResume => VerifyStage(env, input, m, s, out)
            case Completed => FinishStage(env, input, m, s, out)
            case Initialized =>
              if input.skipGovernance then UpgradeWorkflow.Advance(env, m, s, out, SwitchingBinary)
              else ProposeStage(env, input, m, s, out)
            case _ =>
              if input.skipGovernance then Done(m, s, Return(None, Some(CannotResume(s.stage))))
              else
                match s.stage
                case ProposalSubmitted => UpgradeWorkflow.Advance(env, m, s, out, Voting)
                case Voting => VoteStage(env, input, m, s, out)
                case WaitingForHeight => WaitHeightStage(env, input, m, s, out)
                case ChainHalted => WaitHaltStage(env, input, m, s, out)
                case Failed => Done(m, s, Return(None, Some(PreviouslyFailed(s.error))))
                case _ => Done(m, s, Return(None, Some(WasRejected)))
  {
  }

  class ResumableExecuteUpgradeUseCase {
    const outside: Outside

    constructor (outside: Outside)
      ensures this.outside == outside
    {
      this.outside := outside;
    }

    method TransitionAndSave(state: UpgradeState, target: Stage, reason: Option<Failure>)
      returns (alive: bool, err: Option<Failure>)
      modifies state, outside
      ensures match UpgradeWorkflow.TransitionAndSave(
                outside.env, old(outside.View()), old(state.Snapshot()), target, reason)
              case Died(m) => !alive && outside.View() == m
              case Lived(m, r) => alive && outside.View() == m && state.Snapshot() == r.0 && err == r.1
    {
      var from := state.stage;
      var ok := state.TransitionTo(outside.env.can, target, reason);
      if !ok {
        outside.NoteRefusal();
        return true, Some(InvalidTransition(from, target));
      }
      var saved := outside.SaveState(state);
      match saved
      case KilledInSave => return false, None;
      case SaveError => return true, Some(SaveFailed(target));
      case SaveOk => return true, None;
    }

    method Abort(state: UpgradeState, out: Output, failure: Failure) returns (flow: Flow)
      modifies state, outside
      ensures Matches(
                UpgradeWorkflow.Abort(outside.env, old(outside.View()), old(state.Snapshot()), out, failure),
                flow, outside.View(), state.Snapshot(), out)
    {
      var alive, _ := TransitionAndSave(state, Failed, Some(failure));
      if !alive {
        return Killed;
      }
      return Returned(Return(Some(out.(error := Some(failure))), Some(failure)));
    }

    method Advance(state: UpgradeState, out: Output, target: Stage) returns (flow: Flow)
      modifies state, outside
      ensures Matches(
                UpgradeWorkflow.Advance(outside.env, old(outside.View()), old(state.Snapshot()), out, target),
                flow, outside.View(), state.Snapshot(), out)
    {
      var alive, err := TransitionAndSave(state, target, None);
      if !alive {
        return Killed;
      }
      if err.Some? {
        return Returned(Return(None, err));
      }
      return Fallthrough;
    }

    method ExecuteVoting(input: Input, state: UpgradeState) returns (alive: bool, r: Result<VoteOutput, string>)
      modifies state, outside
      ensures match UpgradeWorkflow.ExecuteVoting(outside.env, input, old(outside.View()), old(state.Snapshot()))
              case Died(m) => !alive && outside.View() == m
              case Lived(m, v) => alive && outside.View() == m && state.Snapshot() == v.0 && r == v.1
    {
      var arg := VoteInputOf(input, state.proposalID);
      r := outside.env.world.vote(outside.calls, arg);
      alive := outside.Perform(Vote(arg), VoteAnswer(r));
      if !alive || r.Err? {
        return;
      }
      state.validatorVotes := NodeSwitches.RunRecordVotes(state.validatorVotes, r.value.txHashes);
      var saved := outside.SaveState(state);
      alive := saved != KilledInSave;
    }

    method ExecuteSwitchBinary(input: Input, state: UpgradeState)
      returns (alive: bool, r: Result<SwitchOutput, string>)
      modifies state, outside
      ensures match UpgradeWorkflow.ExecuteSwitchBinary(
                outside.env, input, old(outside.View()), old(state.Snapshot()))
              case Died(m) => !alive && outside.View() == m
              case Lived(m, v) => alive && outside.View() == m && state.Snapshot() == v.0 && r == v.1
    {
      var arg := SwitchInputOf(input, state.upgradeHeight);
      r := outside.env.world.switch(outside.calls, arg);
      alive := outside.Perform(Switch(arg), SwitchAnswer(r));
      if !alive || r.Err? {
        return;
      }
      state.nodeSwitches := NodeSwitches.RecordSwitch(
        state.nodeSwitches, r.value.nodesRestarted, r.value.oldBinary, r.value.newBinary);
      var saved := outside.SaveState(state);
      alive := saved != KilledInSave;
    }

    method SubmitProposal(input: Input, state: UpgradeState, out0: Output) returns (flow: Flow, out: Output)
      modifies state, outside
      ensures Matches(
                ProposeStage(outside.env, input, old(outside.View()), old(state.Snapshot()), out0),
                flow, outside.View(), state.Snapshot(), out)
    {
      out := out0;
      var arg := ProposeInputOf(input);
      var r := outside.env.world.propose(outside.calls, arg);
      var alive := outside.Perform(Propose(arg), ProposeAnswer(r));
      if !alive {
        return Killed, out;
      }
      match r
      case Err(e) => flow := Abort(state, out, External(e));
      case Ok(p) =>
        state.proposalID := p.id;
        state.upgradeHeight := p.height;
        out := out.(proposalID := p.id, upgradeHeight := p.height);
        flow := Advance(state, out, ProposalSubmitted);
    }

    method VoteFromAll(input: Input, state: UpgradeState, out0: Output) returns (flow: Flow, out: Output)
      modifies state, outside
      ensures Matches(
                VoteStage(outside.env, input, old(outside.View()), old(state.Snapshot()), out0),
                flow, outside.View(), state.Snapshot(), out)
    {
      out := out0.(proposalID := state.proposalID, upgradeHeight := state.upgradeHeight);
      var alive, r := ExecuteVoting(input, state);
      if !alive {
        return Killed, out;
      }
      match r
      case Err(e) => flow := Abort(state, out, External(e));
      case Ok(v) =>
        if v.votesCast != v.totalVoters {
          flow := Abort(state, out, NotAllVotesCast(v.votesCast, v.totalVoters));
        } else {
          flow := Advance(state, out, WaitingForHeight);
        }
    }

    method AwaitHeight(input: Input, state: UpgradeState, out0: Output) returns (flow: Flow, out: Output)
      modifies state, outside
      ensures Matches(
                WaitHeightStage(outside.env, input, old(outside.View()), old(state.Snapshot()), out0),
                flow, outside.View(), state.Snapshot(), out)
    {
      out := out0.(proposalID := state.proposalID, upgradeHeight := state.upgradeHeight);
      var call := WaitHeight(state.upgradeHeight);
      var polls := outside.env.world.polls(outside.calls, call);
      var alive := outside.Perform(call, PollAnswer(polls));
      if !alive {
        return Killed, out;
      }
      var verdict := RunWaitForUpgradeHeight(polls, state.upgradeHeight);
      if !verdict.Reached? {
        flow := Abort(state, out, HeightNotReached);
      } else {
        flow := Advance(state, out, ChainHalted);
      }
    }

    method AwaitHalt(input: Input, state: UpgradeState, out0: Output) returns (flow: Flow, out: Output)
      modifies state, outside
      ensures Matches(
                WaitHaltStage(outside.env, input, old(outside.View()), old(state.Snapshot()), out0),
                flow, outside.View(), state.Snapshot(), out)
    {
      out := out0.(proposalID := state.proposalID, upgradeHeight := state.upgradeHeight);
      var call := WaitHalt(state.upgradeHeight);
      var polls := outside.env.world.polls(outside.calls, call);
      var alive := outside.Perform(call, PollAnswer(polls));
      if !alive {
        return Killed, out;
      }
      var verdict := RunWaitForChainHalt(polls, state.upgradeHeight);
      if !verdict.Halted? {
        flow := Abort(state, out, HaltNotDetected);
      } else {
        flow := Advance(state, out, SwitchingBinary);
      }
    }

    method SwitchBinary(input: Input, state: UpgradeState, out0: Output) returns (flow: Flow, out: Output)
      modifies state, outside
      ensures Matches(
                SwitchStage(outside.env, input, old(outside.View()), old(state.Snapshot()), out0),
                flow, outside.View(), state.Snapshot(), out)
    {
      out := out0;
      if !input.skipGovernance {
        out := out.(proposalID := state.proposalID, upgradeHeight := state.upgradeHeight);
      }
      var alive, r := ExecuteSwitchBinary(input, state);
      if !alive {
        return Killed, out;
      }
      match r
      case Err(e) => flow := Abort(state, out, External(e));
      case Ok(w) =>
        out := out.(newBinary := w.newBinary);
        flow := Advance(state, out, VerifyingResume);
    }

    method VerifyResume(input: Input, state: UpgradeState, out0: Output) returns (flow: Flow, out: Output)
      modifies state, outside
      ensures Matches(
                VerifyStage(outside.env, input, old(outside.View()), old(state.Snapshot()), out0),
                flow, outside.View(), state.Snapshot(), out)
    {
      out := out0;
      if !input.skipGovernance {
        out := out.(proposalID := state.proposalID, upgradeHeight := state.upgradeHeight);
      }
      var call := Verify(input.homeDir);
      var polls := outside.env.world.polls(outside.calls, call);
      var alive := outside.Perform(call, PollAnswer(polls));
      if !alive {
        return Killed, out;
      }
      var verdict := RunVerifyChainResumed(polls);
      if !verdict.Resumed? {
        flow := Abort(state, out, ResumeNotDetected);
        return;
      }
      out := out.(postUpgradeHeight := verdict.h);
      if !input.skipGovernance && input.withExport {
        var arg := ExportInputOf(input);
        var r := outside.env.world.exportState(outside.calls, arg);
        alive := outside.Perform(Export(arg), ExportAnswer(r));
        if !alive {
          return Killed, out;
        }
        if r.Ok? && r.value.ExportOutput? {
          out := out.(postGenesisPath := r.value.path);
        }
      }
      flow := Advance(state, out, Completed);
    }

    method Finish(input: Input, state: UpgradeState, out0: Output) returns (flow: Flow, out: Output)
      modifies outside
      ensures Matches(
                FinishStage(outside.env, input, old(outside.View()), old(state.Snapshot()), out0),
                flow, outside.View(), state.Snapshot(), out)
    {
      out := out0;
      if input.targetVersion != "" {
        var saved := outside.env.world.setVersion(outside.calls, input.targetVersion);
        var alive := outside.Perform(SetVersion(input.homeDir, input.targetVersion), SetVersionAnswer(saved));
        if !alive {
          return Killed, out;
        }
      }
      var alive := outside.DeleteState();
      if !alive {
        return Killed, out;
      }
      out := out.(success := true);
      return Returned(Return(Some(out), None)), out;
    }

    /** `executeSkipGovResumable`. */
    method ExecuteSkipGov(input: Input, state: UpgradeState) returns (flow: Flow)
      requires input.skipGovernance
      modifies state, outside
      ensures Ended(RunLoaded(outside.env, input, old(outside.View()), old(state.Snapshot())),
                    flow, outside.View(), state.Snapshot())
    {
      hide RunFrom, RunStage, UpgradeWorkflow.Advance, ProposeStage, VoteStage, WaitHeightStage, WaitHaltStage,
        SwitchStage, VerifyStage, FinishStage;
      var out := BLANK;
      ghost var goal := RunLoaded(outside.env, input, outside.View(), state.Snapshot());
      assert goal == RunFrom(outside.env, input, outside.View(), state.Snapshot(), out);
      if state.stage == Initialized {
        SwitchEnters(outside.env, input, outside.View(), state.Snapshot(), out);
        flow := Advance(state, out, SwitchingBinary);
        if flow != Fallthrough {
          return;
        }
        assert goal == RunFrom(outside.env, input, outside.View(), state.Snapshot(), out);
      }
      if state.stage == SwitchingBinary {
        SwitchEnters(outside.env, input, outside.View(), state.Snapshot(), out);
        flow, out := SwitchBinary(input, state, out);
        if flow != Fallthrough {
          return;
        }
        assert goal == RunFrom(outside.env, input, outside.View(), state.Snapshot(), out);
      }
      if state.stage == VerifyingResume {
        SwitchEnters(outside.env, input, outside.View(), state.Snapshot(), out);
        flow, out := VerifyResume(input, state, out);
        if flow != Fallthrough {
          return;
        }
        assert goal == RunFrom(outside.env, input, outside.View(), state.Snapshot(), out);
      }
      SwitchEnters(outside.env, input, outside.View(), state.Snapshot(), out);
      if state.stage == Completed {
        flow, out := Finish(input, state, out);
      } else {
        flow := Returned(Return(None, Some(CannotResume(state.stage))));
      }
    }

    /** The export before a fresh governance run. */
    method ExportFirst(input: Input, state: UpgradeState) returns (flow: Flow, out: Output)
      requires !input.skipGovernance
      modifies outside
      ensures Matches(PreExport(outside.env, input, old(outside.View()), state.Snapshot()),
                      flow, outside.View(), state.Snapshot(), out)
    {
      out := BLANK;
      if state.stage != Initialized || !input.withExport {
        return Fallthrough, out;
      }
      var arg := ExportInputOf(input);
      var r := outside.env.world.exportState(outside.calls, arg);
      var alive := outside.Perform(Export(arg), ExportAnswer(r));
      if !alive {
        return Killed, out;
      }
      if r.Err? {
        var failure := PreExportFailed(r.error);
        out := out.(error := Some(failure));
        return Returned(Return(Some(out), Some(failure))), out;
      }
      if r.value.ExportOutput? {
        out := out.(preGenesisPath := r.value.path);
      }
      return Fallthrough, out;
    }

    /** The governance stages before the binary is switched. */
    method ExecuteGovernance(input: Input, state: UpgradeState, out0: Output) returns (flow: Flow, out: Output)
      requires !input.skipGovernance
      modifies state, outside
      ensures var goal := RunFrom(outside.env, input, old(outside.View()), old(state.Snapshot()), out0);
              if flow == Fallthrough
              then goal == RunFrom(outside.env, input, outside.View(), state.Snapshot(), out)
                && state.stage !in {Initialized, ProposalSubmitted, Voting, WaitingForHeight, ChainHalted}
              else Ended(goal, flow, outside.View(), state.Snapshot())
    {
      hide RunFrom, RunStage, UpgradeWorkflow.Advance, ProposeStage, VoteStage, WaitHeightStage, WaitHaltStage,
        SwitchStage, VerifyStage, FinishStage;
      out := out0;
      ghost var goal := RunFrom(outside.env, input, outside.View(), state.Snapshot(), out);
      if state.stage == Initialized {
        SwitchEnters(outside.env, input, outside.View(), state.Snapshot(), out);
        flow, out := SubmitProposal(input, state, out);
        if flow != Fallthrough {
          return;
        }
        assert goal == RunFrom(outside.env, input, outside.View(), state.Snapshot(), out);
      }
      if state.stage == ProposalSubmitted {
        SwitchEnters(outside.env, input, outside.View(), state.Snapshot(), out);
        flow := Advance(state, out, Voting);
        if flow != Fallthrough {
          return;
        }
        assert goal == RunFrom(outside.env, input, outside.View(), state.Snapshot(), out);
      }
      if state.stage == Voting {
        SwitchEnters(outside.env, input, outside.View(), state.Snapshot(), out);
        flow, out := VoteFromAll(input, state, out);
        if flow != Fallthrough {
          return;
        }
        assert goal == RunFrom(outside.env, input, outside.View(), state.Snapshot(), out);
      }
      if state.stage == WaitingForHeight {
        SwitchEnters(outside.env, input, outside.View(), state.Snapshot(), out);
        flow, out := AwaitHeight(input, state, out);
        if flow != Fallthrough {
          return;
        }
        assert goal == RunFrom(outside.env, input, outside.View(), state.Snapshot(), out);
      }
      if state.stage == ChainHalted {
        SwitchEnters(outside.env, input, outside.View(), state.Snapshot(), out);
        flow, out := AwaitHalt(input, state, out);
        if flow != Fallthrough {
          return;
        }
        assert goal == RunFrom(outside.env, input, outside.View(), state.Snapshot(), out);
      }
      flow := Fallthrough;
    }

    /** `executeWithGovResumable`. */
    method ExecuteWithGov(input: Input, state: UpgradeState) returns (flow: Flow)
      requires !input.skipGovernance
      modifies state, outside
      ensures Ended(RunLoaded(outside.env, input, old(outside.View()), old(state.Snapshot())),
                    flow, outside.View(), state.Snapshot())
    {
      hide RunFrom, RunStage, UpgradeWorkflow.Advance, ProposeStage, VoteStage, WaitHeightStage, WaitHaltStage,
        SwitchStage, VerifyStage, FinishStage;
      ghost var goal := RunLoaded(outside.env, input, outside.View(), state.Snapshot());
      var out;
      flow, out := ExportFirst(input, state);
      if flow != Fallthrough {
        return;
      }
      assert goal == RunFrom(outside.env, input, outside.View(), state.Snapshot(), out);
      flow, out := ExecuteGovernance(input, state, out);
      if flow != Fallthrough {
        return;
      }
      if state.stage == SwitchingBinary {
        SwitchEnters(outside.env, input, outside.View(), state.Snapshot(), out);
        flow, out := SwitchBinary(input, state, out);
        if flow != Fallthrough {
          return;
        }
        assert goal == RunFrom(outside.env, input, outside.View(), state.Snapshot(), out);
      }
      if state.stage == VerifyingResume {
        SwitchEnters(outside.env, input, outside.View(), state.Snapshot(), out);
        flow, out := VerifyResume(input, state, out);
        if flow != Fallthrough {
          return;
        }
        assert goal == RunFrom(outside.env, input, outside.View(), state.Snapshot(), out);
      }
      SwitchEnters(outside.env, input, outside.View(), state.Snapshot(), out);
      match state.stage
      case Completed => flow, out := Finish(input, state, out);
      case Failed => flow := Returned(Return(None, Some(PreviouslyFailed(state.error))));
      case _ => flow := Returned(Return(None, Some(WasRejected)));
    }

    /** `Execute`, with the state its caller loaded, or null. */
    method Execute(input: Input, loaded: UpgradeState?) returns (flow: Flow)
      modifies loaded, outside
      ensures var p := ExecuteWith(outside.env, input, old(outside.View()),
                                   if loaded == null then None else Some(old(loaded.Snapshot())));
              && outside.View() == p.m
              && flow == match p case Dead(_) => Killed case Done(_, _, ret) => Returned(ret)
    {
      var state: UpgradeState;
      if loaded == null {
        state := new UpgradeState(PlanOf(input), input.upgradeHeight);
        var saved := outside.SaveState(state);
        match saved {
          case KilledInSave => return Killed;
          case SaveError => return Returned(Return(None, Some(InitialSaveFailed)));
          case SaveOk =>
        }
      } else {
        state := loaded;
      }
      if input.skipGovernance {
        flow := ExecuteSkipGov(input, state);
      } else {
        flow := ExecuteWithGov(input, state);
      }
    }
  }

  /** The plain use case; `calls` are the calls the world received so far. */
  class ExecuteUpgradeUseCase {
    const world: World
    var calls: seq<Event>

    constructor (world: World)
      ensures this.world == world && calls == []
    {
      this.world := world;
      calls := [];
    }

    method Perform(call: Call, answer: Answer)
      modifies this
      ensures calls == UpgradeRefinement.Did(old(calls), call, answer)
    {
      calls := calls + [Event(call, Some(answer))];
    }

    method Finish(input: Input, out: Output) returns (ret: Return)
      modifies this
      ensures PlainRun(calls, ret) == PlainFinish(world, input, old(calls), out)
    {
      if input.targetVersion != "" {
        Perform(SetVersion(input.homeDir, input.targetVersion),
                SetVersionAnswer(world.setVersion(calls, input.targetVersion)));
      }
      return Return(Some(out.(success := true)), None);
    }

    /** The steps both modes share: switch with `height`, verify, finish. */
    method SwitchAndVerify(input: Input, height: int, out0: Output) returns (ret: Return)
      modifies this
      ensures PlainRun(calls, ret) == PlainSwitch(world, input, old(calls), height, out0)
    {
      var out := out0;
      var switchArg := SwitchInputOf(input, height);
      var switched := world.switch(calls, switchArg);
      Perform(Switch(switchArg), SwitchAnswer(switched));
      if switched.Err? {
        var failure := External(switched.error);
        return Return(Some(out.(error := Some(failure))), Some(failure));
      }
      out := out.(newBinary := switched.value.newBinary);

      var verify := Verify(input.homeDir);
      var polls := world.polls(calls, verify);
      Perform(verify, PollAnswer(polls));
      var verdict := RunVerifyChainResumed(polls);
      if !verdict.Resumed? {
        return Return(Some(out.(error := Some(ResumeNotDetected))), Some(ResumeNotDetected));
      }
      out := out.(postUpgradeHeight := verdict.h);

      if !input.skipGovernance && input.withExport {
        var exportArg := ExportInputOf(input);
        var exported := world.exportState(calls, exportArg);
        Perform(Export(exportArg), ExportAnswer(exported));
        if exported.Ok? && exported.value.ExportOutput? {
          out := out.(postGenesisPath := exported.value.path);
        }
      }
      ret := Finish(input, out);
    }

    /** `executeSkipGov`. */
    method ExecuteSkipGov(input: Input) returns (ret: Return)
      modifies this
      ensures PlainRun(calls, ret) == PlainSkip(world, input, old(calls))
    {
      ret := SwitchAndVerify(input, 0, BLANK);
    }

    /** `executeWithGov`. */
    method ExecuteWithGov(input: Input) returns (ret: Return)
      modifies this
      ensures PlainRun(calls, ret) == PlainGovernance(world, input, old(calls))
    {
      var out := BLANK;
      if input.withExport {
        var exportArg := ExportInputOf(input);
        var exported := world.exportState(calls, exportArg);
        Perform(Export(exportArg), ExportAnswer(exported));
        if exported.Err? {
          var failure := PreExportFailed(exported.error);
          return Return(Some(out.(error := Some(failure))), Some(failure));
        }
        if exported.value.OtherType? {
          return Return(Some(out.(error := Some(InvalidExportResult))), Some(InvalidExportResult));
        }
        out := out.(preGenesisPath := exported.value.path);
      }
      ret := ProposeAndOn(input, out);
    }

    /** The governance steps from the proposal on. */
    method ProposeAndOn(input: Input, out0: Output) returns (ret: Return)
      modifies this
      ensures PlainRun(calls, ret) == PlainPropose(world, input, old(calls), out0)
    {
      var out := out0;
      var proposeArg := ProposeInputOf(input);
      var proposed := world.propose(calls, proposeArg);
      Perform(Propose(proposeArg), ProposeAnswer(proposed));
      if proposed.Err? {
        var failure := External(proposed.error);
        return Return(Some(out.(error := Some(failure))), Some(failure));
      }
      var proposal := proposed.value;
      out := out.(proposalID := proposal.id, upgradeHeight := proposal.height);

      var voteArg := VoteInputOf(input, proposal.id);
      var voted := world.vote(calls, voteArg);
      Perform(Vote(voteArg), VoteAnswer(voted));
      if voted.Err? {
        var failure := External(voted.error);
        return Return(Some(out.(error := Some(failure))), Some(failure));
      }
      if voted.value.votesCast != voted.value.totalVoters {
        var failure := NotAllVotesCast(voted.value.votesCast, voted.value.totalVoters);
        return Return(Some(out.(error := Some(failure))), Some(failure));
      }

      var heightCall := WaitHeight(proposal.height);
      var heightPolls := world.polls(calls, heightCall);
      Perform(heightCall, PollAnswer(heightPolls));
      var reached := RunWaitForUpgradeHeight(heightPolls, proposal.height);
      if !reached.Reached? {
        return Return(Some(out.(error := Some(HeightNotReached))), Some(HeightNotReached));
      }

      var haltCall := WaitHalt(proposal.height);
      var haltPolls := world.polls(calls, haltCall);
      Perform(haltCall, PollAnswer(haltPolls));
      var halted := RunWaitForChainHalt(haltPolls, proposal.height);
      if !halted.Halted? {
        return Return(Some(out.(error := Some(HaltNotDetected))), Some(HaltNotDetected));
      }
      ret := SwitchAndVerify(input, proposal.height, out);
    }
  }
}
