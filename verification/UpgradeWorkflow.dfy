/** The resumable upgrade as a function of its environment
    (internal/application/upgrade/resumable_execute.go:59-523). */
module UpgradeWorkflow {
  import opened Outcomes
  import opened UpgradeStates
  import opened UpgradeWorld
  import opened ChainObservers
  import NodeSwitches

  /** What a Go call returned: an output pointer and an error. */
  datatype Return = Return(output: Option<Output>, err: Option<Failure>)

  /** How a piece of the workflow ended: the process died, the use case returned,
      or control falls through to the next stage. */
  datatype Progress =
    | Dead(m: Machine)
    | Done(m: Machine, s: State, ret: Return)
    | Onward(m: Machine, s: State, out: Output)

  // ------------------------------------------------------------------- helpers

  /** `transitionAndSave`: the state in memory moves even when the save fails. */
  function TransitionAndSave(env: Env, m: Machine, s: State, target: Stage, reason: Option<Failure>)
    : Outcome<(State, Option<Failure>)>
  {
    match TransitionTo(env.can, s, target, reason)
    case None => Lived(Noted(m, Refused), (s, Some(InvalidTransition(s.stage, target))))
    case Some(t) =>
      match Save(env, m, t)
      case Died(m1) => Died(m1)
      case Lived(m1, ok) => Lived(m1, (t, if ok then None else Some(SaveFailed(target))))
  }

  /** A failed step: try to record Failed, and return the error with the output. */
  function Abort(env: Env, m: Machine, s: State, out: Output, failure: Failure): Progress
  {
    match TransitionAndSave(env, m, s, Failed, Some(failure))
    case Died(m1) => Dead(m1)
    case Lived(m1, r) => Done(m1, r.0, Return(Some(out.(error := Some(failure))), Some(failure)))
  }

  /** A finished step: record the next stage, or return without an output. */
  function Advance(env: Env, m: Machine, s: State, out: Output, target: Stage): (p: Progress)
    ensures p.Onward? ==> p.s.stage == target
  {
    match TransitionAndSave(env, m, s, target, None)
    case Died(m1) => Dead(m1)
    case Lived(m1, (t, None)) => Onward(m1, t, out)
    case Lived(m1, (t, Some(failure))) => Done(m1, t, Return(None, Some(failure)))
  }

  function WithProposal(out: Output, s: State): Output {
    out.(proposalID := s.proposalID, upgradeHeight := s.upgradeHeight)
  }

  function ExportInputOf(input: Input): ExportInput {
    ExportInput(input.homeDir, input.genesisDir, false)
  }

  function ProposeInputOf(input: Input): ProposeInput {
    ProposeInput(input.homeDir, input.upgradeName, input.upgradeHeight, input.votingPeriod, input.heightBuffer)
  }

  function VoteInputOf(input: Input, proposalID: nat): VoteInput {
    VoteInput(input.homeDir, proposalID, "yes", true)
  }

  function SwitchInputOf(input: Input, upgradeHeight: int): SwitchInput {
    SwitchInput(input.homeDir, input.targetBinary, input.targetImage, input.targetVersion,
                input.cachePath, input.commitHash, input.cacheRef, input.mode, upgradeHeight)
  }

  /** `executeVoting`; the save of the tracked votes may fail silently. */
  function ExecuteVoting(env: Env, input: Input, m: Machine, s: State)
    : Outcome<(State, Result<VoteOutput, string>)>
  {
    var arg := VoteInputOf(input, s.proposalID);
    var r := env.world.vote(m.calls, arg);
    match Perform(env, m, Vote(arg), VoteAnswer(r))
    case Died(m1) => Died(m1)
    case Lived(m1, _) =>
      match r
      case Err(e) => Lived(m1, (s, r))
      case Ok(v) =>
        var t := s.(votes := NodeSwitches.RecordVotes(s.votes, v.txHashes));
        match Save(env, m1, t)
        case Died(m2) => Died(m2)
        case Lived(m2, _) => Lived(m2, (t, r))
  }

  /** `executeSwitchBinary`; the save of the tracked nodes may fail silently. */
  function ExecuteSwitchBinary(env: Env, input: Input, m: Machine, s: State)
    : Outcome<(State, Result<SwitchOutput, string>)>
  {
    var arg := SwitchInputOf(input, s.upgradeHeight);
    var r := env.world.switch(m.calls, arg);
    match Perform(env, m, Switch(arg), SwitchAnswer(r))
    case Died(m1) => Died(m1)
    case Lived(m1, _) =>
      match r
      case Err(e) => Lived(m1, (s, r))
      case Ok(w) =>
        var t := s.(switches := NodeSwitches.UpsertAll(s.switches, w.nodesRestarted, w.oldBinary, w.newBinary));
        match Save(env, m1, t)
        case Died(m2) => Died(m2)
        case Lived(m2, _) => Lived(m2, (t, r))
  }

  // -------------------------------------------------------------------- stages

  function ProposeStage(env: Env, input: Input, m: Machine, s: State, out: Output): Progress
  {
    var arg := ProposeInputOf(input);
    var r := env.world.propose(m.calls, arg);
    match Perform(env, m, Propose(arg), ProposeAnswer(r))
    case Died(m1) => Dead(m1)
    case Lived(m1, _) =>
      match r
      case Err(e) => Abort(env, m1, s, out, External(e))
      case Ok(p) =>
        var t := s.(proposalID := p.id, upgradeHeight := p.height);
        Advance(env, m1, t, WithProposal(out, t), ProposalSubmitted)
  }

  function VoteStage(env: Env, input: Input, m: Machine, s: State, out: Output): Progress
  {
    var out1 := WithProposal(out, s);
    match ExecuteVoting(env, input, m, s)
    case Died(m1) => Dead(m1)
    case Lived(m1, (t, Err(e))) => Abort(env, m1, t, out1, External(e))
    case Lived(m1, (t, Ok(v))) =>
      if v.votesCast != v.totalVoters then
        Abort(env, m1, t, out1, NotAllVotesCast(v.votesCast, v.totalVoters))
      else Advance(env, m1, t, out1, WaitingForHeight)
  }

  function WaitHeightStage(env: Env, input: Input, m: Machine, s: State, out: Output): Progress
  {
    var out1 := WithProposal(out, s);
    var call := WaitHeight(s.upgradeHeight);
    var polls := env.world.polls(m.calls, call);
    match Perform(env, m, call, PollAnswer(polls))
    case Died(m1) => Dead(m1)
    case Lived(m1, _) =>
      if !WaitForUpgradeHeight(polls, s.upgradeHeight).Reached? then Abort(env, m1, s, out1, HeightNotReached)
      else Advance(env, m1, s, out1, ChainHalted)
  }

  function WaitHaltStage(env: Env, input: Input, m: Machine, s: State, out: Output): Progress
  {
    var out1 := WithProposal(out, s);
    var call := WaitHalt(s.upgradeHeight);
    var polls := env.world.polls(m.calls, call);
    match Perform(env, m, call, PollAnswer(polls))
    case Died(m1) => Dead(m1)
    case Lived(m1, _) =>
      if !WaitForChainHalt(polls, s.upgradeHeight).Halted? then Abort(env, m1, s, out1, HaltNotDetected)
      else Advance(env, m1, s, out1, SwitchingBinary)
  }

  /** Shared by both workflows; only the governance one reports the proposal. */
  function SwitchStage(env: Env, input: Input, m: Machine, s: State, out: Output): Progress
  {
    var out1 := if input.skipGovernance then out else WithProposal(out, s);
    match ExecuteSwitchBinary(env, input, m, s)
    case Died(m1) => Dead(m1)
    case Lived(m1, (t, Err(e))) => Abort(env, m1, t, out1, External(e))
    case Lived(m1, (t, Ok(w))) => Advance(env, m1, t, out1.(newBinary := w.newBinary), VerifyingResume)
  }

  function PostExport(env: Env, input: Input, m: Machine, out: Output): Outcome<Output>
  {
    if input.skipGovernance || !input.withExport then Lived(m, out)
    else
      var arg := ExportInputOf(input);
      var r := env.world.exportState(m.calls, arg);
      match Perform(env, m, Export(arg), ExportAnswer(r))
      case Died(m1) => Died(m1)
      case Lived(m1, _) =>
        match r
        case Ok(ExportOutput(path)) => Lived(m1, out.(postGenesisPath := path))
        case _ => Lived(m1, out)
  }

  function VerifyStage(env: Env, input: Input, m: Machine, s: State, out: Output): Progress
  {
    var out1 := if input.skipGovernance then out else WithProposal(out, s);
    var call := Verify(input.homeDir);
    var polls := env.world.polls(m.calls, call);
    match Perform(env, m, call, PollAnswer(polls))
    case Died(m1) => Dead(m1)
    case Lived(m1, _) =>
      match VerifyChainResumed(polls)
      case Resumed(h, _) =>
        (match PostExport(env, input, m1, out1.(postUpgradeHeight := h))
         case Died(m2) => Dead(m2)
         case Lived(m2, out2) => Advance(env, m2, s, out2, Completed))
      case _ => Abort(env, m1, s, out1, ResumeNotDetected)
  }

  /** Completed: record the version, delete the state file, report success. */
  function FinishStage(env: Env, input: Input, m: Machine, s: State, out: Output): Progress
  {
    var versioned :=
      if input.targetVersion == "" then Lived(m, ())
      else
        var saved := env.world.setVersion(m.calls, input.targetVersion);
        Perform(env, m, SetVersion(input.homeDir, input.targetVersion), SetVersionAnswer(saved));
    match versioned
    case Died(m1) => Dead(m1)
    case Lived(m1, _) =>
      match Delete(env, m1)
      case Died(m2) => Dead(m2)
      case Lived(m2, _) => Done(m2, s, Return(Some(out.(success := true)), None))
  }

  /** One case of the switch over stages. */
  function RunStage(env: Env, input: Input, m: Machine, s: State, out: Output): (p: Progress)
    ensures p.Onward? ==> Some(p.s.stage) == NextStage(input.skipGovernance, s.stage)
  {
    match s.stage
    case Initialized =>
      if input.skipGovernance then Advance(env, m, s, out, SwitchingBinary)
      else ProposeStage(env, input, m, s, out)
    case SwitchingBinary => SwitchStage(env, input, m, s, out)
    case VerifyingResume => VerifyStage(env, input, m, s, out)
    case Completed => FinishStage(env, input, m, s, out)
    case _ =>
      if input.skipGovernance then Done(m, s, Return(None, Some(CannotResume(s.stage))))
      else
        match s.stage
        case ProposalSubmitted => Advance(env, m, s, out, Voting)
        case Voting => VoteStage(env, input, m, s, out)
        case WaitingForHeight => WaitHeightStage(env, input, m, s, out)
        case ChainHalted => WaitHaltStage(env, input, m, s, out)
        case Failed => Done(m, s, Return(None, Some(PreviouslyFailed(s.error))))
        case _ => Done(m, s, Return(None, Some(WasRejected)))
  }

  /** The switch with its fallthroughs, entered at the stage of `s`. */
  function RunFrom(env: Env, input: Input, m: Machine, s: State, out: Output): (p: Progress)
    ensures !p.Onward?
    decreases 7 - s.stage.Rank()
  {
    match RunStage(env, input, m, s, out)
    case Onward(m1, s1, out1) => RunFrom(env, input, m1, s1, out1)
    case p => p
  }

  /** Exports before an upgrade; only a fresh governance run does so. */
  function PreExport(env: Env, input: Input, m: Machine, s: State): Progress
  {
    if input.skipGovernance || s.stage != Initialized || !input.withExport then Onward(m, s, BLANK)
    else
      var arg := ExportInputOf(input);
      var r := env.world.exportState(m.calls, arg);
      match Perform(env, m, Export(arg), ExportAnswer(r))
      case Died(m1) => Dead(m1)
      case Lived(m1, _) =>
        match r
        case Err(e) =>
          var failure := PreExportFailed(e);
          Done(m1, s, Return(Some(BLANK.(error := Some(failure))), Some(failure)))
        case Ok(ExportOutput(path)) => Onward(m1, s, BLANK.(preGenesisPath := path))
        case Ok(OtherType) => Onward(m1, s, BLANK)
  }

  function RunLoaded(env: Env, input: Input, m: Machine, s: State): (p: Progress)
    ensures !p.Onward?
  {
    match PreExport(env, input, m, s)
    case Onward(m1, s1, out) => RunFrom(env, input, m1, s1, out)
    case p => p
  }

  function PlanOf(input: Input): Plan {
    Plan(input.upgradeName, input.mode, input.skipGovernance,
         input.targetBinary, input.targetImage, input.targetVersion)
  }

  /** `Execute`, given the loaded state if there is one. */
  function ExecuteWith(env: Env, input: Input, m: Machine, loaded: Option<State>): (p: Progress)
    ensures !p.Onward?
  {
    match loaded
    case Some(s) => RunLoaded(env, input, m, s)
    case None =>
      var s := NewState(PlanOf(input), input.upgradeHeight);
      match Save(env, m, s)
      case Died(m1) => Dead(m1)
      case Lived(m1, false) => Done(m1, s, Return(None, Some(InitialSaveFailed)))
      case Lived(m1, true) => RunLoaded(env, input, m1, s)
  }

  /** One run: `Execute` with whatever the state file holds. */
  function Execute(env: Env, input: Input, m: Machine): (p: Progress)
    ensures !p.Onward?
  {
    ExecuteWith(env, input, m, m.disk)
  }

  /** Any number of runs, each resuming from what the last one left on disk, until
      one of them deletes the state file. */
  function Sessions(env: Env, inputs: seq<Input>): Machine
  {
    if inputs == [] then FRESH
    else
      var m := Sessions(env, inputs[..|inputs| - 1]);
      if m.deleted then m else Execute(env, inputs[|inputs| - 1], m).m
  }
}
