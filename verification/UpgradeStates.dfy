/** The persisted state of an upgrade (internal/application/ports/upgrade_state.go)
    and its transitions (internal/application/upgrade/state_transitioner.go).
    Timestamps, reasons of transitions, schema version and checksum are not kept. */
module UpgradeStates {
  import opened Outcomes

  datatype Stage =
    | Initialized
    | ProposalSubmitted
    | Voting
    | WaitingForHeight
    | ChainHalted
    | SwitchingBinary
    | VerifyingResume
    | Completed
    | Failed
    | ProposalRejected
  {
    predicate IsTerminal() {
      Completed? || Failed? || ProposalRejected?
    }

    /** Position in the workflow; the three terminal stages share the last one. */
    function Rank(): (r: nat)
      ensures r <= 7
    {
      match this
      case Initialized => 0
      case ProposalSubmitted => 1
      case Voting => 2
      case WaitingForHeight => 3
      case ChainHalted => 4
      case SwitchingBinary => 5
      case VerifyingResume => 6
      case _ => 7
    }
  }

  datatype ExecutionMode = Local | Docker

  datatype Failure =
    | External(message: string)
    | PreExportFailed(message: string)
    | InvalidExportResult
    | NotAllVotesCast(cast: int, total: int)
    | HeightNotReached
    | HaltNotDetected
    | ResumeNotDetected
    | InvalidTransition(from: Stage, to: Stage)
    | SaveFailed(target: Stage)
    | InitialSaveFailed
    | PreviouslyFailed(cause: Option<Failure>)
    | WasRejected
    | CannotResume(stage: Stage)

  datatype ValidatorVote = ValidatorVote(address: string, voted: bool, txHash: string)

  datatype NodeSwitch = NodeSwitch(
    nodeName: string, switched: bool, stopped: bool, started: bool, oldBinary: string, newBinary: string)

  datatype Transition = Transition(from: Option<Stage>, to: Stage)

  /** The fields fixed when the upgrade is created. */
  datatype Plan = Plan(
    upgradeName: string, mode: ExecutionMode, skipGovernance: bool,
    targetBinary: string, targetImage: string, targetVersion: string)

  datatype State = State(
    plan: Plan, stage: Stage, proposalID: nat, upgradeHeight: int,
    votes: seq<ValidatorVote>, switches: seq<NodeSwitch>,
    error: Option<Failure>, history: seq<Transition>)

  function NewState(plan: Plan, upgradeHeight: int): State {
    State(plan, Initialized, 0, upgradeHeight, [], [], None, [Transition(None, Initialized)])
  }

  /** A successful transition sets the stage and appends one history entry; the
      first failure reason is kept. A refused one yields nothing. */
  function TransitionTo(can: (Stage, Stage) -> bool, s: State, target: Stage, reason: Option<Failure>): Option<State>
  {
    if !can(s.stage, target) then None
    else Some(s.(
      stage := target,
      history := s.history + [Transition(Some(s.stage), target)],
      error := if target.Failed? && s.error.None? then reason else s.error))
  }

  /** A transition keeps everything but the stage, the history and, when it records
      the first failure, the reason. */
  lemma TransitionMeaning(can: (Stage, Stage) -> bool, s: State, target: Stage, reason: Option<Failure>)
    ensures TransitionTo(can, s, target, reason).Some? <==> can(s.stage, target)
    ensures can(s.stage, target) ==>
              var t := TransitionTo(can, s, target, reason).value;
              && t.stage == target && |t.history| == |s.history| + 1 && t.history[..|s.history|] == s.history
              && t.history[|s.history|].from == Some(s.stage) && t.history[|s.history|].to == target
              && (s.error.Some? || target != Failed ==> t.error == s.error)
              && (s.error.None? && target == Failed ==> t.error == reason)
              && t.plan == s.plan && t.proposalID == s.proposalID && t.upgradeHeight == s.upgradeHeight
              && t.votes == s.votes && t.switches == s.switches
  {
  }

  /** A new upgrade has no proposal, no votes, no switches and no error. */
  lemma FreshStateIsBlank(plan: Plan, upgradeHeight: int)
    ensures var s := NewState(plan, upgradeHeight);
            && s.plan == plan && s.upgradeHeight == upgradeHeight && s.stage == Initialized
            && s.proposalID == 0 && |s.votes| == |s.switches| == 0 && s.error == None && IsWalk(s.history, Initialized)
  {
  }

  /** The transition table. */
  function ValidTargets(from: Stage): seq<Stage>
  {
    match from
    case Initialized => [ProposalSubmitted, SwitchingBinary, Failed]
    case ProposalSubmitted => [Voting, Failed, ProposalRejected]
    case Voting => [WaitingForHeight, ProposalRejected, Failed]
    case WaitingForHeight => [ChainHalted, Failed]
    case ChainHalted => [SwitchingBinary, Failed]
    case SwitchingBinary => [VerifyingResume, Failed]
    case VerifyingResume => [Completed, Failed]
    case _ => []
  }

  predicate CanTransition(from: Stage, to: Stage) {
    to in ValidTargets(from)
  }

  /** The stage that follows in the governance or the skip-governance workflow. */
  function NextStage(skip: bool, stage: Stage): Option<Stage>
  {
    match stage
    case Initialized => if skip then Some(SwitchingBinary) else Some(ProposalSubmitted)
    case ProposalSubmitted => if skip then None else Some(Voting)
    case Voting => if skip then None else Some(WaitingForHeight)
    case WaitingForHeight => if skip then None else Some(ChainHalted)
    case ChainHalted => if skip then None else Some(SwitchingBinary)
    case SwitchingBinary => Some(VerifyingResume)
    case VerifyingResume => Some(Completed)
    case _ => None
  }

  /** The table, edge by edge: the steps of the two workflows, failure from every
      stage that is not terminal, and rejection while the proposal is pending. */
  lemma TableEdges(from: Stage, to: Stage)
    ensures CanTransition(from, to) <==>
            || NextStage(false, from) == Some(to)
            || NextStage(true, from) == Some(to)
            || (to == Failed && from != Completed && from != Failed && from != ProposalRejected)
            || (to == ProposalRejected && (from == ProposalSubmitted || from == Voting))
  {
  }

  /** The table grants every transition the two workflows ask for, never leaves a
      terminal stage, and every transition it grants moves up in the workflow. */
  lemma TableServesWorkflows(skip: bool, from: Stage, to: Stage)
    ensures NextStage(skip, from).Some? ==>
              CanTransition(from, NextStage(skip, from).value) && CanTransition(from, Failed)
    ensures from.IsTerminal() <==> forall t :: !CanTransition(from, t)
    ensures CanTransition(from, to) ==> from.Rank() < to.Rank()
  {
    if !from.IsTerminal() {
      assert CanTransition(from, Failed);
    }
  }

  // ------------------------------------------------------------------- history

  /** A chained walk that starts at Initialized, ends at `stage`, and moves up in
      the workflow with every entry. */
  predicate IsWalk(history: seq<Transition>, stage: Stage)
  {
    && |history| > 0
    && history[0] == Transition(None, Initialized)
    && history[|history| - 1].to == stage
    && forall k :: 0 < k < |history| ==>
         history[k].from == Some(history[k - 1].to) && history[k - 1].to.Rank() < history[k].to.Rank()
  }

  lemma {:induction false} WalkRank(history: seq<Transition>, stage: Stage, i: nat, j: nat)
    requires IsWalk(history, stage) && i <= j < |history|
    ensures history[i].to.Rank() + (j - i) <= history[j].to.Rank()
  {
    if i < j {
      WalkRank(history, stage, i, j - 1);
    }
  }

  /** A walk repeats no stage and has at most eight entries. */
  lemma WalkIsShort(history: seq<Transition>, stage: Stage)
    requires IsWalk(history, stage)
    ensures |history| <= 8
    ensures forall i, j :: 0 <= i < j < |history| ==> history[i].to != history[j].to
  {
    WalkRank(history, stage, 0, |history| - 1);
    forall i, j | 0 <= i < j < |history| ensures history[i].to != history[j].to {
      WalkRank(history, stage, i, j);
    }
  }

  lemma TransitionExtendsWalk(can: (Stage, Stage) -> bool, s: State, target: Stage, reason: Option<Failure>)
    requires IsWalk(s.history, s.stage) && s.stage.Rank() < target.Rank()
    ensures var t := TransitionTo(can, s, target, reason);
            t.Some? ==> IsWalk(t.value.history, t.value.stage)
  {
  }
}
