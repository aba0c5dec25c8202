/** What the resumable upgrade keeps over any number of crashes, failed saves,
    refused transitions and resumes. */
module UpgradeSafety {
  import opened Outcomes
  import opened UpgradeStates
  import opened UpgradeWorld
  import opened UpgradeWorkflow
  import opened ChainObservers

  // ------------------------------------------------------------------- effects

  datatype Effect = DoPropose | DoVote | DoWaitHeight | DoWaitHalt | DoSwitch | DoVerify

  /** The chain effect of a call; exports and version updates have none. */
  function EffectOf(call: Call): Option<Effect>
  {
    match call
    case Propose(_) => Some(DoPropose)
    case Vote(_) => Some(DoVote)
    case WaitHeight(_) => Some(DoWaitHeight)
    case WaitHalt(_) => Some(DoWaitHalt)
    case Switch(_) => Some(DoSwitch)
    case Verify(_) => Some(DoVerify)
    case _ => None
  }

  function Order(skip: bool): seq<Effect> {
    if skip then [DoSwitch, DoVerify]
    else [DoPropose, DoVote, DoWaitHeight, DoWaitHalt, DoSwitch, DoVerify]
  }

  /** The effect a stage performs. */
  function StageEffect(skip: bool, stage: Stage): Option<Effect>
  {
    match stage
    case Initialized => if skip then None else Some(DoPropose)
    case Voting => Some(DoVote)
    case WaitingForHeight => Some(DoWaitHeight)
    case ChainHalted => Some(DoWaitHalt)
    case SwitchingBinary => Some(DoSwitch)
    case VerifyingResume => Some(DoVerify)
    case _ => None
  }

  /** How many effects of the order lie before a stage. */
  function Floor(skip: bool, stage: Stage): nat
  {
    match stage
    case Initialized => 0
    case ProposalSubmitted => 1
    case Voting => 1
    case WaitingForHeight => 2
    case ChainHalted => 3
    case SwitchingBinary => if skip then 0 else 4
    case VerifyingResume => if skip then 1 else 5
    case _ => if skip then 2 else 6
  }

  /** The stages a run of either workflow can leave on disk. */
  predicate OnPath(skip: bool, stage: Stage) {
    match stage
    case Initialized => true
    case SwitchingBinary => true
    case VerifyingResume => true
    case Completed => true
    case Failed => true
    case ProposalRejected => false
    case _ => !skip
  }

  function CollapseStep(done: seq<Effect>, effect: Option<Effect>): seq<Effect>
  {
    match effect
    case None => done
    case Some(e) => if done != [] && done[|done| - 1] == e then done else done + [e]
  }

  /** The chain effects of the calls, consecutive repeats collapsed. */
  function Collapsed(calls: seq<Event>): seq<Effect>
  {
    if calls == [] then []
    else CollapseStep(Collapsed(calls[..|calls| - 1]), EffectOf(calls[|calls| - 1].call))
  }

  lemma CollapsedAppend(calls: seq<Event>, event: Event)
    ensures Collapsed(calls + [event]) == CollapseStep(Collapsed(calls), EffectOf(event.call))
  {
    assert (calls + [event])[..|calls|] == calls;
  }

  lemma {:induction false} CollapsedContains(calls: seq<Event>, i: nat)
    requires i < |calls| && EffectOf(calls[i].call).Some?
    ensures EffectOf(calls[i].call).value in Collapsed(calls)
  {
    var init := calls[..|calls| - 1];
    if i < |init| {
      CollapsedContains(init, i);
    }
  }

  // -------------------------------------------------------------- invariant: order

  /** Collapsed effects are a prefix of the order, as long as the stage on disk
      says; a deleted state file means all of them were performed. */
  ghost predicate Ordered(skip: bool, disk: Option<State>, deleted: bool, done: seq<Effect>)
  {
    match disk
    case None => done == if deleted then Order(skip) else []
    case Some(s) =>
      && !deleted && OnPath(skip, s.stage)
      && done <= Order(skip)
      && (!s.stage.Failed? ==>
            || |done| == Floor(skip, s.stage)
            || (StageEffect(skip, s.stage).Some? && |done| == Floor(skip, s.stage) + 1))
  }

  // ------------------------------------------------------------ invariant: repeats

  /** Call `i` performs the effect `e`. */
  predicate Performs(calls: seq<Event>, i: nat, e: Effect) {
    i < |calls| && EffectOf(calls[i].call) == Some(e)
  }

  /** Some attempt died, or its outcome was not persisted, after call `i` and
      before call `j`. */
  ghost predicate FaultBetween(marks: seq<Mark>, i: nat, j: nat) {
    exists q :: 0 <= q < |marks| && marks[q].kind.IsFault() && i < marks[q].at <= j
  }

  /** Every stage persisted after call `i` and before call `j` performs `e`. */
  ghost predicate OnlySaves(skip: bool, marks: seq<Mark>, i: nat, j: nat, e: Effect) {
    forall q :: 0 <= q < |marks| && marks[q].kind.Saved? && i < marks[q].at <= j
      ==> StageEffect(skip, marks[q].kind.stage) == Some(e)
  }

  /** An effect is repeated only when an attempt was interrupted or its outcome
      was not persisted, and before any other stage was left on disk. */
  ghost predicate RepeatsExplained(skip: bool, calls: seq<Event>, marks: seq<Mark>) {
    forall i: nat, j: nat, e | Performs(calls, i, e) && Performs(calls, j, e) && i < j ::
      FaultBetween(marks, i, j) && OnlySaves(skip, marks, i, j, e)
  }

  ghost predicate MarksInRange(calls: seq<Event>, marks: seq<Mark>) {
    forall q :: 0 <= q < |marks| ==> marks[q].at <= |calls|
  }

  /** The effect of the stage on disk. */
  function Current(skip: bool, disk: Option<State>): Option<Effect> {
    if disk.Some? then StageEffect(skip, disk.value.stage) else None
  }

  /** The stage on disk was not left since its effect was first attempted. */
  ghost predicate StageNotLeft(skip: bool, current: Option<Effect>, calls: seq<Event>, marks: seq<Mark>)
  {
    current.Some? ==>
      forall i: nat | Performs(calls, i, current.value) ::
        OnlySaves(skip, marks, i, |calls|, current.value)
  }

  /** Every attempt at the effect of the stage on disk is known to have failed to
      get its outcome persisted. */
  ghost predicate Settled(current: Option<Effect>, calls: seq<Event>, marks: seq<Mark>)
  {
    current.Some? ==>
      forall i: nat | Performs(calls, i, current.value) :: FaultBetween(marks, i, |calls|)
  }

  // ----------------------------------------------------------- invariant: evidence

  /** The last proposal the chain accepted with an answer. */
  function LastProposal(calls: seq<Event>): Option<Proposal>
  {
    if calls == [] then None
    else
      match calls[|calls| - 1]
      case Event(Propose(_), Some(ProposeAnswer(Ok(p)))) => Some(p)
      case _ => LastProposal(calls[..|calls| - 1])
  }

  predicate VotedAt(calls: seq<Event>, i: nat, id: nat)
  {
    && i < |calls| && calls[i].call.Vote? && calls[i].call.voteInput.proposalID == id
    && match calls[i].answer
       case Some(VoteAnswer(Ok(v))) => v.votesCast == v.totalVoters
       case _ => false
  }

  predicate HeightReadAt(calls: seq<Event>, i: nat, height: int)
  {
    && i < |calls| && calls[i].call == WaitHeight(height)
    && match calls[i].answer
       case Some(PollAnswer(polls)) => exists k: nat | k < |polls| :: HeightObservedAt(polls, height, k)
       case _ => false
  }

  predicate HaltSeenAt(calls: seq<Event>, i: nat, height: int)
  {
    && i < |calls| && calls[i].call == WaitHalt(height)
    && match calls[i].answer
       case Some(PollAnswer(polls)) => exists k: nat | k < |polls| :: HaltObservedAt(polls, height, k)
       case _ => false
  }

  predicate SwitchedAt(calls: seq<Event>, i: nat, height: int)
  {
    && i < |calls| && calls[i].call.Switch? && calls[i].call.switchInput.upgradeHeight == height
    && match calls[i].answer
       case Some(SwitchAnswer(Ok(_))) => true
       case _ => false
  }

  predicate ResumeSeenAt(calls: seq<Event>, i: nat)
  {
    && i < |calls| && calls[i].call.Verify?
    && match calls[i].answer
       case Some(PollAnswer(polls)) => exists k: nat | k < |polls| :: ResumeObservedAt(polls, k)
       case _ => false
  }

  /** What a persisted stage testifies to. */
  ghost predicate Evidence(skip: bool, calls: seq<Event>, stage: Stage, id: nat, height: int)
  {
    stage.Failed? || stage.ProposalRejected? ||
    (&& (!skip && stage.Rank() >= ProposalSubmitted.Rank() ==> LastProposal(calls) == Some(Proposal(id, height)))
     && (!skip && stage.Rank() > Voting.Rank() ==> exists i: nat :: VotedAt(calls, i, id))
     && (!skip && stage.Rank() > WaitingForHeight.Rank() ==> exists i: nat :: HeightReadAt(calls, i, height))
     && (!skip && stage.Rank() > ChainHalted.Rank() ==> exists i: nat :: HaltSeenAt(calls, i, height))
     && (stage.Rank() > SwitchingBinary.Rank() ==> exists i: nat :: SwitchedAt(calls, i, height))
     && (stage.Completed? ==> exists i: nat, j: nat :: i < j && SwitchedAt(calls, i, height) && ResumeSeenAt(calls, j)))
  }

  /** A call uses the proposal `p`. */
  predicate Uses(call: Call, p: Option<Proposal>)
  {
    match call
    case Vote(v) => p.Some? && v.proposalID == p.value.id
    case WaitHeight(h) => p.Some? && h == p.value.height
    case WaitHalt(h) => p.Some? && h == p.value.height
    case Switch(w) => p.Some? && w.upgradeHeight == p.value.height
    case _ => true
  }

  /** Every vote, wait and switch used the last proposal accepted before it. */
  ghost predicate ArgumentsFollow(calls: seq<Event>) {
    forall i :: 0 <= i < |calls| ==> Uses(calls[i].call, LastProposal(calls[..i]))
  }

  ghost predicate Testified(skip: bool, disk: Option<State>, deleted: bool, calls: seq<Event>)
  {
    && (!skip ==> ArgumentsFollow(calls))
    && match disk
       case None => deleted ==> exists id: nat, height: int :: Evidence(skip, calls, Completed, id, height)
       case Some(s) => Evidence(skip, calls, s.stage, s.proposalID, s.upgradeHeight)
  }

  // ---------------------------------------------------------------- all together

  ghost predicate Walked(disk: Option<State>) {
    disk.Some? ==> IsWalk(disk.value.history, disk.value.stage)
  }

  ghost predicate Kept(skip: bool, m: Machine) {
    && Ordered(skip, m.disk, m.deleted, Collapsed(m.calls))
    && MarksInRange(m.calls, m.marks)
    && RepeatsExplained(skip, m.calls, m.marks)
    && StageNotLeft(skip, Current(skip, m.disk), m.calls, m.marks)
    && Testified(skip, m.disk, m.deleted, m.calls)
    && Walked(m.disk)
  }

  /** The invariant between runs. */
  ghost predicate AtRest(skip: bool, m: Machine) {
    Kept(skip, m) && Settled(Current(skip, m.disk), m.calls, m.marks)
  }

  /** The invariant on entry to a stage: memory and disk agree. */
  ghost predicate Ready(skip: bool, m: Machine, s: State) {
    AtRest(skip, m) && m.disk == Some(s)
  }

  /** The invariant inside a stage: memory may have moved ahead of the disk in
      everything but the stage. */
  ghost predicate Within(skip: bool, m: Machine, s: State) {
    && Kept(skip, m)
    && m.disk.Some? && m.disk.value.stage == s.stage
    && IsWalk(s.history, s.stage)
  }

  // ------------------------------------------------------------- growing marks

  lemma FaultPersists(marks: seq<Mark>, mark: Mark, i: nat, j: nat)
    requires FaultBetween(marks, i, j)
    ensures FaultBetween(marks + [mark], i, j)
  {
    var q :| 0 <= q < |marks| && marks[q].kind.IsFault() && i < marks[q].at <= j;
    assert (marks + [mark])[q] == marks[q];
  }

  /** A new mark falls after every call so far, hence between no two of them. */
  lemma RepeatsKeepWithMark(skip: bool, calls: seq<Event>, marks: seq<Mark>, kind: MarkKind)
    requires RepeatsExplained(skip, calls, marks)
    ensures RepeatsExplained(skip, calls, marks + [Mark(|calls|, kind)])
  {
    var marks1 := marks + [Mark(|calls|, kind)];
    forall i: nat, j: nat, e | Performs(calls, i, e) && Performs(calls, j, e) && i < j
      ensures FaultBetween(marks1, i, j) && OnlySaves(skip, marks1, i, j, e)
    {
      FaultPersists(marks, Mark(|calls|, kind), i, j);
    }
  }

  /** A mark that is not a save, or saves a stage with the same effect, disturbs
      nothing. */
  lemma MarkKeeps(skip: bool, m: Machine, kind: MarkKind)
    requires Kept(skip, m)
    requires kind.Saved? ==> StageEffect(skip, kind.stage) == Current(skip, m.disk)
    ensures Kept(skip, Noted(m, kind))
  {
    RepeatsKeepWithMark(skip, m.calls, m.marks, kind);
  }

  /** A fault settles every attempt before it. */
  lemma FaultSettles(skip: bool, m: Machine, kind: MarkKind)
    requires Kept(skip, m) && kind.IsFault()
    ensures AtRest(skip, Noted(m, kind))
  {
    MarkKeeps(skip, m, kind);
    var n := Noted(m, kind);
    assert n.marks[|m.marks|] == Mark(|m.calls|, kind);
  }

  // -------------------------------------------------------------- growing calls

  lemma LastProposalAppend(calls: seq<Event>, event: Event)
    ensures LastProposal(calls + [event]) ==
            match event
            case Event(Propose(_), Some(ProposeAnswer(Ok(p)))) => Some(p)
            case _ => LastProposal(calls)
  {
    assert (calls + [event])[..|calls|] == calls;
  }

  lemma EvidenceGrows(skip: bool, calls: seq<Event>, event: Event, stage: Stage, id: nat, height: int)
    requires Evidence(skip, calls, stage, id, height)
    requires !event.call.Propose? || stage.Initialized?
    ensures Evidence(skip, calls + [event], stage, id, height)
  {
    var calls1 := calls + [event];
    LastProposalAppend(calls, event);
    assert forall i: nat :: i < |calls| ==> calls1[i] == calls[i];
    assert forall i: nat :: VotedAt(calls, i, id) ==> VotedAt(calls1, i, id);
    assert forall i: nat :: HeightReadAt(calls, i, height) ==> HeightReadAt(calls1, i, height);
    assert forall i: nat :: HaltSeenAt(calls, i, height) ==> HaltSeenAt(calls1, i, height);
    assert forall i: nat :: SwitchedAt(calls, i, height) ==> SwitchedAt(calls1, i, height);
    assert forall i: nat :: ResumeSeenAt(calls, i) ==> ResumeSeenAt(calls1, i);
  }

  lemma ArgumentsGrow(calls: seq<Event>, event: Event)
    requires ArgumentsFollow(calls) && Uses(event.call, LastProposal(calls))
    ensures ArgumentsFollow(calls + [event])
  {
    var calls1 := calls + [event];
    forall i | 0 <= i < |calls1| ensures Uses(calls1[i].call, LastProposal(calls1[..i])) {
      assert calls1[..i] == calls[..i];
      if i == |calls| {
        assert calls[..i] == calls;
      }
    }
  }

  /** The call is the effect of the stage on disk, or no chain effect at all. */
  predicate Due(skip: bool, disk: Option<State>, call: Call) {
    EffectOf(call) == None || EffectOf(call) == Current(skip, disk)
  }

  lemma OrderGrows(skip: bool, disk: Option<State>, done: seq<Effect>, call: Call)
    requires disk.Some? && Ordered(skip, disk, false, done) && Due(skip, disk, call)
    ensures Ordered(skip, disk, false, CollapseStep(done, EffectOf(call)))
    ensures EffectOf(call).Some? ==>
              |CollapseStep(done, EffectOf(call))| == Floor(skip, disk.value.stage) + 1
  {
  }

  lemma RepeatsGrow(skip: bool, current: Option<Effect>, calls: seq<Event>, marks: seq<Mark>, event: Event)
    requires RepeatsExplained(skip, calls, marks) && MarksInRange(calls, marks)
    requires StageNotLeft(skip, current, calls, marks)
    requires EffectOf(event.call) == None || (EffectOf(event.call) == current && Settled(current, calls, marks))
    ensures RepeatsExplained(skip, calls + [event], marks)
    ensures StageNotLeft(skip, current, calls + [event], marks)
  {
    var calls1 := calls + [event];
    forall i: nat, j: nat, e | Performs(calls1, i, e) && Performs(calls1, j, e) && i < j
      ensures FaultBetween(marks, i, j) && OnlySaves(skip, marks, i, j, e)
    {
      assert Performs(calls, i, e);
      if j < |calls| {
        assert Performs(calls, j, e);
      }
    }
    if current.Some? {
      forall i: nat | Performs(calls1, i, current.value)
        ensures OnlySaves(skip, marks, i, |calls1|, current.value)
      {
        if i < |calls| {
          assert Performs(calls, i, current.value);
        }
      }
    }
  }

  lemma CallKeeps(skip: bool, m: Machine, s: State, event: Event)
    requires Within(skip, m, s) && Due(skip, m.disk, event.call)
    requires EffectOf(event.call).Some? ==> Settled(Current(skip, m.disk), m.calls, m.marks)
    requires !skip ==> Uses(event.call, LastProposal(m.calls))
    requires event.call.Propose? ==> s.stage.Initialized?
    ensures Within(skip, m.(calls := m.calls + [event]), s)
    ensures |Collapsed(m.calls + [event])| ==
            if EffectOf(event.call).Some? then Floor(skip, s.stage) + 1 else |Collapsed(m.calls)|
  {
    CollapsedAppend(m.calls, event);
    OrderGrows(skip, m.disk, Collapsed(m.calls), event.call);
    RepeatsGrow(skip, Current(skip, m.disk), m.calls, m.marks, event);
    EvidenceGrows(skip, m.calls, event, s.stage, m.disk.value.proposalID, m.disk.value.upgradeHeight);
    if !skip {
      ArgumentsGrow(m.calls, event);
    }
  }

  // --------------------------------------------------------------- growing disk

  lemma NotYetPerformed(skip: bool, calls: seq<Event>, stage: Stage)
    requires OnPath(skip, stage) && StageEffect(skip, stage).Some?
    requires Collapsed(calls) <= Order(skip) && |Collapsed(calls)| == Floor(skip, stage)
    ensures forall i: nat :: !Performs(calls, i, StageEffect(skip, stage).value)
  {
    var e := StageEffect(skip, stage).value;
    forall i: nat ensures !Performs(calls, i, e) {
      if Performs(calls, i, e) {
        CollapsedContains(calls, i);
      }
    }
  }

  /** A state that may be written over the one on disk: it leaves the stage with
      all effects of the workflow so far performed, or records a failure. */
  ghost predicate Successor(skip: bool, calls: seq<Event>, t: State) {
    && OnPath(skip, t.stage) && IsWalk(t.history, t.stage)
    && Evidence(skip, calls, t.stage, t.proposalID, t.upgradeHeight)
    && (t.stage.Failed? || |Collapsed(calls)| == Floor(skip, t.stage))
  }

  lemma WriteKeeps(skip: bool, m: Machine, t: State)
    requires Kept(skip, m) && !m.deleted && Collapsed(m.calls) <= Order(skip)
    requires Successor(skip, m.calls, t)
    ensures AtRest(skip, Written(m, t))
  {
    RepeatsKeepWithMark(skip, m.calls, m.marks, Saved(t.stage));
    if StageEffect(skip, t.stage).Some? {
      NotYetPerformed(skip, m.calls, t.stage);
    }
  }

  /** Writing the stage on disk again, with the same proposal. */
  lemma RewriteKeeps(skip: bool, m: Machine, t: State)
    requires Within(skip, m, t)
    requires Evidence(skip, m.calls, t.stage, t.proposalID, t.upgradeHeight)
    ensures Kept(skip, Written(m, t))
  {
    RepeatsKeepWithMark(skip, m.calls, m.marks, Saved(t.stage));
  }
}
