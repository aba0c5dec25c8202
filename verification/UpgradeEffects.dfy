/** Which chain effects one run performs, given the stage it finds on disk. */
module UpgradeEffects {
  import opened Outcomes
  import opened Sequences
  import opened UpgradeStates
  import opened UpgradeWorld
  import opened UpgradeWorkflow
  import opened UpgradeSafety
  import ChainObservers
  import NodeSwitches

  /** The effect of a call as a list. */
  function EffectList(call: Call): seq<Effect> {
    if EffectOf(call).Some? then [EffectOf(call).value] else []
  }

  /** The chain effects of the calls, in order. */
  function Effects(calls: seq<Event>): seq<Effect>
  {
    if calls == [] then []
    else Effects(calls[..|calls| - 1]) + EffectList(calls[|calls| - 1].call)
  }

  lemma EffectsAppend(calls: seq<Event>, event: Event)
    ensures Effects(calls + [event]) == Effects(calls) + EffectList(event.call)
  {
    assert (calls + [event])[..|calls|] == calls;
  }

  /** The effects of the stage as a list. */
  function Own(skip: bool, stage: Stage): seq<Effect> {
    if StageEffect(skip, stage).Some? then [StageEffect(skip, stage).value] else []
  }

  /** The workflow's order is made of the effects of its stages. */
  lemma OrderUnfolds(skip: bool, stage: Stage, next: Stage)
    requires OnPath(skip, stage) && NextStage(skip, stage) == Some(next)
    ensures OnPath(skip, next) && Floor(skip, stage) <= Floor(skip, next) <= |Order(skip)|
    ensures Order(skip)[Floor(skip, stage)..] == Own(skip, stage) + Order(skip)[Floor(skip, next)..]
  {
  }

  lemma OwnIsNext(skip: bool, stage: Stage)
    requires OnPath(skip, stage)
    ensures Floor(skip, stage) <= |Order(skip)|
    ensures Own(skip, stage) <= Order(skip)[Floor(skip, stage)..]
  {
  }

  /** The machine `after` is `before` with `done` performed. */
  ghost predicate Did(before: Machine, after: Machine, done: seq<Effect>) {
    Effects(after.calls) == Effects(before.calls) + done
  }

  lemma PerformDid(env: Env, m: Machine, call: Call, answer: Answer)
    ensures Did(m, Perform(env, m, call, answer).m, if env.fault(m.ticks) == Crash(false) then [] else EffectList(call))
  {
    EffectsAppend(m.calls, Event(call, None));
    EffectsAppend(m.calls, Event(call, Some(answer)));
  }

  lemma SaveCallsNothing(env: Env, m: Machine, s: State)
    ensures Save(env, m, s).m.calls == m.calls
  {
  }

  lemma TransitionCallsNothing(env: Env, m: Machine, s: State, target: Stage, reason: Option<Failure>)
    ensures TransitionAndSave(env, m, s, target, reason).m.calls == m.calls
  {
  }

  lemma EndsCallNothing(env: Env, m: Machine, s: State, out: Output, target: Stage, failure: Failure)
    ensures Abort(env, m, s, out, failure).m.calls == m.calls
    ensures Advance(env, m, s, out, target).m.calls == m.calls
  {
    hide TransitionTo, Save;
    TransitionCallsNothing(env, m, s, Failed, Some(failure));
    TransitionCallsNothing(env, m, s, target, None);
  }

  /** What a stage performs: its own effect, unless the process dies before the
      call goes out. */
  ghost predicate StageDid(env: Env, skip: bool, m: Machine, s: State, p: Progress) {
    && Did(m, p.m, if env.fault(m.ticks) == Crash(false) then [] else Own(skip, s.stage))
    && (p.Onward? && Own(skip, s.stage) != [] ==> env.fault(m.ticks) != Crash(false))
  }

  lemma ProposeDid(env: Env, input: Input, m: Machine, s: State, out: Output)
    requires s.stage.Initialized? && !input.skipGovernance
    ensures StageDid(env, false, m, s, ProposeStage(env, input, m, s, out))
  {
    hide Abort, Advance, Effects;
    var arg := ProposeInputOf(input);
    var r := env.world.propose(m.calls, arg);
    PerformDid(env, m, Propose(arg), ProposeAnswer(r));
    var m1 := Perform(env, m, Propose(arg), ProposeAnswer(r)).m;
    match r
    case Err(e) => EndsCallNothing(env, m1, s, out, Failed, External(e));
    case Ok(p) =>
      var t := s.(proposalID := p.id, upgradeHeight := p.height);
      EndsCallNothing(env, m1, t, WithProposal(out, t), ProposalSubmitted, WasRejected);
  }

  lemma VoteDid(env: Env, input: Input, m: Machine, s: State, out: Output)
    requires s.stage.Voting?
    ensures StageDid(env, false, m, s, VoteStage(env, input, m, s, out))
  {
    hide Abort, Advance, Effects, Save;
    var arg := VoteInputOf(input, s.proposalID);
    var r := env.world.vote(m.calls, arg);
    var out1 := WithProposal(out, s);
    PerformDid(env, m, Vote(arg), VoteAnswer(r));
    var m1 := Perform(env, m, Vote(arg), VoteAnswer(r)).m;
    match r
    case Err(e) => EndsCallNothing(env, m1, s, out1, Failed, External(e));
    case Ok(v) =>
      var t := s.(votes := NodeSwitches.RecordVotes(s.votes, v.txHashes));
      SaveCallsNothing(env, m1, t);
      EndsCallNothing(env, Save(env, m1, t).m, t, out1, WaitingForHeight, NotAllVotesCast(v.votesCast, v.totalVoters));
  }

  lemma SwitchDid(env: Env, input: Input, m: Machine, s: State, out: Output)
    requires s.stage.SwitchingBinary?
    ensures StageDid(env, input.skipGovernance, m, s, SwitchStage(env, input, m, s, out))
  {
    hide Abort, Advance, Effects, Save;
    var arg := SwitchInputOf(input, s.upgradeHeight);
    var r := env.world.switch(m.calls, arg);
    var out1 := if input.skipGovernance then out else WithProposal(out, s);
    PerformDid(env, m, Switch(arg), SwitchAnswer(r));
    var m1 := Perform(env, m, Switch(arg), SwitchAnswer(r)).m;
    match r
    case Err(e) => EndsCallNothing(env, m1, s, out1, Failed, External(e));
    case Ok(w) =>
      var t := s.(switches := NodeSwitches.UpsertAll(s.switches, w.nodesRestarted, w.oldBinary, w.newBinary));
      SaveCallsNothing(env, m1, t);
      EndsCallNothing(env, Save(env, m1, t).m, t, out1.(newBinary := w.newBinary), VerifyingResume, WasRejected);
  }

  lemma WaitHeightDid(env: Env, input: Input, m: Machine, s: State, out: Output)
    requires s.stage.WaitingForHeight?
    ensures StageDid(env, false, m, s, WaitHeightStage(env, input, m, s, out))
  {
    hide Abort, Advance, Effects, ChainObservers.WaitForUpgradeHeight;
    var call := WaitHeight(s.upgradeHeight);
    var answer := PollAnswer(env.world.polls(m.calls, call));
    PerformDid(env, m, call, answer);
    EndsCallNothing(env, Perform(env, m, call, answer).m, s, WithProposal(out, s), ChainHalted, HeightNotReached);
  }

  lemma WaitHaltDid(env: Env, input: Input, m: Machine, s: State, out: Output)
    requires s.stage.ChainHalted?
    ensures StageDid(env, false, m, s, WaitHaltStage(env, input, m, s, out))
  {
    hide Abort, Advance, Effects, ChainObservers.WaitForChainHalt;
    var call := WaitHalt(s.upgradeHeight);
    var answer := PollAnswer(env.world.polls(m.calls, call));
    PerformDid(env, m, call, answer);
    EndsCallNothing(env, Perform(env, m, call, answer).m, s, WithProposal(out, s), SwitchingBinary, HaltNotDetected);
  }

  lemma ExportDid(env: Env, input: Input, m: Machine, out: Output)
    ensures Did(m, PostExport(env, input, m, out).m, [])
  {
    hide Effects;
    var arg := ExportInputOf(input);
    PerformDid(env, m, Export(arg), ExportAnswer(env.world.exportState(m.calls, arg)));
  }

  lemma VerifyDid(env: Env, input: Input, m: Machine, s: State, out: Output)
    requires s.stage.VerifyingResume?
    ensures StageDid(env, input.skipGovernance, m, s, VerifyStage(env, input, m, s, out))
  {
    hide Abort, Advance, Effects, PostExport, ChainObservers.VerifyChainResumed;
    var out1 := if input.skipGovernance then out else WithProposal(out, s);
    var call := Verify(input.homeDir);
    var polls := env.world.polls(m.calls, call);
    PerformDid(env, m, call, PollAnswer(polls));
    var m1 := Perform(env, m, call, PollAnswer(polls)).m;
    match ChainObservers.VerifyChainResumed(polls)
    case Resumed(h, _) =>
      var out2 := out1.(postUpgradeHeight := h);
      ExportDid(env, input, m1, out2);
      match PostExport(env, input, m1, out2) {
        case Died(_) =>
        case Lived(m2, out3) => EndsCallNothing(env, m2, s, out3, Completed, ResumeNotDetected);
      }
    case _ => EndsCallNothing(env, m1, s, out1, Completed, ResumeNotDetected);
  }

  lemma FinishDid(env: Env, input: Input, m: Machine, s: State, out: Output)
    ensures Did(m, FinishStage(env, input, m, s, out).m, [])
  {
    hide Effects;
    var answer := SetVersionAnswer(env.world.setVersion(m.calls, input.targetVersion));
    PerformDid(env, m, SetVersion(input.homeDir, input.targetVersion), answer);
  }

  lemma RunStageDid(env: Env, input: Input, m: Machine, s: State, out: Output)
    requires OnPath(input.skipGovernance, s.stage)
    ensures StageDid(env, input.skipGovernance, m, s, RunStage(env, input, m, s, out))
  {
    hide Effects, Abort, Advance, ProposeStage, VoteStage, WaitHeightStage, WaitHaltStage, SwitchStage, VerifyStage,
         FinishStage;
    match s.stage
    case Initialized =>
      if input.skipGovernance {
        EndsCallNothing(env, m, s, out, SwitchingBinary, WasRejected);
      } else {
        ProposeDid(env, input, m, s, out);
      }
    case ProposalSubmitted => EndsCallNothing(env, m, s, out, Voting, WasRejected);
    case Voting => VoteDid(env, input, m, s, out);
    case WaitingForHeight => WaitHeightDid(env, input, m, s, out);
    case ChainHalted => WaitHaltDid(env, input, m, s, out);
    case SwitchingBinary => SwitchDid(env, input, m, s, out);
    case VerifyingResume => VerifyDid(env, input, m, s, out);
    case Completed => FinishDid(env, input, m, s, out);
    case _ =>
  }

  /** From a stage on, a run performs the effects of the workflow's order from that
      stage on, each once, up to where it ends; and it performs the stage's own
      effect exactly if the process does not die before the call goes out. */
  lemma {:induction false} RunFromDid(env: Env, input: Input, m: Machine, s: State, out: Output)
    returns (done: seq<Effect>)
    requires OnPath(input.skipGovernance, s.stage)
    ensures Floor(input.skipGovernance, s.stage) <= |Order(input.skipGovernance)|
    ensures Did(m, RunFrom(env, input, m, s, out).m, done)
    ensures done <= Order(input.skipGovernance)[Floor(input.skipGovernance, s.stage)..]
    ensures Own(input.skipGovernance, s.stage) != [] ==> (done != [] <==> env.fault(m.ticks) != Crash(false))
    decreases 7 - s.stage.Rank()
  {
    hide Effects, RunStage, EffectOf, StageEffect, OnPath, Order, Floor;
    var skip := input.skipGovernance;
    RunStageDid(env, input, m, s, out);
    OwnIsNext(skip, s.stage);
    var own := if env.fault(m.ticks) == Crash(false) then [] else Own(skip, s.stage);
    match RunStage(env, input, m, s, out)
    case Onward(m1, s1, out1) =>
      OrderUnfolds(skip, s.stage, s1.stage);
      var rest := RunFromDid(env, input, m1, s1, out1);
      done := own + rest;
      Regroup(Effects(m.calls), own, rest);
      PrefixJoins(own, rest, Order(skip)[Floor(skip, s1.stage)..]);
    case _ =>
      done := own;
  }

  lemma PrefixJoins(own: seq<Effect>, rest: seq<Effect>, order: seq<Effect>)
    requires rest <= order
    ensures own + rest <= own + order
  {
  }

  /** The effects between two machines. */
  ghost function Between(before: Machine, after: Machine): seq<Effect>
    requires Effects(before.calls) <= Effects(after.calls)
  {
    Effects(after.calls)[|Effects(before.calls)|..]
  }

  /** The call of the stage on disk goes out: nothing ends the run before it. Only
      a fresh governance run with an export has an earlier call. */
  predicate EffectGoesOut(env: Env, input: Input, m: Machine)
    requires m.disk.Some?
  {
    if m.disk.value.stage.Initialized? && !input.skipGovernance && input.withExport then
      && !env.fault(m.ticks).Crash?
      && env.world.exportState(m.calls, ExportInputOf(input)).Ok?
      && env.fault(m.ticks + 1) != Crash(false)
    else env.fault(m.ticks) != Crash(false)
  }

  /** A run that finds a stage of its workflow on disk performs the effects of the
      order from that stage on, each once and none skipped, up to where it ends.
      The stage's own effect is performed first, whatever attempts at it came
      before, exactly if its call goes out. */
  lemma RunPerforms(env: Env, input: Input, m: Machine)
    requires !m.deleted && m.disk.Some? && OnPath(input.skipGovernance, m.disk.value.stage)
    ensures Floor(input.skipGovernance, m.disk.value.stage) <= |Order(input.skipGovernance)|
    ensures Effects(m.calls) <= Effects(Execute(env, input, m).m.calls)
    ensures Between(m, Execute(env, input, m).m)
            <= Order(input.skipGovernance)[Floor(input.skipGovernance, m.disk.value.stage)..]
    ensures StageEffect(input.skipGovernance, m.disk.value.stage).Some? ==>
              (Between(m, Execute(env, input, m).m) != [] <==> EffectGoesOut(env, input, m))
  {
    hide Effects, RunFrom, EffectOf, OnPath, Order, Floor;
    var s := m.disk.value;
    OwnIsNext(input.skipGovernance, s.stage);
    if s.stage.Initialized? && !input.skipGovernance && input.withExport {
      var arg := ExportInputOf(input);
      PerformDid(env, m, Export(arg), ExportAnswer(env.world.exportState(m.calls, arg)));
      assert EffectList(Export(arg)) == [] by {
        ExportIsNoEffect(arg);
      }
    }
    match PreExport(env, input, m, s)
    case Onward(m1, s1, out) => var done := RunFromDid(env, input, m1, s1, out);
    case _ =>
  }

  lemma ExportIsNoEffect(arg: ExportInput)
    ensures EffectList(Export(arg)) == []
  {
  }

  // ------------------------------------------------------------ repeats do happen

  /** The process dies in the interactions `ticks`, after they took effect. */
  function DyingAt(world: World, can: (Stage, Stage) -> bool, ticks: set<nat>): Env {
    Env(world, k => if k in ticks then Crash(true) else Fine, can)
  }

  /** If the process dies in the proposal after the call went out, the next run
      proposes again, in every world, with or without an export before it. */
  lemma ProposalCanRepeat(world: World, can: (Stage, Stage) -> bool, input: Input)
    requires !input.skipGovernance
    requires input.withExport ==> forall calls :: world.exportState(calls, ExportInputOf(input)).Ok?
    ensures var dying := DyingAt(world, can, if input.withExport then {2, 4} else {1, 2});
            Effects(Sessions(dying, [input, input]).calls) == [DoPropose, DoPropose]
  {
    hide Effects, RunLoaded;
    var dying := DyingAt(world, can, if input.withExport then {2, 4} else {1, 2});
    assert [input][..0] == [] && [input, input][..1] == [input];
    assert Sessions(dying, []) == FRESH;
    assert Effects(FRESH.calls) == [] by {
      NoEffects();
    }
    var s := NewState(PlanOf(input), input.upgradeHeight);
    DiesProposing(dying, input, Ticked(Written(FRESH, s)), s);
    var first := Sessions(dying, [input]);
    assert first.disk == Some(s) && !first.deleted;
    DiesProposing(dying, input, first, s);
  }

  lemma NoEffects()
    ensures Effects([]) == []
  {
  }

  lemma DiesProposing(env: Env, input: Input, m: Machine, s: State)
    requires !input.skipGovernance && s.stage.Initialized?
    requires input.withExport ==>
               env.fault(m.ticks) == Fine && env.world.exportState(m.calls, ExportInputOf(input)).Ok?
    requires env.fault(if input.withExport then m.ticks + 1 else m.ticks) == Crash(true)
    ensures var p := RunLoaded(env, input, m, s);
            && p.Dead? && Did(m, p.m, [DoPropose])
            && p.m.disk == m.disk && p.m.deleted == m.deleted
            && p.m.ticks == m.ticks + (if input.withExport then 2 else 1)
  {
    hide Advance, Abort, Effects;
    var arg := ExportInputOf(input);
    PerformDid(env, m, Export(arg), ExportAnswer(env.world.exportState(m.calls, arg)));
    match PreExport(env, input, m, s)
    case Onward(m1, s1, out) =>
      var answer := ProposeAnswer(env.world.propose(m1.calls, ProposeInputOf(input)));
      PerformDid(env, m1, Propose(ProposeInputOf(input)), answer);
      assert RunFrom(env, input, m1, s1, out) == RunStage(env, input, m1, s1, out);
    case _ =>
  }
}
