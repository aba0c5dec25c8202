/** When a successful run of the resumable upgrade reports the binary that was
    switched in. */
module UpgradeReports {
  import opened Outcomes
  import opened UpgradeStates
  import opened UpgradeWorld
  import opened UpgradeWorkflow
  import opened UpgradeSafety
  import opened UpgradeRuns
  import opened UpgradeProgress
  import opened ChainObservers
  import NodeSwitches

  /** The new binary of the last switch that succeeded with an answer. */
  function LastSwitch(calls: seq<Event>): Option<string>
  {
    if calls == [] then None
    else
      match calls[|calls| - 1]
      case Event(Switch(_), Some(SwitchAnswer(Ok(w)))) => Some(w.newBinary)
      case _ => LastSwitch(calls[..|calls| - 1])
  }

  lemma LastSwitchAppend(calls: seq<Event>, event: Event)
    ensures LastSwitch(calls + [event]) ==
            match event
            case Event(Switch(_), Some(SwitchAnswer(Ok(w)))) => Some(w.newBinary)
            case _ => LastSwitch(calls)
  {
    assert (calls + [event])[..|calls|] == calls;
  }

  /** Only a switch changes the last switch. */
  lemma PerformKeepsSwitch(env: Env, m: Machine, call: Call, answer: Answer)
    requires !call.Switch?
    ensures LastSwitch(Perform(env, m, call, answer).m.calls) == LastSwitch(m.calls)
  {
    LastSwitchAppend(m.calls, Event(call, None));
    LastSwitchAppend(m.calls, Event(call, Some(answer)));
  }

  lemma {:induction false} SwitchedHasLast(calls: seq<Event>, i: nat, height: int)
    requires SwitchedAt(calls, i, height)
    ensures LastSwitch(calls).Some?
  {
    if i < |calls| - 1 {
      SwitchedHasLast(calls[..|calls| - 1], i, height);
    }
  }

  /** The run returned an output and no error. */
  predicate Succeeds(p: Progress) {
    p.Done? && p.ret.output.Some? && p.ret.err.None?
  }

  /** The stages that come after the switch. */
  predicate SwitchIsPast(stage: Stage) {
    stage.VerifyingResume? || stage.Completed?
  }

  /** Only the last stage of the workflow can end a run in success. */
  lemma OnlyFinishSucceeds(env: Env, input: Input, m: Machine, s: State, out: Output)
    requires !s.stage.Completed?
    ensures !Succeeds(RunStage(env, input, m, s, out))
  {
    hide Perform, TransitionAndSave, ExecuteVoting, ExecuteSwitchBinary, PostExport;
  }

  lemma SwitchReports(env: Env, input: Input, m: Machine, s: State, out: Output)
    requires s.stage.SwitchingBinary?
    ensures var p := SwitchStage(env, input, m, s, out);
            p.Onward? ==> LastSwitch(p.m.calls) == Some(p.out.newBinary)
  {
    hide LastSwitch;
    var arg := SwitchInputOf(input, s.upgradeHeight);
    var r := env.world.switch(m.calls, arg);
    LastSwitchAppend(m.calls, Event(Switch(arg), Some(SwitchAnswer(r))));
  }

  lemma VerifyForgets(env: Env, input: Input, m: Machine, s: State, out: Output)
    requires s.stage.VerifyingResume?
    ensures var p := VerifyStage(env, input, m, s, out);
            p.Onward? ==> p.out.newBinary == out.newBinary && LastSwitch(p.m.calls) == LastSwitch(m.calls)
  {
    hide LastSwitch, Perform, VerifyChainResumed;
    var out1 := if input.skipGovernance then out else WithProposal(out, s);
    var call := Verify(input.homeDir);
    var polls := env.world.polls(m.calls, call);
    PerformKeepsSwitch(env, m, call, PollAnswer(polls));
    var m1 := Perform(env, m, call, PollAnswer(polls)).m;
    match VerifyChainResumed(polls)
    case Resumed(h, _) =>
      var arg := ExportInputOf(input);
      PerformKeepsSwitch(env, m1, Export(arg), ExportAnswer(env.world.exportState(m1.calls, arg)));
    case _ =>
  }

  lemma FinishForgets(env: Env, input: Input, m: Machine, s: State, out: Output)
    ensures var p := FinishStage(env, input, m, s, out);
            && (Succeeds(p) ==> p.ret.output.value.newBinary == out.newBinary)
            && LastSwitch(p.m.calls) == LastSwitch(m.calls)
  {
    hide LastSwitch, Perform;
    var answer := SetVersionAnswer(env.world.setVersion(m.calls, input.targetVersion));
    PerformKeepsSwitch(env, m, SetVersion(input.homeDir, input.targetVersion), answer);
  }

  /** A successful run that passes through the switch reports its binary; one that
      starts after the switch reports what it was given. */
  lemma {:induction false} RunReports(env: Env, input: Input, m: Machine, s: State, out: Output)
    ensures var p := RunFrom(env, input, m, s, out);
            Succeeds(p) ==>
              if SwitchIsPast(s.stage)
              then p.ret.output.value.newBinary == out.newBinary && LastSwitch(p.m.calls) == LastSwitch(m.calls)
              else LastSwitch(p.m.calls) == Some(p.ret.output.value.newBinary)
    decreases 7 - s.stage.Rank()
  {
    StageReports(env, input, m, s, out);
    hide RunStage, LastSwitch;
    match RunStage(env, input, m, s, out)
    case Onward(m1, s1, out1) => RunReports(env, input, m1, s1, out1);
    case _ =>
  }

  lemma StageReports(env: Env, input: Input, m: Machine, s: State, out: Output)
    ensures var p := RunStage(env, input, m, s, out);
            && (Succeeds(p) ==> s.stage.Completed? && p.ret.output.value.newBinary == out.newBinary
                                && LastSwitch(p.m.calls) == LastSwitch(m.calls))
            && (p.Onward? ==> !s.stage.Completed? && (SwitchIsPast(p.s.stage) <==> s.stage.Rank() >= SwitchingBinary.Rank()))
            && (p.Onward? && s.stage.SwitchingBinary? ==> LastSwitch(p.m.calls) == Some(p.out.newBinary))
            && (p.Onward? && s.stage.VerifyingResume? ==>
                  p.out.newBinary == out.newBinary && LastSwitch(p.m.calls) == LastSwitch(m.calls))
  {
    hide LastSwitch, ProposeStage, VoteStage, WaitHeightStage, WaitHaltStage, SwitchStage, VerifyStage, FinishStage,
         Advance;
    if s.stage.Completed? {
      FinishForgets(env, input, m, s, out);
    } else {
      OnlyFinishSucceeds(env, input, m, s, out);
    }
    if s.stage.SwitchingBinary? {
      SwitchReports(env, input, m, s, out);
    }
    if s.stage.VerifyingResume? {
      VerifyForgets(env, input, m, s, out);
    }
  }

  lemma ExportKeepsSwitch(env: Env, input: Input, m: Machine, s: State)
    ensures LastSwitch(PreExport(env, input, m, s).m.calls) == LastSwitch(m.calls)
    ensures !Succeeds(PreExport(env, input, m, s))
    ensures PreExport(env, input, m, s).Onward? ==>
              PreExport(env, input, m, s).s == s && PreExport(env, input, m, s).out.newBinary == ""
    ensures SwitchIsPast(s.stage) ==> PreExport(env, input, m, s) == Onward(m, s, BLANK)
  {
    hide LastSwitch;
    var arg := ExportInputOf(input);
    PerformKeepsSwitch(env, m, Export(arg), ExportAnswer(env.world.exportState(m.calls, arg)));
  }

  lemma LoadedReports(env: Env, input: Input, m: Machine, s: State)
    ensures var p := RunLoaded(env, input, m, s);
            Succeeds(p) ==>
              if SwitchIsPast(s.stage)
              then p.ret.output.value.newBinary == "" && LastSwitch(p.m.calls) == LastSwitch(m.calls)
              else LastSwitch(p.m.calls) == Some(p.ret.output.value.newBinary)
  {
    hide LastSwitch, RunFrom;
    ExportKeepsSwitch(env, input, m, s);
    match PreExport(env, input, m, s)
    case Onward(m1, s1, out) => RunReports(env, input, m1, s1, out);
    case _ =>
  }

  /** The run finds a stage on disk that comes after the switch. */
  predicate ResumesAfterSwitch(m: Machine) {
    m.disk.Some? && SwitchIsPast(m.disk.value.stage)
  }

  lemma ExecuteReports(env: Env, input: Input, m: Machine)
    ensures var p := Execute(env, input, m);
            Succeeds(p) ==>
              if ResumesAfterSwitch(m)
              then p.ret.output.value.newBinary == "" && LastSwitch(p.m.calls) == LastSwitch(m.calls)
              else LastSwitch(p.m.calls) == Some(p.ret.output.value.newBinary)
  {
    hide LastSwitch, RunLoaded;
    match m.disk
    case Some(s) => LoadedReports(env, input, m, s);
    case None =>
      var s := NewState(PlanOf(input), input.upgradeHeight);
      LoadedReports(env, input, Save(env, m, s).m, s);
  }

  /** A persisted stage after the switch testifies to a switch that succeeded. */
  lemma LateStageHasSwitch(skip: bool, m: Machine)
    requires AtRest(skip, m) && ResumesAfterSwitch(m)
    ensures LastSwitch(m.calls).Some?
  {
    hide Ordered, RepeatsExplained, StageNotLeft, Settled, Walked, MarksInRange, ArgumentsFollow, LastSwitch;
    var s := m.disk.value;
    assert Evidence(skip, m.calls, s.stage, s.proposalID, s.upgradeHeight);
    var i: nat :| SwitchedAt(m.calls, i, s.upgradeHeight);
    SwitchedHasLast(m.calls, i, s.upgradeHeight);
  }

  /** Exactly when a successful run reports the binary that was last switched in:
      if it did the switch itself, or that binary has the empty name. A run that
      resumes after the switch reports no binary. */
  lemma NewBinaryReportedIff(env: Env, inputs: seq<Input>, skip: bool, later: Env, input: Input)
    requires forall k :: 0 <= k < |inputs| ==> inputs[k].skipGovernance == skip
    requires input.skipGovernance == skip && !Sessions(env, inputs).deleted
    ensures var m := Sessions(env, inputs);
            var p := Execute(later, input, m);
            Succeeds(p) ==>
              && LastSwitch(p.m.calls).Some?
              && (p.ret.output.value.newBinary == LastSwitch(p.m.calls).value <==>
                  !ResumesAfterSwitch(m) || LastSwitch(m.calls) == Some(""))
              && (ResumesAfterSwitch(m) ==> p.ret.output.value.newBinary == "")
  {
    hide LastSwitch, Execute, AtRest;
    SessionsKeep(env, inputs, skip);
    var m := Sessions(env, inputs);
    hide Sessions;
    ExecuteReports(later, input, m);
    if ResumesAfterSwitch(m) {
      LateStageHasSwitch(skip, m);
    }
  }

  // ----------------------------------------------------------- a run that forgets

  /** Successful or not, a run that resumes after the switch reports no new
      binary. */
  lemma ResumeForgetsNewBinary(env: Env, input: Input, m: Machine)
    requires !m.deleted && ResumesAfterSwitch(m)
    ensures var p := Execute(env, input, m);
            p.Done? && p.ret.output.Some? ==> p.ret.output.value.newBinary == ""
  {
    hide Perform, TransitionAndSave, FinishStage, VerifyStage;
    var s := m.disk.value;
    var p := RunStage(env, input, m, s, BLANK);
    assert RunLoaded(env, input, m, s) == RunFrom(env, input, m, s, BLANK);
    StageKeepsBinary(env, input, m, s, BLANK);
    if p.Onward? {
      StageKeepsBinary(env, input, p.m, p.s, p.out);
      assert RunFrom(env, input, m, s, BLANK) == RunFrom(env, input, p.m, p.s, p.out);
      assert RunFrom(env, input, p.m, p.s, p.out) == RunStage(env, input, p.m, p.s, p.out);
    }
  }

  lemma StageKeepsBinary(env: Env, input: Input, m: Machine, s: State, out: Output)
    requires SwitchIsPast(s.stage)
    ensures var p := RunStage(env, input, m, s, out);
            && (p.Onward? ==> p.out.newBinary == out.newBinary && p.s.stage.Completed?)
            && (p.Done? && p.ret.output.Some? ==> p.ret.output.value.newBinary == out.newBinary)
            && (s.stage.Completed? ==> !p.Onward?)
  {
    hide Perform, TransitionAndSave;
  }

  /** A world in which everything succeeds and the switch puts in `newBinary`. */
  function Obliging(newBinary: string): World {
    World(
      (calls: seq<Event>, arg: ExportInput) => Ok(ExportOutput("genesis")),
      (calls: seq<Event>, arg: ProposeInput) => Ok(Proposal(1, arg.upgradeHeight)),
      (calls: seq<Event>, arg: VoteInput) => Ok(VoteOutput(1, 1, ["tx"])),
      (calls: seq<Event>, call: Call) => ObligingPolls(call),
      (calls: seq<Event>, arg: SwitchInput) => Ok(SwitchOutput("old", newBinary, 1)),
      (calls: seq<Event>, version: string) => true)
  }

  function Answered(rpc: Rpc): Poll {
    Poll(false, false, rpc, false)
  }

  function ObligingPolls(call: Call): seq<Poll> {
    match call
    case WaitHeight(h) => [Answered(Height(h))]
    case WaitHalt(_) => [Answered(RpcError), Answered(RpcError), Answered(RpcError)]
    case _ => [Answered(Height(1)), Answered(Height(2))]
  }

  /** The process dies in interaction `tick`, before it takes effect. */
  function DyingBefore(world: World, tick: nat): Env {
    Env(world, k => if k == tick then Crash(false) else Fine, CanTransition)
  }

  function Undying(world: World): Env {
    Env(world, k => Fine, CanTransition)
  }

  lemma ObligingIsBenign(newBinary: string)
    ensures Benign(Undying(Obliging(newBinary)))
  {
    hide CanTransition, WaitForUpgradeHeight, WaitForChainHalt, VerifyChainResumed;
    forall h: int
      ensures WaitForUpgradeHeight(ObligingPolls(WaitHeight(h)), h).Reached?
      ensures WaitForChainHalt(ObligingPolls(WaitHalt(h)), h).Halted?
    {
      OneReadReaches(h);
      ThreeErrorsHalt(h);
    }
    forall dir: string
      ensures VerifyChainResumed(ObligingPolls(Verify(dir))).Resumed?
    {
      TwoReadsResume();
    }
  }

  lemma OneReadReaches(h: int)
    ensures WaitForUpgradeHeight([Answered(Height(h))], h).Reached?
  {
    assert HeightObservedAt([Answered(Height(h))], h, 0);
    WaitForUpgradeHeightMeaning([Answered(Height(h))], h);
  }

  lemma TwoReadsResume()
    ensures VerifyChainResumed([Answered(Height(1)), Answered(Height(2))]).Resumed?
  {
    var polls := [Answered(Height(1)), Answered(Height(2))];
    assert LastRead(polls, 0) == 0 && LastRead(polls, 1) == 1;
    assert FirstResume(polls, 2, 1);
    VerifyChainResumedMeaning(polls, 2, 1);
  }

  lemma ThreeErrorsHalt(h: int)
    ensures WaitForChainHalt([Answered(RpcError), Answered(RpcError), Answered(RpcError)], h).Halted?
  {
    var polls := [Answered(RpcError), Answered(RpcError), Answered(RpcError)];
    assert HaltObservedAt(polls, h, 2);
    assert FirstHalt(polls, h, 2);
    WaitForChainHaltMeaning(polls, h, 2);
  }

  /** An upgrade without governance whose first run dies before it verifies: the
      second run succeeds and reports "", whatever was switched in. */
  lemma BinaryIsForgotten(input: Input, newBinary: string)
    requires input.skipGovernance && newBinary != ""
    ensures var m := Sessions(DyingBefore(Obliging(newBinary), 5), [input]);
            var p := Execute(Undying(Obliging(newBinary)), input, m);
            && !m.deleted && ResumesAfterSwitch(m) && LastSwitch(m.calls) == Some(newBinary)
            && Succeeds(p) && p.ret.output.value.success && p.ret.output.value.newBinary == ""
            && LastSwitch(p.m.calls) == Some(newBinary)
  {
    var dying, later := DyingBefore(Obliging(newBinary), 5), Undying(Obliging(newBinary));
    var m := Sessions(dying, [input]);
    assert [input][..0] == [] && Sessions(dying, []) == FRESH;
    DiesVerifying(input, newBinary);
    SessionsKeep(dying, [input], true);
    ObligingIsBenign(newBinary);
    BenignExecute(later, input, m);
    ExecuteReports(later, input, m);
  }

  lemma AdvanceGoesOn(env: Env, m: Machine, s: State, out: Output, target: Stage)
    requires env.fault(m.ticks) == Fine && env.can(s.stage, target)
    ensures var p := Advance(env, m, s, out, target);
            && p.Onward? && p.s.stage == target && p.out == out
            && p.m.disk == Some(p.s) && p.m.calls == m.calls
            && p.m.deleted == m.deleted && p.m.ticks == m.ticks + 1
  {
  }

  lemma SwitchGoesOn(env: Env, input: Input, m: Machine, s: State, out: Output)
    requires s.stage.SwitchingBinary? && env.can(SwitchingBinary, VerifyingResume)
    requires env.fault(m.ticks) == env.fault(m.ticks + 1) == env.fault(m.ticks + 2) == Fine
    requires env.world.switch(m.calls, SwitchInputOf(input, s.upgradeHeight)).Ok?
    ensures var p := SwitchStage(env, input, m, s, out);
            && p.Onward? && p.s.stage.VerifyingResume?
            && p.m.disk == Some(p.s) && p.m.deleted == m.deleted && p.m.ticks == m.ticks + 3
            && LastSwitch(p.m.calls) == Some(env.world.switch(m.calls, SwitchInputOf(input, s.upgradeHeight)).value.newBinary)
  {
    hide Advance, LastSwitch, NodeSwitches.UpsertAll;
    var arg := SwitchInputOf(input, s.upgradeHeight);
    var w := env.world.switch(m.calls, arg).value;
    LastSwitchAppend(m.calls, Event(Switch(arg), Some(SwitchAnswer(Ok(w)))));
    var out1 := if input.skipGovernance then out else WithProposal(out, s);
    match ExecuteSwitchBinary(env, input, m, s)
    case Lived(m1, (t, Ok(v))) => AdvanceGoesOn(env, m1, t, out1.(newBinary := v.newBinary), VerifyingResume);
    case _ =>
  }

  lemma VerifyDies(env: Env, input: Input, m: Machine, s: State, out: Output)
    requires env.fault(m.ticks) == Crash(false)
    ensures var p := VerifyStage(env, input, m, s, out);
            p.Dead? && p.m.disk == m.disk && p.m.calls == m.calls && p.m.deleted == m.deleted
  {
    hide VerifyChainResumed, PostExport, Advance, Abort;
  }

  lemma DiesVerifying(input: Input, newBinary: string)
    requires input.skipGovernance
    ensures var m := Execute(DyingBefore(Obliging(newBinary), 5), input, FRESH).m;
            !m.deleted && ResumesAfterSwitch(m) && LastSwitch(m.calls) == Some(newBinary)
  {
    hide Advance, SwitchStage, VerifyStage, LastSwitch, NewState;
    var env := DyingBefore(Obliging(newBinary), 5);
    var s := NewState(PlanOf(input), input.upgradeHeight);
    assert s.stage.Initialized? by {
      StartsInitialized(input);
    }
    var m := Ticked(Written(FRESH, s));
    var a := Advance(env, m, s, BLANK, SwitchingBinary);
    AdvanceGoesOn(env, m, s, BLANK, SwitchingBinary);
    assert RunFrom(env, input, m, s, BLANK) == RunFrom(env, input, a.m, a.s, a.out);
    var b := SwitchStage(env, input, a.m, a.s, a.out);
    SwitchGoesOn(env, input, a.m, a.s, a.out);
    assert RunFrom(env, input, a.m, a.s, a.out) == RunFrom(env, input, b.m, b.s, b.out);
    VerifyDies(env, input, b.m, b.s, b.out);
    assert RunFrom(env, input, b.m, b.s, b.out) == VerifyStage(env, input, b.m, b.s, b.out);
  }

  lemma StartsInitialized(input: Input)
    ensures NewState(PlanOf(input), input.upgradeHeight).stage.Initialized?
  {
  }
}
