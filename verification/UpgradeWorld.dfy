/** What surrounds an upgrade: the use cases and the chain it calls, the state
    file, and the faults that can interrupt it. Everything outside is an
    arbitrary function, so a claim about every `Env` is a claim about every
    environment. */
module UpgradeWorld {
  import opened Outcomes
  import opened UpgradeStates
  import opened ChainObservers

  // -------------------------------------------------------- inputs and outputs

  datatype Input = Input(
    homeDir: string, upgradeName: string, targetBinary: string, targetImage: string,
    cachePath: string, commitHash: string, cacheRef: string, targetVersion: string,
    votingPeriod: int, heightBuffer: int, upgradeHeight: int,
    withExport: bool, genesisDir: string, mode: ExecutionMode, skipGovernance: bool)

  /** The output of the workflow, its duration aside. */
  datatype Output = Output(
    success: bool, proposalID: nat, upgradeHeight: int, postUpgradeHeight: int, newBinary: string,
    preGenesisPath: string, postGenesisPath: string, error: Option<Failure>)

  const BLANK: Output := Output(false, 0, 0, 0, "", "", "", None)

  datatype ExportInput = ExportInput(homeDir: string, outputDir: string, force: bool)
  datatype ProposeInput = ProposeInput(
    homeDir: string, upgradeName: string, upgradeHeight: int, votingPeriod: int, heightBuffer: int)
  datatype Proposal = Proposal(id: nat, height: int)
  datatype VoteInput = VoteInput(homeDir: string, proposalID: nat, voteOption: string, fromAll: bool)
  datatype VoteOutput = VoteOutput(votesCast: int, totalVoters: int, txHashes: seq<string>)
  datatype SwitchInput = SwitchInput(
    homeDir: string, targetBinary: string, targetImage: string, targetVersion: string,
    cachePath: string, commitHash: string, cacheRef: string, mode: ExecutionMode, upgradeHeight: int)
  datatype SwitchOutput = SwitchOutput(oldBinary: string, newBinary: string, nodesRestarted: nat)

  /** An export yields a path, or a value of another type. */
  datatype Exported = ExportOutput(path: string) | OtherType

  // --------------------------------------------------------------------- calls

  datatype Call =
    | Export(exportInput: ExportInput)
    | Propose(proposeInput: ProposeInput)
    | Vote(voteInput: VoteInput)
    | WaitHeight(height: int)
    | WaitHalt(height: int)
    | Switch(switchInput: SwitchInput)
    | Verify(homeDir: string)
    | SetVersion(homeDir: string, version: string)

  datatype Answer =
    | ExportAnswer(exported: Result<Exported, string>)
    | ProposeAnswer(proposed: Result<Proposal, string>)
    | VoteAnswer(voted: Result<VoteOutput, string>)
    | PollAnswer(polls: seq<Poll>)
    | SwitchAnswer(switched: Result<SwitchOutput, string>)
    | SetVersionAnswer(saved: bool)

  /** One call that reached the world; no answer when the process died first. */
  datatype Event = Event(call: Call, answer: Option<Answer>)

  /** How the world answers a call, given all calls that reached it before. */
  datatype World = World(
    exportState: (seq<Event>, ExportInput) -> Result<Exported, string>,
    propose: (seq<Event>, ProposeInput) -> Result<Proposal, string>,
    vote: (seq<Event>, VoteInput) -> Result<VoteOutput, string>,
    polls: (seq<Event>, Call) -> seq<Poll>,
    switch: (seq<Event>, SwitchInput) -> Result<SwitchOutput, string>,
    setVersion: (seq<Event>, string) -> bool)

  // -------------------------------------------------------------------- faults

  /** What befalls one interaction: nothing, an error of the state file, or the
      death of the process, with the interaction having taken effect or not. */
  datatype Fault = Fine | Fails | Crash(applied: bool)

  /** `fault` is asked once per interaction; `can` is the transition table. */
  datatype Env = Env(world: World, fault: nat -> Fault, can: (Stage, Stage) -> bool)

  /** What happened to the persisted state, and after how many calls. */
  datatype Mark = Mark(at: nat, kind: MarkKind)

  datatype MarkKind = Saved(stage: Stage) | NotSaved | Refused | Crashed | Deleted | NotDeleted
  {
    /** The outcome of an attempt was lost. */
    predicate IsFault() {
      NotSaved? || Refused? || Crashed?
    }
  }

  /** The state file, the calls that reached the world, the marks, and the number
      of interactions so far. `deleted` records that a run removed the file. */
  datatype Machine = Machine(
    disk: Option<State>, calls: seq<Event>, marks: seq<Mark>, ticks: nat, deleted: bool)

  const FRESH: Machine := Machine(None, [], [], 0, false)

  function Noted(m: Machine, kind: MarkKind): Machine {
    m.(marks := m.marks + [Mark(|m.calls|, kind)])
  }

  function Ticked(m: Machine): Machine {
    m.(ticks := m.ticks + 1)
  }

  /** Either the process died, or it lived on with a value. */
  datatype Outcome<+T> = Died(m: Machine) | Lived(m: Machine, value: T)

  /** One call to the world. */
  function Perform(env: Env, m: Machine, call: Call, answer: Answer): Outcome<()>
  {
    match env.fault(m.ticks)
    case Crash(applied) =>
      Died(Noted(Ticked(if applied then m.(calls := m.calls + [Event(call, None)]) else m), Crashed))
    case _ => Lived(Ticked(m.(calls := m.calls + [Event(call, Some(answer))])), ())
  }

  function Written(m: Machine, s: State): Machine {
    Noted(m.(disk := Some(s)), Saved(s.stage))
  }

  /** An atomic save: the file holds the old or the new state, nothing else. */
  function Save(env: Env, m: Machine, s: State): Outcome<bool>
  {
    match env.fault(m.ticks)
    case Fine => Lived(Ticked(Written(m, s)), true)
    case Fails => Lived(Ticked(Noted(m, NotSaved)), false)
    case Crash(applied) => Died(Noted(Ticked(if applied then Written(m, s) else m), Crashed))
  }

  function Removed(m: Machine): Machine {
    Noted(m.(disk := None, deleted := true), Deleted)
  }

  function Delete(env: Env, m: Machine): Outcome<()>
  {
    match env.fault(m.ticks)
    case Fine => Lived(Ticked(Removed(m)), ())
    case Fails => Lived(Ticked(Noted(m, NotDeleted)), ())
    case Crash(applied) => Died(Noted(Ticked(if applied then Removed(m) else m), Crashed))
  }
}
