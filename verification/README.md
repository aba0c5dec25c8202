# Verification of the devnet builder

A Dafny model of the logic of the devnet builder that is easiest to get wrong,
with proofs of what it guarantees. `dafny verify dfyconfig.toml` checks all of it.

## What is modelled

**The resumable chain upgrade.** `UpgradeUseCase.dfy` has the two use cases as
objects that move an in-memory state, call the outside world and save to a state
file. `UpgradeWorkflow.dfy` and `UpgradeRefinement.dfy` give the same behaviour
as functions of an arbitrary environment (`UpgradeWorld.dfy`): the answers of the
world may depend on all earlier calls, the transition table is any predicate, and
at every call, save and delete the process may die, before or after it took
effect, or the state file may fail. Each method is proved equal to its function.
About any number of runs, each resuming from what the last one left on disk, the
theorems say which effects can repeat, what a persisted stage proves about the
past, what history looks like, that failures absorb, that every other state can
be carried to the end, which effects a run performs from a stage on
(`UpgradeEffects.dfy`), what its calls carry (`UpgradeArguments.dfy`), what it
reports and leaves on disk in success and failure (`UpgradeOutcomes.dfy`,
`UpgradeReports.dfy`), and exactly when the resumable version refines the plain
one. The polling loops (`ChainObservers.dfy`) run over arbitrary streams of RPC
answers, and `NodeSwitches.dfy` covers the tracking tables.

**The call data of a proposal.** `AbiEncoding.dfy` defines the encoding of the
Solidity Contract ABI Specification, section "Formal Specification of the
Encoding", and `SubmitProposal.dfy` compares the hand-written encoder with it and
with a decoder that follows the offsets. `UpgradeHeight.dfy` has the arithmetic of
the scheduled height, including the wrap-around of int64.

**Build configurations.** Contents, merge and validity (`BuildContents.dfy`), the
canonical bytes that are hashed (`BuildHash.dfy`), and the objects with their
slices and map (`BuildConfig.dfy`).

**Start flags and the probe cache.** The filter (`StartFlags.dfy`), and the
load-probe-store protocol for any number of threads (`ProbeCache.dfy`).

**The dependency container.** Each lazy getter as a short program of calls, lock,
construction and release, run by any number of threads as a state machine with a
stack per call, and the same getters as methods on one thread (`Container.dfy`).

**Ports, logs, stopping.** `PortAllocation.dfy`, `Decimal.dfy` (the 20-byte
`itoa`), `LogMerge.dfy`, `NodeStop.dfy`.

## What turned out not to hold unconditionally

- The encoder spends exactly one word on the denom. An empty denom still decodes
  but is not encoded as the standard demands; a denom over 32 bytes is cut and does
  not decode (`PrintedIsStandardIff`, `PrintedDecodesIff`).
- The comment on `Hash` promises different hashes for different configurations. A
  newline in a tag breaks this even for valid configurations (`NewlineCollides`),
  an equals sign in an environment key for invalid ones (`EqualsSignCollides`). It
  holds among configurations without them (`HashInputCanonical`), and every one of
  two or more entries collides with one that has them (`LongerTextIsShared`).
- Without governance the plain upgrade switches with height 0, the resumable one
  with the height of the input (`SkipRefines`); an export of a foreign type stops
  the plain governance run only (`GovernanceRefines`).
- A successful run reports the binary that was switched in exactly if it did the
  switch itself, or the binary has no name (`NewBinaryReportedIff`,
  `BinaryIsForgotten`).
- A negative requested buffer schedules the upgrade before the end of voting
  (`UpgradeAfterVotingIff`), and a very long voting period or buffer wraps the
  height (`HeightAboveIff`).
- `itoa` prints the least int64 as a bare minus sign (`ItoaCorrectIff`).
- The port check before a local deployment looks at the default ports once per
  validator, which are those assigned by index for one node at most
  (`CheckCoversOneNode`), the first if the base ports are the defaults
  (`CheckCoversNodeIff`).
- Which lines `--tail` shows depends on the order in which Go's map yields the
  nodes unless the cut falls between two rows (`OrderDoesNotShowIff`).
- Supporting fewer flags removes more, except that an empty set switches the
  start-flag filter off (`FilterMonotoneIff`).

A string of the source is taken to be valid UTF-8, and a `char` stands for one
code point: ordering by code points is ordering by bytes, and newlines and equals
signs are never part of another code point.

## Model

| member | source | states |
|---|---|---|
| UpgradeRuns.CrashResumeOrder | internal/application/upgrade/resumable_execute.go:93-396 | for every world, fault pattern, transition table and number of runs in one governance mode, the chain effects with consecutive repeats collapsed are a prefix of the workflow order, and the whole order once Completed is on disk or the state file is gone |
| UpgradeRuns.CrashResumeRepeats | internal/application/upgrade/resumable_execute.go:170-523 | two performances of one effect have a crash, failed save or refused transition between them, and every stage persisted between them is the stage of that effect |
| UpgradeEffects.RunPerforms | internal/application/upgrade/resumable_execute.go:102-396 | a run that finds a stage on disk performs the effects of the order from that stage on, each once and none skipped, up to where it ends; the stage's own effect is performed, whatever attempts came before, if and only if its call goes out |
| UpgradeEffects.RunFromDid | internal/application/upgrade/resumable_execute.go:200-396 | the same from any stage the switch is entered at |
| UpgradeEffects.ProposalCanRepeat | internal/application/upgrade/resumable_execute.go:178-229 | a proposal does go out twice, in every world and with or without an export, if the process dies in the first one after the call |
| UpgradeRuns.PersistedEvidence | internal/application/upgrade/resumable_execute.go:219-385 | the persisted stage testifies to its past: full vote past Voting, height read past WaitingForHeight, halt detected past ChainHalted, height increase after the switch at Completed; all votes, waits and switches used the id and height of the last accepted proposal |
| UpgradeArguments.RunUsesItsInput | internal/application/upgrade/resumable_execute.go:102-523 | every call that a run adds carries the input's values field by field, every vote is "yes" from all validators, and every recorded answer is the world's |
| UpgradeArguments.CallsUseInputs | internal/application/upgrade/resumable_execute.go:61-523 | after any runs every recorded call does so for one of the inputs |
| UpgradeArguments.PlainRunUsesItsInput | internal/application/upgrade/execute.go:61-253 | the calls of the plain upgrade, with or without governance, do so too |
| UpgradeArguments.PlainArgumentsFollow | internal/application/upgrade/execute.go:140-199 | in the plain governance run every vote, wait and switch uses the proposal accepted before it |
| UpgradeOutcomes.SuccessReport | internal/application/upgrade/resumable_execute.go:308-385 | a run that succeeds reports success, no error, the last accepted proposal and height and the height the chain went on at, or zeros if resumed at Completed, and ends by recording the target version |
| UpgradeOutcomes.ExportedPaths | internal/application/upgrade/resumable_execute.go:178-367 | the two export paths in the output are those of the exports the run made |
| UpgradeOutcomes.FailuresAreExplained | internal/application/upgrade/resumable_execute.go:201-367 | an output with an error carries the error that is returned, and the last call gave it: the message, the vote counts, or polls that never showed what was waited for |
| UpgradeOutcomes.PersistedPlanAndFailure | internal/application/upgrade/resumable_execute.go:61-85 | a persisted state has the plan of one of the inputs, and an error exactly at Failed, explained by the last call |
| UpgradeOutcomes.SkipSwitchHeights | internal/application/upgrade/resumable_execute.go:399-417 | without governance every switch is at the persisted height, which a new state takes from the input |
| UpgradeRuns.PersistedHistory | internal/application/upgrade/resumable_execute.go:501-518 | the persisted history is a chained walk from Initialized to the stage, strictly upwards, without repeats, with at most 8 entries |
| UpgradeRuns.SessionsKeep | internal/application/upgrade/resumable_execute.go:61-523 | the conjunction of the invariants holds after any number of runs |
| UpgradeRuns.ExecuteKeeps | internal/application/upgrade/resumable_execute.go:61-91 | one run, fresh or resumed, interrupted anywhere or not, keeps the invariants |
| UpgradeRuns.RefusingRunIsInert | internal/application/upgrade/resumable_execute.go:387-395 | a run on a Failed or ProposalRejected state, in either mode, makes no call, changes nothing and returns an error |
| UpgradeRuns.FailureAbsorbs | internal/application/upgrade/resumable_execute.go:387-395 | once Failed or ProposalRejected is on disk, any further runs leave calls and state as they are |
| UpgradeProgress.NeverRefused | internal/application/upgrade/state_transitioner.go:25-75 | with the actual transition table no run ever has a transition refused |
| UpgradeProgress.RepeatsNeedCrashOrFailedSave | internal/application/upgrade/resumable_execute.go:501-523 | with the actual table an effect repeats only after a crash or a failed save |
| UpgradeProgress.EveryStateCanComplete | internal/application/upgrade/resumable_execute.go:170-385 | from whatever runs left on disk short of a recorded failure, one undisturbed run completes, having performed the whole order of effects in all, and deletes the state file |
| UpgradeReports.NewBinaryReportedIff | internal/application/upgrade/resumable_execute.go:308-385 | after any number of runs, a successful run reports the binary last switched in if and only if it did the switch itself or that binary has the empty name |
| UpgradeReports.BinaryIsForgotten | internal/application/upgrade/resumable_execute.go:102-166 | a concrete pair of runs: the first dies before it verifies, the second succeeds and reports no binary although one was switched in |
| UpgradeReports.ResumeForgetsNewBinary | internal/application/upgrade/resumable_execute.go:330-385 | successful or not, a run resumed at VerifyingResume or later reports an empty new binary |
| UpgradeRefinement.GovernanceRefines | internal/application/upgrade/execute.go:110-253 | undisturbed, a fresh governance run of the resumable version makes the same calls with the same arguments and returns the same as the plain one if and only if the pre-upgrade export is not of a foreign type |
| UpgradeRefinement.SkipRefines | internal/application/upgrade/execute.go:61-107 | without governance the two versions agree if and only if the input height is 0 |
| UpgradeStates.TableServesWorkflows | internal/application/upgrade/state_transitioner.go:25-75 | the table grants every step of both workflows and Failed, leaves exactly the non-terminal stages, and only moves upwards |
| UpgradeStates.TableEdges | internal/application/upgrade/state_transitioner.go:25-75 | the table has the edges of the two workflows, failure from every open stage, rejection from two, and no other |
| UpgradeStates.TransitionMeaning | internal/application/upgrade/state_transitioner.go:81-110 | a transition sets the stage, appends one history entry, keeps the first failure reason and everything else |
| UpgradeStates.WalkIsShort | internal/application/ports/upgrade_state.go:117-136 | a history walk repeats no stage and has at most 8 entries |
| UpgradeUseCase.UpgradeState.TransitionTo | internal/application/upgrade/state_transitioner.go:81-110 | the in-place transition is the transition of the model; a refused one changes nothing |
| UpgradeUseCase.Outside.SaveState | internal/application/ports/upgrade_state.go:145-147 | a save leaves the old or the new state on disk, never anything else, and reports which unless the process dies |
| UpgradeUseCase.ResumableExecuteUpgradeUseCase.TransitionAndSave | internal/application/upgrade/resumable_execute.go:501-518 | effect on state, file and outcome equal the specification that the theorems are about |
| UpgradeUseCase.ResumableExecuteUpgradeUseCase.ExecuteVoting | internal/application/upgrade/resumable_execute.go:459-499 | calls, tracked votes and result equal the specification; a failed save of the votes is not reported |
| UpgradeUseCase.ResumableExecuteUpgradeUseCase.ExecuteSwitchBinary | internal/application/upgrade/resumable_execute.go:399-457 | calls, tracked nodes and result equal the specification; a failed save of the nodes is not reported |
| UpgradeUseCase.ResumableExecuteUpgradeUseCase.SubmitProposal | internal/application/upgrade/resumable_execute.go:201-229 | the propose case does what the specification says |
| UpgradeUseCase.ResumableExecuteUpgradeUseCase.VoteFromAll | internal/application/upgrade/resumable_execute.go:238-266 | the vote case does what the specification says |
| UpgradeUseCase.ResumableExecuteUpgradeUseCase.AwaitHeight | internal/application/upgrade/resumable_execute.go:268-286 | the wait-for-height case does what the specification says |
| UpgradeUseCase.ResumableExecuteUpgradeUseCase.AwaitHalt | internal/application/upgrade/resumable_execute.go:288-306 | the wait-for-halt case does what the specification says |
| UpgradeUseCase.ResumableExecuteUpgradeUseCase.SwitchBinary | internal/application/upgrade/resumable_execute.go:308-328 | the switch case does what the specification says, in both modes |
| UpgradeUseCase.ResumableExecuteUpgradeUseCase.VerifyResume | internal/application/upgrade/resumable_execute.go:330-367 | the verify case with its optional export does what the specification says |
| UpgradeUseCase.ResumableExecuteUpgradeUseCase.Finish | internal/application/upgrade/resumable_execute.go:369-385 | the completed case records the version, deletes the state and succeeds |
| UpgradeUseCase.ResumableExecuteUpgradeUseCase.ExportFirst | internal/application/upgrade/resumable_execute.go:178-198 | only a fresh governance run exports first; a failed export ends it |
| UpgradeUseCase.ResumableExecuteUpgradeUseCase.ExecuteGovernance | internal/application/upgrade/resumable_execute.go:200-306 | the governance stages up to the switch follow the specification from any stage |
| UpgradeUseCase.ResumableExecuteUpgradeUseCase.ExecuteSkipGov | internal/application/upgrade/resumable_execute.go:93-168 | the whole skip-governance run equals the specification |
| UpgradeUseCase.ResumableExecuteUpgradeUseCase.ExecuteWithGov | internal/application/upgrade/resumable_execute.go:170-397 | the whole governance run equals the specification |
| UpgradeUseCase.ResumableExecuteUpgradeUseCase.Execute | internal/application/upgrade/resumable_execute.go:61-91 | one run, with a loaded state or a new one, equals the function that the theorems quantify over |
| UpgradeUseCase.ExecuteUpgradeUseCase.SwitchAndVerify | internal/application/upgrade/execute.go:187-252 | calls and result of the plain tail equal the plain specification |
| UpgradeUseCase.ExecuteUpgradeUseCase.ExecuteSkipGov | internal/application/upgrade/execute.go:61-107 | the plain run without governance equals its specification |
| UpgradeUseCase.ExecuteUpgradeUseCase.ProposeAndOn | internal/application/upgrade/execute.go:140-252 | the plain governance steps equal the plain specification |
| UpgradeUseCase.ExecuteUpgradeUseCase.ExecuteWithGov | internal/application/upgrade/execute.go:110-253 | the plain governance run equals the specification that is refined |
| ChainObservers.RunWaitForUpgradeHeight | internal/application/upgrade/execute.go:272-369 | the polling loop returns the verdict function of the answers |
| ChainObservers.RunWaitForChainHalt | internal/application/upgrade/execute.go:411-475 | the polling loop with its counter and last height returns the verdict function |
| ChainObservers.RunVerifyChainResumed | internal/application/upgrade/execute.go:477-522 | the polling loop returns the verdict function |
| ChainObservers.WaitForUpgradeHeightMeaning | internal/application/upgrade/execute.go:272-369 | success if and only if some poll reads the target height or more before an RPC error or cancellation |
| ChainObservers.WaitForChainHaltMeaning | internal/application/upgrade/execute.go:411-475 | a halt is detected at poll k if and only if k is the first poll whose latest three observations are errors or the previously read height, not below the target, with no overshoot and nothing late or cancelled |
| ChainObservers.HaltTakesThreePolls | internal/application/upgrade/execute.go:411-475 | a halt at poll k if and only if polls k-2, k-1 and k are the first three in a row that fail or repeat the last read at or above the target, with no read more than ten above it and nothing late or cancelled |
| ChainObservers.HaltVerdictMeaning | internal/application/upgrade/execute.go:419-472 | the first poll that ends the wait decides between time-out, cancellation and overshoot |
| ChainObservers.ResumeVerdictMeaning | internal/application/upgrade/execute.go:480-521 | the first poll that ends the wait decides between time-out and cancellation |
| ChainObservers.HeightVerdictMeaning | internal/application/upgrade/execute.go:290-369 | the first poll that ends the wait decides between success, failure and cancellation |
| ChainObservers.LastReadMeaning | internal/application/upgrade/execute.go:413-467 | the previously read height is that of the last poll that was answered, 0 at first |
| ChainObservers.HaltWindowIsConstant | internal/application/upgrade/execute.go:411-475 | the heights read in the window of a halt are one constant within ten blocks above the target |
| ChainObservers.VerifyChainResumedMeaning | internal/application/upgrade/execute.go:477-522 | resumption at height h is reported at poll k if and only if k is the first poll that reads more than the positive height read before it, errors ignored |
| NodeSwitches.NodeNameInjective | internal/application/upgrade/resumable_execute.go:420-423 | different node indices have different names |
| NodeSwitches.UpsertAllRecords | internal/application/upgrade/resumable_execute.go:419-448 | from distinct names, node0..node(n-1) each have one finished entry, names stay distinct, all other entries and the order stay |
| NodeSwitches.UpsertAllIdempotent | internal/application/upgrade/resumable_execute.go:419-448 | recording the same switch again changes nothing |
| NodeSwitches.RecordSwitch | internal/application/upgrade/resumable_execute.go:419-448 | the nested loops compute the upserted entries |
| NodeSwitches.RunRecordVotes | internal/application/upgrade/resumable_execute.go:474-490 | the loop records one vote per transaction by position and keeps the rest |
| NodeSwitches.VotesRecorded | internal/application/upgrade/resumable_execute.go:474-490 | one voted entry per transaction, addresses kept, new entries named by position, the rest unchanged |
| NodeSwitches.SwitchedMeaning | internal/application/upgrade/resumable_execute.go:425-447 | a restarted node has an entry with all three flags and both binaries |
| NodeSwitches.NodeNameMeaning | internal/application/upgrade/resumable_execute.go:422-422 | a node is named "node" and its number |
| Decimal.PrintIntRoundTrip | types/ports.go:155-182 | a numeral reads back as its number, has no leading zero, and starts with a minus exactly for negative numbers |
| Decimal.PrintInjective | types/ports.go:155-182 | different numbers have different numerals |
| Decimal.PrintLength | types/ports.go:166-167 | k digits suffice exactly below 10^k |
| Decimal.PrintsDecimal | types/ports.go:170-174 | one more digit stands for ten times the number and the digit |
| Decimal.Itoa | types/ports.go:156-182 | all writes stay in the 20-byte buffer; the result is the numeral, or a bare minus for the least int64 |
| Decimal.WriteDigits | types/ports.go:166-174 | the loop fills the buffer from the right with the numeral and leaves room for a sign |
| Decimal.ItoaCorrectIff | types/ports.go:156-182 | the result denotes the argument if and only if it is not the least int64 |
| SubmitProposal.PrintedIsStandardIff | internal/application/upgrade/propose.go:366-426 | the bytes after the selector are the standard encoding if and only if the denom has 1 to 32 bytes |
| SubmitProposal.PrintedDecodesIff | internal/application/upgrade/propose.go:366-426 | they decode to the arguments if the denom has at most 32 bytes and not at all otherwise |
| SubmitProposal.PrintedLength | internal/application/upgrade/propose.go:366-426 | their length is 320 plus the proposal length rounded up to 32 |
| SubmitProposal.PrintedLayout | internal/application/upgrade/propose.go:382-423 | the address stands behind twelve zeros, the proposal at byte 128, the denom in the last word, zeros after them |
| AbiEncoding.BigEndianMeaning | internal/application/upgrade/propose.go:386-418 | numbers are written most significant byte first |
| SubmitProposal.BuildCallData | internal/application/upgrade/propose.go:366-426 | the appending procedure yields the selector followed by bytes with the three properties above |
| SubmitProposal.EncArguments | internal/application/upgrade/propose.go:366-426 | the standard encoding of the three arguments, unfolded into heads and tails |
| SubmitProposal.PaddedNumber | internal/application/upgrade/propose.go:385-424 | the left-padded shortest big-endian form of a number is its 32-byte word |
| UpgradeHeight.BufferLasts | internal/application/upgrade/propose.go:172-203 | the automatic buffer is 10 to 200 blocks; its duration is bounded from both sides |
| UpgradeHeight.BufferShrinks | internal/application/upgrade/propose.go:172-203 | slower blocks never get a longer buffer |
| UpgradeHeight.HeightIsSum | internal/application/upgrade/propose.go:122-166 | without wrap-around the time to the upgrade is the voting period plus the buffer, within one block |
| UpgradeHeight.AutomaticHeightLeavesTime | internal/application/upgrade/propose.go:122-203 | from height 5 on the upgrade comes later than the voting period by more than min(80 s, 200 blocks) less two blocks, by more than nine blocks, and by at most max(80 s, 10 blocks) |
| UpgradeHeight.ScheduledAfterChainVoting | internal/application/upgrade/propose.go:122-203 | the same bounds in nanoseconds on what the chain answers, whatever voting period the input names |
| UpgradeHeight.RequestedBufferIsKept | internal/application/upgrade/propose.go:153-166 | a requested buffer is added as it is |
| UpgradeHeight.Fallbacks | internal/application/upgrade/propose.go:122-147 | the input's voting period and two seconds stand in for missing answers; a missing height or a block time of zero ends it |
| UpgradeHeight.EarlyChainGetsForty | internal/application/upgrade/propose.go:179-183 | below height 5 the automatic buffer is 40 blocks |
| UpgradeHeight.QuoTruncates | internal/application/upgrade/propose.go:150-150 | the division drops the fraction towards zero, for all signs |
| UpgradeHeight.UpgradeAfterVotingIff | internal/application/upgrade/propose.go:122-166 | the upgrade is not scheduled before the end of voting if and only if the requested buffer is not negative |
| UpgradeHeight.HeightAboveIff | internal/application/upgrade/propose.go:122-166 | for every requested buffer the height is above the current one if and only if the blocks to wait are positive in number and the sums fit int64 |
| UpgradeHeight.HeightWrapsIff | internal/application/upgrade/propose.go:122-203 | with the automatic buffer only the wrap-around remains |
| BuildHash.HashInputCanonical | pkg/network/build_config.go:298-342 | clean configurations feed equal bytes to the hash if and only if tags, flags and arguments agree as multisets and the variables are equal |
| BuildHash.SameHashInput | pkg/network/build_config.go:298-342 | configurations equal up to order feed equal bytes, clean or not |
| BuildHash.HashedText | pkg/network/build_config.go:303-337 | the bytes for one entry of each kind, letter by letter |
| BuildHash.HashedInOrder | pkg/network/build_config.go:305-311 | two entries of one kind are hashed in ascending order |
| BuildHash.HashMeaning | pkg/network/build_config.go:298-342 | hashes, including those of missing and empty configurations, are equal if and only if the contents are equal up to order or the digest collides |
| BuildHash.MergeOrderHashIff | pkg/network/build_config.go:208-342 | merging in the other order keeps the hash input if and only if no variable has two values |
| BuildHash.LongerTextIsShared | pkg/network/build_config.go:298-342 | every configuration of two or more entries shares its bytes with one of different contents, so both sides must be clean |
| BuildHash.LastLine | pkg/network/build_config.go:298-342 | a configuration without its last line, and with more text in it, is again one with the lines to match |
| BuildHash.NewlineCollides | pkg/network/build_config.go:84-98 | two valid configurations with different tags and equal hash input: a newline inside a tag |
| BuildHash.EqualsSignCollides | pkg/network/build_config.go:327-329 | an equals sign in a key makes different variables collide |
| BuildHash.ValidIsCleanIff | pkg/network/build_config.go:61-170 | a valid configuration is clean if and only if tags, flags, arguments and keys have no newline |
| BuildContents.MergeAssociative | pkg/network/build_config.go:208-247 | merging is associative, missing sides included |
| BuildContents.MergeKeepsOrder | pkg/network/build_config.go:226-244 | each list starts with the base's and goes on with the other's; a variable of the other side wins |
| BuildContents.MergeWithMissing | pkg/network/build_config.go:209-217 | a missing side gives the other, two give nothing |
| BuildContents.OneTagValidIff | pkg/network/build_config.go:85-98 | one tag is valid if and only if it is not blank |
| BuildContents.OneFlagValidIff | pkg/network/build_config.go:101-125 | one flag is valid if and only if it is not blank, starts with a hyphen and has none of four parts in any case |
| BuildContents.OneVariableValidIff | pkg/network/build_config.go:130-170 | one variable is valid if and only if its name is one of thirteen and its value free of six characters |
| BuildContents.MergeNeutral | pkg/network/build_config.go:208-247 | a missing and an empty side are neutral |
| BuildContents.MergedValidIff | pkg/network/build_config.go:61-247 | the exact condition for a merge of any two configurations to be valid |
| BuildContents.MergeOfValidIff | pkg/network/build_config.go:61-247 | two valid configurations merge to a valid one if and only if their trimmed tag sets are disjoint |
| BuildConfig.Clone | pkg/network/build_config.go:252-273 | a fresh configuration with fresh, distinct parts and equal contents |
| BuildConfig.MergeConfigs | pkg/network/build_config.go:208-247 | a fresh configuration with fresh, distinct parts holding the merged contents, whatever the map order; both inputs unchanged |
| BuildConfig.HashOf | pkg/network/build_config.go:298-342 | the digest is taken of the canonical input, in whatever order the map yields its keys; "empty" for missing and empty ones |
| BuildConfig.SortedVariables | pkg/network/build_config.go:322-329 | collecting the keys in any order and sorting them gives the canonical list of variables |
| BuildConfig.ValidateTags | pkg/network/build_config.go:85-98 | reports the first tag that is empty or repeated, if and only if there is one |
| BuildConfig.ValidateLDFlags | pkg/network/build_config.go:101-125 | reports the first invalid flag with a true reason, if and only if there is one |
| BuildConfig.ValidateEnv | pkg/network/build_config.go:152-170 | reports some invalid variable with a true reason, if and only if there is one |
| BuildConfig.Validate | pkg/network/build_config.go:61-82 | accepts exactly the valid configurations and reports tags before flags before variables |
| SortedStrings.SortedUnique | pkg/network/build_config.go:308-308 | there is one sorted arrangement of a multiset of strings |
| SortedStrings.SortCanonical | pkg/network/build_config.go:305-337 | sorting forgets the order and nothing else |
| SortedStrings.LeqMeaning | pkg/network/build_config.go:308-308 | a string comes first if it is a prefix or has the smaller character at the first difference |
| Trimming.TrimMeaning | pkg/network/build_config.go:88-88 | trimming cuts white space off both ends until neither end is white space |
| StartFlags.FilterUnsupportedLongFlags | internal/application/commandcompat/start_flags.go:188-231 | the loop with its look-ahead returns the tokens that are neither an unsupported long flag nor the value of the one before, everything from "--" on, and the sorted names of the removed flags |
| StartFlags.FilterMeaning | internal/application/commandcompat/start_flags.go:188-231 | the result is a subsequence, ends as the arguments do from the first "--", and has only supported long flags before it |
| StartFlags.FilterPlainToken | internal/application/commandcompat/start_flags.go:196-207 | "--" ends the filter, and a token without leading "--" is kept |
| StartFlags.FilterFlagWithValue | internal/application/commandcompat/start_flags.go:203-218 | a flag with "=" stays if and only if its name is supported |
| StartFlags.FilterBareFlag | internal/application/commandcompat/start_flags.go:203-218 | a flag without "=" stays if and only if it is supported; if it goes, the next token goes with it unless it is blank or starts with a hyphen |
| StartFlags.FlagSurvivesIff | internal/application/commandcompat/start_flags.go:209-212 | a flag before "--" is there after filtering if and only if it is supported |
| StartFlags.ReportedIff | internal/application/commandcompat/start_flags.go:214-228 | a name is reported if and only if it is not supported and some token before "--" spells it |
| StartFlags.FlagNameMeaning | internal/application/commandcompat/start_flags.go:233-242 | a flag is named by what stands before the first "=" |
| StartFlags.FilterIdempotent | internal/application/commandcompat/start_flags.go:188-231 | filtering again removes nothing |
| StartFlags.UnchangedIff | internal/application/commandcompat/start_flags.go:220-222 | the arguments come back unchanged if and only if no flag is reported |
| StartFlags.FilterMonotoneIff | internal/application/commandcompat/start_flags.go:188-231 | a larger supported set keeps a supersequence and reports fewer names if and only if the smaller one is not empty or the larger one removes nothing |
| StartFlags.ValueIsNoFlag | internal/application/commandcompat/start_flags.go:244-250 | a token skipped as a value is never a long flag or "--" |
| SortedStrings.ListingMembers | internal/application/commandcompat/start_flags.go:224-228 | the report has exactly the removed names, each once |
| SortedStrings.ListingSorted | internal/application/commandcompat/start_flags.go:224-228 | the report is sorted |
| ProbeCache.ReturnedCallsAgree | internal/application/commandcompat/start_flags.go:103-125 | in every interleaving all returned calls for a key have the same entry, built by a call for that key |
| ProbeCache.ReturnedEntryWasProbed | internal/application/commandcompat/start_flags.go:113-124 | what a returned call has was found by a probe that a call for its key made |
| ProbeCache.EntryNeverChanges | internal/application/commandcompat/start_flags.go:103-125 | the entry of a returned call stays the entry of its key whatever follows |
| ProbeCache.LaterCallsDoNotProbe | internal/application/commandcompat/start_flags.go:108-113 | a call started after a call for the key returned never probes |
| ProbeCache.ThreeStepsSuffice | internal/application/commandcompat/start_flags.go:103-125 | every call returns within three steps of its own, however others are scheduled |
| ProbeCache.OverlappingCallsBothProbe | internal/application/commandcompat/start_flags.go:113-124 | two overlapping calls can both probe; the later store yields to the earlier |
| Container.Disciplined | internal/di/container.go:455-865 | every getter calls others and takes the lock only while it does not hold it, builds what it caches only while it does, and ends without it |
| Container.DependencyLists | internal/di/container.go:530-865 | which getters call which, and in what order |
| Container.NeverAsksWhileHolding | internal/di/container.go:455-865 | in every interleaving the lock is held only by the innermost activation of one call, and no call asks for it while holding it |
| Container.SomeCallCanStep | internal/di/container.go:455-865 | while some call has not returned, some call can step |
| Container.WorkIsConserved | internal/di/container.go:455-865 | steps taken plus work left equal the work of the calls entered, so no schedule goes on for ever |
| Container.AllReturnedIff | internal/di/container.go:455-865 | all calls have returned if and only if that many steps were taken |
| Container.SameObjectIff | internal/di/container.go:455-865 | two calls of one getter return the same object if and only if the getter caches |
| Container.BuiltFromDependencies | internal/di/container.go:530-865 | every returned object was built from one object per dependency, in order, the cached one where there is one |
| Container.LazyContainer.Get | internal/di/container.go:455-865 | a getter on one thread never takes the lock twice, returns the cached instance if there is one, and replaces nothing |
| Container.LazyContainer.GetDependencies | internal/di/container.go:616-640 | the dependencies are fetched in order before the lock is taken |
| PortAllocation.DistinctIff | internal/application/devnet/provision.go:292-306 | the ports of n nodes are all different if and only if any two base ports differ modulo 100 or lie 100 n apart |
| PortAllocation.DistinctForEveryCountIff | internal/application/devnet/provision.go:292-306 | no number of nodes makes two ports equal if and only if the base ports differ pairwise modulo 100 |
| PortAllocation.DefaultsDistinct | internal/application/devnet/provision.go:292-306 | with the default ports two assigned ports are equal only for the same node and service |
| PortAllocation.NodePortsMeaning | internal/application/devnet/provision.go:292-306 | each node is a hundred ports above the one before, service by service, from the base ports on, without a proxy port |
| PortAllocation.OffsetsAddUp | types/ports.go:97-112 | offsets add up on all ten ports |
| PortAllocation.DockerPortsInOrder | internal/application/devnet/docker_deploy.go:283-294 | containers are a hundred ports apart, their six services in a row |
| PortAllocation.DefaultsInRangeIff | types/ports.go:5-35 | they are valid port numbers if and only if the index is at most 388 |
| PortAllocation.CheckCoversNodeIff | cmd/devnet-builder/commands/manage/deploy.go:1026-1037 | with the default ports, the ports checked before a local deployment contain those assigned to a node if and only if it is the first one |
| PortAllocation.CheckCoversOneNode | cmd/devnet-builder/commands/manage/deploy.go:1026-1037 | whatever base ports a network module declares, the check covers at most one node |
| PortAllocation.DockerPortsDisjoint | internal/application/devnet/docker_deploy.go:283-294 | the ports of n containers differ and lie in [base, base + 100 n) |
| LogMerge.MergedLogs | cmd/dvb/logs.go:414-441 | for some traversal order of the map the shown entries are the tail of the transposed files: ascending in line number, per node a suffix of its file, the whole file without a tail |
| LogMerge.SortTransposes | cmd/dvb/logs.go:414-437 | an output is a stable sort of the collected lines if and only if it is the transposition: all first lines, then all second lines, each row in traversal order |
| LogMerge.StablySortedUnique | cmd/dvb/logs.go:435-437 | a stable sort by line number has one result |
| LogMerge.SortPermutes | cmd/dvb/logs.go:435-437 | no line is lost, repeated or invented |
| LogMerge.NodeOrderKept | cmd/dvb/logs.go:414-437 | whatever the traversal order, the lines of each node come out complete and in their order |
| LogMerge.NodeLinesKept | cmd/dvb/logs.go:422-431 | they are the lines of its file, numbered from 0 |
| LogMerge.TailMeaning | cmd/dvb/logs.go:439-441 | the tail is the end of the output, as long as asked for |
| LogMerge.TailShowsSuffixes | cmd/dvb/logs.go:439-441 | after the tail the lines of each node are a suffix of its file |
| LogMerge.OrderDoesNotShowIff | cmd/dvb/logs.go:414-441 | the shown lines are the same for every traversal order if and only if as many lines are dropped as the files have up to some line number |
| LogMerge.HeadLength | cmd/dvb/logs.go:435-441 | the number of dropped lines, from the lengths of the files |
| NodeStop.StopNodes | internal/application/devnet/run.go:320-378 | every node is stopped, skipped or warned about once; a node loses its handles exactly when it is counted as stopped; in local mode no warnings means no process left and conversely |
| NodeStop.EveryNodeCounted | internal/application/devnet/run.go:320-378 | stopped, skipped and warnings add up to the number of nodes |
| NodeStop.FateMeaning | internal/application/devnet/run.go:324-378 | which nodes are stopped, skipped or warned about, and with which warning |
| NodeStop.WarningsInOrder | internal/application/devnet/run.go:324-378 | warnings come in the order of the nodes |

## Left out

- The `resume` command that detects a stage from the chain or takes one from the command line: only runs from the persisted stage are covered.
- Runs that resume with the other governance mode: the theorems on order and evidence assume one mode, `RefusingRunIsInert` does not.
- Two upgrades at once: the lock file that excludes them is outside the model.
- The state file's format, checksum and version; a save is atomic, as its contract says, and a failed save leaves the old state.
- Timestamps, durations, the transition's free-text reason, log output, progress bars and ETA.
- Clocks and cancellation: each poll carries arbitrary flags for a passed deadline and a cancelled context.
- Block heights in the upgrade workflow and the observers are unbounded integers; `UpgradeHeight` has the wrap-around of int64.
- The parsing of the proposer's hexadecimal address and of the decimal deposit: the encoder starts from 20 bytes and a number below 2^256, and its lengths leave int64 in range.
- SHA-256 is any function, Keccak and signing are not part of the model; the facts are about the bytes fed to them.
- Strings that are not valid UTF-8.
- A nil slice or map of a build configuration is modelled as an empty one.
- The extraction of flags from help output by a regular expression, and running the probe command.
- The container's setters and its `NetworkModule` reader, which hold the same lock for one assignment; the constructors of use cases, taken not to call back into the container.
- That loads of the container's cached fields are atomic only under the lock: a step inside the lock is one step here.
- The second container, `container_v2.go`, and its providers.
- In `NodeStop` the saving of a node's record, whose failure the source only logs, the metadata status and the clean-up of containers by name.
- NodeStop.StopNodes: asks for different node records, which is what loading them one by one yields.
- The following of single log files and the colouring of lines; a file that fails halfway counts as ending there.
- Starting nodes, provisioning, genesis and snapshot handling, YAML conversion: branch by branch claims only.
