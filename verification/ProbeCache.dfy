/** The cache of start-help probes, shared by any number of threads
    (internal/application/commandcompat/start_flags.go:103-125). */
module ProbeCache {
  /** What a probe found: the supported flags or an error. */
  datatype Found = Flags(supported: set<string>) | Failed(message: string)

  /** A cache entry, identified by the call that built it. */
  datatype Entry = Entry(builder: nat, found: Found)

  /** Where a call of `getCachedSupportedStartFlags` stands: before `Load`, before
      the probe, before `LoadOrStore`, or returned. */
  datatype Phase = Loading | Probing | Storing(entry: Entry) | Returned(result: Entry)

  datatype Call = Call(key: string, phase: Phase)

  /** The calls in the order they were started, and the map. */
  datatype State = State(calls: seq<Call>, cache: map<string, Entry>)

  const INITIAL := State([], map[])

  /** A thread starts a call, or a started call takes its next atomic step; a
      probe that runs in that step finds `found`. */
  datatype Action = Start(key: string) | Step(call: nat, found: Found)

  function StepCall(s: State, i: nat, found: Found): State
    requires i < |s.calls|
  {
    var call := s.calls[i];
    var cached := call.key in s.cache;
    match call.phase
    case Loading =>
      Moved(s, i, if cached then Returned(s.cache[call.key]) else Probing)
    case Probing =>
      Moved(s, i, Storing(Entry(i, found)))
    case Storing(entry) =>
      if cached then Moved(s, i, Returned(s.cache[call.key]))
      else Moved(s, i, Returned(entry)).(cache := s.cache[call.key := entry])
    case Returned(_) => s
  }

  function Moved(s: State, i: nat, phase: Phase): State
    requires i < |s.calls|
  {
    s.(calls := s.calls[i := s.calls[i].(phase := phase)])
  }

  function Next(s: State, a: Action): State {
    match a
    case Start(key) => s.(calls := s.calls + [Call(key, Loading)])
    case Step(i, found) => if i < |s.calls| then StepCall(s, i, found) else s
  }

  /** The state after a sequence of actions, in any interleaving. */
  function Run(s: State, actions: seq<Action>): State
  {
    if actions == [] then s
    else Next(Run(s, actions[..|actions| - 1]), actions[|actions| - 1])
  }

  // ------------------------------------------------------------------ invariant

  ghost predicate Built(s: State, key: string, e: Entry) {
    && e.builder < |s.calls|
    && s.calls[e.builder].key == key
    && !s.calls[e.builder].phase.Loading? && !s.calls[e.builder].phase.Probing?
  }

  /** Every entry was built by a call for its key, and every returned call has
      the entry that is in the map. */
  ghost predicate Coherent(s: State) {
    && (forall k :: k in s.cache ==> Built(s, k, s.cache[k]))
    && (forall i :: 0 <= i < |s.calls| ==>
          match s.calls[i].phase
          case Storing(entry) => entry.builder == i
          case Returned(result) => s.calls[i].key in s.cache && s.cache[s.calls[i].key] == result
          case _ => true)
  }

  /** Nothing started is forgotten, and nothing cached is replaced. */
  ghost predicate Extends(s: State, t: State) {
    && |s.calls| <= |t.calls|
    && (forall i :: 0 <= i < |s.calls| ==> t.calls[i].key == s.calls[i].key)
    && (forall i :: 0 <= i < |s.calls| && s.calls[i].phase.Returned? ==> t.calls[i] == s.calls[i])
    && (forall k :: k in s.cache ==> k in t.cache && t.cache[k] == s.cache[k])
  }

  lemma StepKeeps(s: State, a: Action)
    requires Coherent(s)
    ensures Coherent(Next(s, a)) && Extends(s, Next(s, a))
  {
    StepExtends(s, a);
    BuiltStays(s, a);
    var t := Next(s, a);
    hide Built;
    match a
    case Start(_) =>
    case Step(i, found) =>
      if i < |s.calls| && s.calls[i].phase.Storing? {
        NewlyBuilt(s, i, found);
      }
  }

  lemma NewlyBuilt(s: State, i: nat, found: Found)
    requires i < |s.calls| && s.calls[i].phase.Storing? && s.calls[i].phase.entry.builder == i
    ensures Built(Next(s, Step(i, found)), s.calls[i].key, s.calls[i].phase.entry)
  {
  }

  lemma BuiltStays(s: State, a: Action)
    ensures forall k, e :: Built(s, k, e) ==> Built(Next(s, a), k, e)
  {
  }

  lemma StepExtends(s: State, a: Action)
    requires Coherent(s)
    ensures Extends(s, Next(s, a))
  {
    hide Built;
  }

  lemma {:induction false} RunKeeps(s: State, actions: seq<Action>)
    requires Coherent(s)
    ensures Coherent(Run(s, actions)) && Extends(s, Run(s, actions))
  {
    hide Coherent, Next;
    if actions != [] {
      RunKeeps(s, actions[..|actions| - 1]);
      StepKeeps(Run(s, actions[..|actions| - 1]), actions[|actions| - 1]);
    }
  }

  lemma {:induction false} RunSplits(s: State, actions: seq<Action>, more: seq<Action>)
    ensures Run(s, actions + more) == Run(Run(s, actions), more)
  {
    if more == [] {
      assert actions + more == actions;
    } else {
      RunSplits(s, actions, more[..|more| - 1]);
      assert (actions + more)[..|actions + more| - 1] == actions + more[..|more| - 1];
    }
  }

  // --------------------------------------------------------------------- claims

  /** In every interleaving all returned calls for one key have the same entry,
      and that entry was built from a probe for the key. */
  lemma ReturnedCallsAgree(actions: seq<Action>, i: nat, j: nat)
    requires i < |Run(INITIAL, actions).calls| && j < |Run(INITIAL, actions).calls|
    requires var calls := Run(INITIAL, actions).calls;
             calls[i].phase.Returned? && calls[j].phase.Returned? && calls[i].key == calls[j].key
    ensures var s := Run(INITIAL, actions);
            && s.calls[i].phase.result == s.calls[j].phase.result
            && Built(s, s.calls[i].key, s.calls[i].phase.result)
  {
    RunKeeps(INITIAL, actions);
  }

  /** What an entry holds was found by a probe of the call that built it. */
  ghost predicate Probed(s: State, actions: seq<Action>) {
    && (forall k :: k in s.cache ==> Step(s.cache[k].builder, s.cache[k].found) in actions)
    && (forall i :: 0 <= i < |s.calls| && s.calls[i].phase.Storing? ==>
          s.calls[i].phase.entry.builder == i && Step(i, s.calls[i].phase.entry.found) in actions)
  }

  lemma {:induction false} EntriesAreProbed(actions: seq<Action>)
    ensures Probed(Run(INITIAL, actions), actions)
  {
    if actions != [] {
      var before, a := actions[..|actions| - 1], actions[|actions| - 1];
      EntriesAreProbed(before);
      ProbedStep(Run(INITIAL, before), before, a);
      assert before + [a] == actions;
    }
  }

  lemma ProbedStep(s: State, actions: seq<Action>, a: Action)
    requires Probed(s, actions)
    ensures Probed(Next(s, a), actions + [a])
  {
    assert forall x :: x in actions ==> x in actions + [a];
    assert a in actions + [a];
  }

  /** A returned call's entry holds what a probe found that some call for its key
      made. */
  lemma ReturnedEntryWasProbed(actions: seq<Action>, i: nat)
    requires i < |Run(INITIAL, actions).calls| && Run(INITIAL, actions).calls[i].phase.Returned?
    ensures var s := Run(INITIAL, actions);
            var e := s.calls[i].phase.result;
            && Step(e.builder, e.found) in actions
            && e.builder < |s.calls| && s.calls[e.builder].key == s.calls[i].key
  {
    RunKeeps(INITIAL, actions);
    EntriesAreProbed(actions);
  }

  /** Whatever happens later, a returned call's entry stays the entry of its key. */
  lemma EntryNeverChanges(actions: seq<Action>, more: seq<Action>, i: nat)
    requires i < |Run(INITIAL, actions).calls| && Run(INITIAL, actions).calls[i].phase.Returned?
    ensures var s, t := Run(INITIAL, actions), Run(INITIAL, actions + more);
            && i < |t.calls| && t.calls[i] == s.calls[i]
            && s.calls[i].key in t.cache && t.cache[s.calls[i].key] == s.calls[i].phase.result
  {
    RunKeeps(INITIAL, actions);
    RunKeeps(Run(INITIAL, actions), more);
    RunSplits(INITIAL, actions, more);
  }

  /** Calls from `n` on for `key` have neither probed nor are about to. */
  ghost predicate NoProbeFrom(s: State, n: nat, key: string, e: Entry) {
    && key in s.cache && s.cache[key] == e
    && (forall i :: n <= i < |s.calls| && s.calls[i].key == key ==>
          s.calls[i].phase.Loading? || s.calls[i].phase == Returned(e))
  }

  lemma {:induction false} NoProbeStays(s: State, actions: seq<Action>, n: nat, key: string, e: Entry)
    requires NoProbeFrom(s, n, key, e)
    ensures NoProbeFrom(Run(s, actions), n, key, e)
  {
    if actions != [] {
      NoProbeStays(s, actions[..|actions| - 1], n, key, e);
    }
  }

  /** A call started after a call for the same key has returned never probes: it
      is either about to load or has returned the same entry. */
  lemma LaterCallsDoNotProbe(actions: seq<Action>, more: seq<Action>, i: nat, j: nat)
    requires i < |Run(INITIAL, actions).calls| && Run(INITIAL, actions).calls[i].phase.Returned?
    requires |Run(INITIAL, actions).calls| <= j < |Run(INITIAL, actions + more).calls|
    requires Run(INITIAL, actions + more).calls[j].key == Run(INITIAL, actions).calls[i].key
    ensures var phase := Run(INITIAL, actions + more).calls[j].phase;
            phase.Loading? || phase == Run(INITIAL, actions).calls[i].phase
  {
    var s := Run(INITIAL, actions);
    RunKeeps(INITIAL, actions);
    RunSplits(INITIAL, actions, more);
    NoProbeStays(s, more, |s.calls|, s.calls[i].key, s.calls[i].phase.result);
  }

  // ------------------------------------------------------------------- progress

  /** The steps of call `i` in a sequence of actions. */
  function StepsOf(i: nat, actions: seq<Action>): nat
  {
    if actions == [] then 0
    else StepsOf(i, actions[..|actions| - 1])
         + (if actions[|actions| - 1].Step? && actions[|actions| - 1].call == i then 1 else 0)
  }

  function StepsLeft(phase: Phase): nat {
    match phase
    case Loading => 3
    case Probing => 2
    case Storing(_) => 1
    case Returned(_) => 0
  }

  /** A call returns after at most three steps of its own, however the others are
      scheduled: nobody waits for anybody. */
  lemma {:induction false} ThreeStepsSuffice(s: State, actions: seq<Action>, i: nat)
    requires i < |s.calls|
    ensures i < |Run(s, actions).calls|
    ensures StepsLeft(Run(s, actions).calls[i].phase) + StepsOf(i, actions) <= StepsLeft(s.calls[i].phase)
            || Run(s, actions).calls[i].phase.Returned?
    ensures StepsOf(i, actions) >= 3 ==> Run(s, actions).calls[i].phase.Returned?
  {
    if actions != [] {
      ThreeStepsSuffice(s, actions[..|actions| - 1], i);
    }
  }

  /** Two calls that overlap can both probe; the later store then loses. */
  lemma OverlappingCallsBothProbe(key: string, first: Found, second: Found)
    ensures exists actions ::
              var s := Run(INITIAL, actions);
              && |s.calls| == 2
              && s.calls[0] == Call(key, Returned(Entry(0, first)))
              && s.calls[1] == Call(key, Storing(Entry(1, second)))
              && Next(s, Step(1, second)).calls[1] == Call(key, Returned(Entry(0, first)))
  {
    var a1 := [Start(key)];
    var a2 := a1 + [Start(key)];
    var a3 := a2 + [Step(0, first)];
    var a4 := a3 + [Step(1, second)];
    var a5 := a4 + [Step(0, first)];
    var a6 := a5 + [Step(1, second)];
    var a7 := a6 + [Step(0, first)];
    var e0, e1 := Entry(0, first), Entry(1, second);
    OneMore([], Start(key));
    assert [] + [Start(key)] == a1;
    OneMore(a1, Start(key));
    OneMore(a2, Step(0, first));
    OneMore(a3, Step(1, second));
    OneMore(a4, Step(0, first));
    OneMore(a5, Step(1, second));
    OneMore(a6, Step(0, first));
    hide Run;
    assert Run(INITIAL, a2).calls == [Call(key, Loading), Call(key, Loading)];
    assert Run(INITIAL, a4).calls == [Call(key, Probing), Call(key, Probing)];
    assert Run(INITIAL, a6).calls == [Call(key, Storing(e0)), Call(key, Storing(e1))];
    assert Run(INITIAL, a7).calls == [Call(key, Returned(e0)), Call(key, Storing(e1))];
  }

  lemma OneMore(actions: seq<Action>, a: Action)
    ensures Run(INITIAL, []) == INITIAL
    ensures Run(INITIAL, actions + [a]) == Next(Run(INITIAL, actions), a)
  {
    assert (actions + [a])[..|actions|] == actions;
  }
}
