/** The lazy getters of the dependency container under its one mutex, called from
    any number of threads (internal/di/container.go:455-865). The mutex is not
    reentrant: a thread that asks for it while it is held waits. */
module Container {
  import opened Outcomes

  datatype Getter =
    | Provision | Run | Stop | Health | Reset | Destroy | Propose | Vote | SwitchBinary | ExecuteUpgrade
    | Monitor | StateManager | StateTransitioner | StateDetector | ResumableExecute | Resume | Build
    | CacheList | CacheClean | Passthrough | ImportCustomBinary | NodeLifecycle | Export

  /** The statements of a getter that matter here: calling another getter, taking
      the lock, building the object unless one is cached, and the release that was
      deferred. */
  datatype Statement = Fetch(getter: Getter) | Acquire | Construct | Release

  function Program(g: Getter): seq<Statement> {
    match g
    case Reset => [Fetch(Stop), Acquire, Construct, Release]
    case Destroy => [Fetch(Stop), Acquire, Construct, Release]
    case ExecuteUpgrade =>
      [Fetch(Propose), Fetch(Vote), Fetch(SwitchBinary), Fetch(Export), Acquire, Construct, Release]
    case ResumableExecute =>
      [Fetch(ExecuteUpgrade), Fetch(Propose), Fetch(Vote), Fetch(SwitchBinary), Fetch(StateManager),
       Fetch(StateTransitioner), Fetch(StateDetector), Fetch(Export), Acquire, Construct, Release]
    case Resume =>
      [Fetch(StateManager), Fetch(StateDetector), Fetch(StateTransitioner), Fetch(ResumableExecute),
       Acquire, Construct, Release]
    case NodeLifecycle => [Fetch(Stop), Fetch(Run), Construct]
    case Export => [Fetch(NodeLifecycle), Acquire, Construct, Release]
    case _ => [Acquire, Construct, Release]
  }

  /** Only the node lifecycle adapter is built anew on each call. */
  predicate Cached(g: Getter) {
    g != NodeLifecycle
  }

  /** Dependency depth. */
  function Depth(g: Getter): nat {
    match g
    case Reset => 1
    case Destroy => 1
    case NodeLifecycle => 1
    case Export => 2
    case ExecuteUpgrade => 3
    case ResumableExecute => 4
    case Resume => 5
    case _ => 0
  }

  // ----------------------------------------------------------- what a program keeps

  /** The program holds the lock before statement `pc`. */
  predicate Held(p: seq<Statement>, pc: nat)
    requires pc <= |p|
  {
    pc > 0 && (p[pc - 1].Acquire? || (!p[pc - 1].Release? && Held(p, pc - 1)))
  }

  /** The getters called before statement `pc`. */
  function Fetched(p: seq<Statement>, pc: nat): seq<Getter>
    requires pc <= |p|
  {
    if pc == 0 then []
    else Fetched(p, pc - 1) + (if p[pc - 1].Fetch? then [p[pc - 1].getter] else [])
  }

  /** The object was built before statement `pc`. */
  predicate Constructed(p: seq<Statement>, pc: nat)
    requires pc <= |p|
  {
    pc > 0 && (p[pc - 1].Construct? || Constructed(p, pc - 1))
  }

  /** The getters that a getter calls, in order. */
  function Deps(g: Getter): seq<Getter> {
    Fetched(Program(g), |Program(g)|)
  }

  /** Where the calls of a getter end. */
  function CallsEnd(g: Getter): nat {
    |Program(g)| - (if Cached(g) then 3 else 1)
  }

  lemma Shape(g: Getter)
    ensures 0 <= CallsEnd(g) < |Program(g)|
    ensures forall k :: 0 <= k < CallsEnd(g) ==> Program(g)[k].Fetch? && Depth(Program(g)[k].getter) < Depth(g)
    ensures var p, n := Program(g), CallsEnd(g);
            if Cached(g) then |p| == n + 3 && p[n] == Acquire && p[n + 1] == Construct && p[n + 2] == Release
            else |p| == n + 1 && p[n] == Construct
  {
  }

  lemma {:induction false} CallsHoldNothing(p: seq<Statement>, n: nat, pc: nat)
    requires pc <= n <= |p| && forall k :: 0 <= k < n ==> p[k].Fetch?
    ensures !Held(p, pc) && !Constructed(p, pc)
  {
    if pc > 0 {
      CallsHoldNothing(p, n, pc - 1);
    }
  }

  lemma {:induction false} AfterCalls(p: seq<Statement>, n: nat)
    requires n < |p| && forall k :: 0 <= k < n ==> p[k].Fetch?
    requires p[n].Acquire? || p[n].Construct?
    ensures Held(p, n + 1) <==> p[n].Acquire?
    ensures Constructed(p, n + 1) <==> p[n].Construct?
    ensures Fetched(p, n + 1) == Fetched(p, n)
  {
    CallsHoldNothing(p, n, n);
  }

  /** The three statements around a cached construction. */
  lemma LockedEnd(p: seq<Statement>, n: nat)
    requires |p| == n + 3 && forall k :: 0 <= k < n ==> p[k].Fetch?
    requires p[n] == Acquire && p[n + 1] == Construct && p[n + 2] == Release
    ensures !Held(p, n) && Held(p, n + 1) && Held(p, n + 2) && !Held(p, n + 3)
    ensures !Constructed(p, n + 1) && Constructed(p, n + 2) && Constructed(p, n + 3)
    ensures Fetched(p, n + 1) == Fetched(p, n + 3)
  {
    CallsHoldNothing(p, n, n);
    AfterCalls(p, n);
    assert Held(p, n + 2) <==> Held(p, n + 1);
    assert Fetched(p, n + 2) == Fetched(p, n + 1);
    assert Fetched(p, n + 3) == Fetched(p, n + 2);
  }

  /** What a getter may assume before statement `pc`. */
  ghost predicate DisciplinedAt(p: seq<Statement>, g: Getter, pc: nat)
    requires pc <= |p|
  {
    if pc == |p| then !Held(p, pc) && Constructed(p, pc)
    else match p[pc]
         case Fetch(d) => !Held(p, pc) && !Constructed(p, pc) && Depth(d) < Depth(g)
         case Acquire => !Held(p, pc) && !Constructed(p, pc)
         case Construct => (Held(p, pc) <==> Cached(g)) && !Constructed(p, pc) && Fetched(p, pc) == Fetched(p, |p|)
         case Release => Held(p, pc) && Constructed(p, pc)
  }

  /** Every getter calls others and takes the lock only while it does not hold it,
      builds a cached object only while it does, and ends without it. */
  lemma Disciplined(g: Getter, pc: nat)
    requires pc <= |Program(g)|
    ensures DisciplinedAt(Program(g), g, pc)
  {
    Shape(g);
    var p, n := Program(g), CallsEnd(g);
    hide Program, Depth, Held, Constructed, Fetched;
    if pc < n {
      CallsHoldNothing(p, n, pc);
    } else if Cached(g) {
      LockedEnd(p, n);
      CallsHoldNothing(p, n, n);
    } else {
      AfterCalls(p, n);
      CallsHoldNothing(p, n, n);
    }
  }

  lemma {:induction false} FetchedFrom(p: seq<Statement>, pc: nat, k: nat)
    requires pc <= |p| && k < |Fetched(p, pc)|
    ensures Fetch(Fetched(p, pc)[k]) in p
  {
    if k < |Fetched(p, pc - 1)| {
      FetchedFrom(p, pc - 1, k);
    }
  }

  lemma DepsAreShallower(g: Getter, k: nat)
    requires k < |Deps(g)|
    ensures Depth(Deps(g)[k]) < Depth(g)
  {
    hide Program, Depth, Held, Constructed;
    FetchedFrom(Program(g), |Program(g)|, k);
    var pc :| 0 <= pc < |Program(g)| && Program(g)[pc] == Fetch(Deps(g)[k]);
    Disciplined(g, pc);
  }

  lemma DepsAreFetched(g: Getter)
    ensures 0 <= CallsEnd(g) < |Program(g)|
    ensures |Deps(g)| == CallsEnd(g)
    ensures forall k :: 0 <= k < CallsEnd(g) ==> Program(g)[k] == Fetch(Deps(g)[k])
  {
    Shape(g);
    var p, n := Program(g), CallsEnd(g);
    hide Program, Held, Constructed;
    DepsAreCalls(p, n);
    AfterCalls(p, n);
    if Cached(g) {
      LockedEnd(p, n);
    }
  }

  /** Which getters are called by which; the others call none. */
  lemma DependencyLists(g: Getter)
    ensures Deps(g) == match g
                       case Reset => [Stop]
                       case Destroy => [Stop]
                       case NodeLifecycle => [Stop, Run]
                       case Export => [NodeLifecycle]
                       case ExecuteUpgrade => [Propose, Vote, SwitchBinary, Export]
                       case ResumableExecute => [ExecuteUpgrade, Propose, Vote, SwitchBinary, StateManager,
                                                 StateTransitioner, StateDetector, Export]
                       case Resume => [StateManager, StateDetector, StateTransitioner, ResumableExecute]
                       case _ => []
  {
    hide Deps;
    DepsAreFetched(g);
  }

  lemma {:induction false} DepsAreCalls(p: seq<Statement>, n: nat)
    requires n <= |p| && forall k :: 0 <= k < n ==> p[k].Fetch?
    ensures |Fetched(p, n)| == n && forall k :: 0 <= k < n ==> Fetched(p, n)[k] == p[k].getter
  {
    if n > 0 {
      DepsAreCalls(p, n - 1);
    }
  }

  // -------------------------------------------------------------- the interleaving

  /** An activation of a getter: its next statement, the objects its calls
      returned, and the object it will return. Objects are numbered in the order
      they are built. */
  datatype Frame = Frame(getter: Getter, pc: nat, got: seq<nat>, id: Option<nat>)

  /** A call of a getter by some thread: its stack of activations, outermost
      first, and its result once it has returned. */
  datatype Call = Call(getter: Getter, stack: seq<Frame>, result: Option<nat>)

  datatype Object = Object(getter: Getter, parts: seq<nat>)

  datatype State = State(calls: seq<Call>, holder: Option<nat>, objects: seq<Object>, cache: map<Getter, nat>)

  const INITIAL := State([], None, [], map[])

  datatype Action = Enter(getter: Getter) | Step(call: nat)

  function Started(g: Getter): Frame {
    Frame(g, 0, [], None)
  }

  function Top(c: Call): Frame
    requires c.stack != []
  {
    c.stack[|c.stack| - 1]
  }

  function Below(c: Call): seq<Frame>
    requires c.stack != []
  {
    c.stack[..|c.stack| - 1]
  }

  /** The next statement of an activation, unless it is about to return. */
  function Pending(f: Frame): Option<Statement> {
    if f.pc < |Program(f.getter)| then Some(Program(f.getter)[f.pc]) else None
  }

  /** The activation asks for the lock next. */
  predicate WantsLock(f: Frame) {
    Pending(f) == Some(Acquire)
  }

  predicate CanStep(s: State, i: nat) {
    && i < |s.calls|
    && s.calls[i].stack != []
    && (WantsLock(Top(s.calls[i])) ==> s.holder.None?)
  }

  /** The innermost activation returns its object to its caller. */
  function Returned(c: Call): Call
    requires c.stack != [] && Top(c).id.Some?
  {
    var rest, id := Below(c), Top(c).id.value;
    if rest == [] then c.(stack := [], result := Some(id))
    else
      var caller := rest[|rest| - 1];
      c.(stack := rest[|rest| - 1 := caller.(pc := caller.pc + 1, got := caller.got + [id])])
  }

  function WithTop(c: Call, f: Frame): Call
    requires c.stack != []
  {
    c.(stack := Below(c) + [f])
  }

  function Pushed(c: Call, g: Getter): Call {
    c.(stack := c.stack + [Started(g)])
  }

  /** The next statement builds an object. */
  predicate Builds(s: State, f: Frame) {
    Pending(f) == Some(Construct) && !(Cached(f.getter) && f.getter in s.cache)
  }

  function NewObjects(s: State, f: Frame): seq<Object> {
    if Builds(s, f) then [Object(f.getter, f.got)] else []
  }

  function MovedCall(s: State, c: Call): Call
    requires c.stack != []
  {
    var f := Top(c);
    match Pending(f)
    case None => if f.id.Some? then Returned(c) else c
    case Some(Fetch(g)) => Pushed(c, g)
    case Some(Construct) =>
      WithTop(c, f.(pc := f.pc + 1, id := Some(
        if Cached(f.getter) && f.getter in s.cache then s.cache[f.getter] else |s.objects|)))
    case Some(_) => WithTop(c, f.(pc := f.pc + 1))
  }

  /** One atomic step of call `i`. */
  function StepCall(s: State, i: nat): State
    requires CanStep(s, i)
  {
    var f := Top(s.calls[i]);
    State(
      s.calls[i := MovedCall(s, s.calls[i])],
      if WantsLock(f) then Some(i) else if Pending(f) == Some(Release) then None else s.holder,
      s.objects + NewObjects(s, f),
      if Builds(s, f) && Cached(f.getter) then s.cache[f.getter := |s.objects|] else s.cache)
  }

  function Next(s: State, a: Action): State {
    match a
    case Enter(g) => s.(calls := s.calls + [Call(g, [Started(g)], None)])
    case Step(i) => if CanStep(s, i) then StepCall(s, i) else s
  }

  /** The state after any sequence of calls and steps, in any interleaving. */
  function After(actions: seq<Action>): State
  {
    if actions == [] then INITIAL
    else Next(After(actions[..|actions| - 1]), actions[|actions| - 1])
  }

  // ------------------------------------------------------------------ invariant

  predicate InLock(f: Frame) {
    f.pc <= |Program(f.getter)| && Held(Program(f.getter), f.pc)
  }

  /** Object `id` was built for getter `g`. */
  predicate IsA(objects: seq<Object>, id: nat, g: Getter) {
    id < |objects| && objects[id].getter == g
  }

  /** The objects are one for each of the getters. */
  ghost predicate AreA(objects: seq<Object>, ids: seq<nat>, getters: seq<Getter>) {
    |ids| == |getters| && forall k :: 0 <= k < |ids| ==> IsA(objects, ids[k], getters[k])
  }

  ghost predicate FrameOk(objects: seq<Object>, f: Frame) {
    && f.pc <= |Program(f.getter)|
    && AreA(objects, f.got, Fetched(Program(f.getter), f.pc))
    && (Constructed(Program(f.getter), f.pc) <==> f.id.Some?)
    && (f.id.Some? ==> IsA(objects, f.id.value, f.getter))
  }

  /** `caller` is waiting for `callee`. */
  ghost predicate Calls(caller: Frame, callee: Frame) {
    Pending(caller) == Some(Fetch(callee.getter))
  }

  ghost predicate CallOk(objects: seq<Object>, c: Call) {
    && (forall k :: 0 <= k < |c.stack| ==> FrameOk(objects, c.stack[k]))
    && (forall k :: 0 <= k < |c.stack| - 1 ==> Calls(c.stack[k], c.stack[k + 1]))
    && (c.stack == [] <==> c.result.Some?)
    && (c.stack != [] ==> c.stack[0].getter == c.getter)
    && (c.result.Some? ==> IsA(objects, c.result.value, c.getter))
  }

  /** The lock is held by exactly the call whose innermost activation is inside
      it. */
  ghost predicate LockOk(s: State) {
    && (s.holder.Some? ==> s.holder.value < |s.calls|)
    && forall i :: 0 <= i < |s.calls| ==>
         (s.calls[i].stack != [] && InLock(Top(s.calls[i])) <==> s.holder == Some(i))
  }

  /** A cached object is the only one of its kind; parts are what was fetched. */
  ghost predicate ObjectsOk(s: State) {
    && (forall id :: 0 <= id < |s.objects| ==> AreA(s.objects, s.objects[id].parts, Deps(s.objects[id].getter)))
    && (forall id :: 0 <= id < |s.objects| && Cached(s.objects[id].getter) ==>
          s.objects[id].getter in s.cache && s.cache[s.objects[id].getter] == id)
    && (forall g :: g in s.cache ==> Cached(g) && IsA(s.objects, s.cache[g], g))
  }

  ghost predicate CallsOk(s: State) {
    forall i :: 0 <= i < |s.calls| ==> CallOk(s.objects, s.calls[i])
  }

  /** Calls that return an uncached object return different ones, and no other
      activation has them. */
  ghost predicate FreshOk(s: State) {
    forall i, j | 0 <= i < j < |s.calls| && !Cached(s.calls[i].getter) && s.calls[i].getter == s.calls[j].getter ::
      Owned(s.calls[i]).None? || Owned(s.calls[i]) != Owned(s.calls[j])
  }

  /** The object that the call's own getter has built, whether it has returned it
      or not. */
  function Owned(c: Call): Option<nat> {
    if c.stack == [] then c.result else c.stack[0].id
  }

  ghost predicate Ok(s: State) {
    CallsOk(s) && LockOk(s) && ObjectsOk(s) && FreshOk(s)
  }

  // ------------------------------------------------------ one step keeps a call

  lemma OkGrows(objects: seq<Object>, more: seq<Object>, c: Call)
    requires CallOk(objects, c)
    ensures CallOk(objects + more, c)
  {
    assert forall id, g :: IsA(objects, id, g) ==> IsA(objects + more, id, g);
    assert forall f :: FrameOk(objects, f) ==> FrameOk(objects + more, f);
  }

  lemma TopOk(objects: seq<Object>, c: Call)
    requires CallOk(objects, c) && c.stack != []
    ensures FrameOk(objects, Top(c))
  {
  }

  /** What the next statement adds to what was held, fetched and built. */
  lemma NextStatement(p: seq<Statement>, pc: nat)
    requires pc < |p|
    ensures Held(p, pc + 1) <==> p[pc].Acquire? || (!p[pc].Release? && Held(p, pc))
    ensures Fetched(p, pc + 1) == Fetched(p, pc) + (if p[pc].Fetch? then [p[pc].getter] else [])
    ensures Constructed(p, pc + 1) <==> p[pc].Construct? || Constructed(p, pc)
  {
  }

  /** The activation after its next statement, a call of which returned `ids`. */
  lemma AdvanceOk(objects: seq<Object>, f: Frame, ids: seq<nat>, id: Option<nat>)
    requires FrameOk(objects, f) && Pending(f).Some?
    requires match Pending(f).value
             case Fetch(g) => |ids| == 1 && IsA(objects, ids[0], g) && id == f.id
             case Construct => ids == [] && id.Some? && IsA(objects, id.value, f.getter)
             case _ => ids == [] && id == f.id
    ensures FrameOk(objects, f.(pc := f.pc + 1, got := f.got + ids, id := id))
  {
    hide Program, Held, Fetched, Constructed, IsA;
    NextStatement(Program(f.getter), f.pc);
    Disciplined(f.getter, f.pc);
  }

  /** The innermost activation goes on. */
  lemma WithTopOk(objects: seq<Object>, c: Call, f: Frame)
    requires CallOk(objects, c) && c.stack != [] && FrameOk(objects, f) && f.getter == Top(c).getter
    ensures CallOk(objects, WithTop(c, f)) && Top(WithTop(c, f)) == f
  {
    hide FrameOk, Program;
    var d := WithTop(c, f);
    assert forall k :: 0 <= k < |d.stack| - 1 ==> d.stack[k] == c.stack[k];
    assert forall k :: 0 <= k < |d.stack| - 1 ==> Calls(c.stack[k], c.stack[k + 1]);
  }

  /** Calling the next dependency. */
  lemma PushOk(objects: seq<Object>, c: Call, g: Getter)
    requires CallOk(objects, c) && c.stack != [] && Pending(Top(c)) == Some(Fetch(g))
    ensures CallOk(objects, Pushed(c, g))
  {
    StartedOk(objects, g);
    hide FrameOk, Program;
    var d := Pushed(c, g);
    assert forall k :: 0 <= k < |c.stack| ==> d.stack[k] == c.stack[k];
    assert forall k :: 0 <= k < |c.stack| - 1 ==> Calls(c.stack[k], c.stack[k + 1]);
  }

  lemma StartedOk(objects: seq<Object>, g: Getter)
    ensures FrameOk(objects, Started(g)) && !InLock(Started(g))
  {
    hide Program;
  }

  /** Returning to the caller keeps the stack in order; the caller is outside the
      lock. */
  lemma ReturnOk(objects: seq<Object>, c: Call)
    requires CallOk(objects, c) && c.stack != [] && Top(c).id.Some?
    ensures CallOk(objects, Returned(c))
    ensures Returned(c).stack != [] ==> !InLock(Top(Returned(c)))
    ensures Returned(c).getter == c.getter
  {
    hide FrameOk, Program, Held;
    TopOk(objects, c);
    assert IsA(objects, Top(c).id.value, Top(c).getter) by {
      ObjectIsOfGetter(objects, Top(c));
    }
    if |c.stack| > 1 {
      var d := Returned(c);
      var caller := c.stack[|c.stack| - 2];
      var id := Top(c).id.value;
      assert Calls(caller, Top(c));
      assert FrameOk(objects, caller);
      CallerOk(objects, caller, Top(c).getter, id);
      assert Top(d) == caller.(pc := caller.pc + 1, got := caller.got + [id]);
      assert forall k :: 0 <= k < |d.stack| - 1 ==> d.stack[k] == c.stack[k];
      assert forall k :: 0 <= k < |d.stack| - 1 ==> Calls(c.stack[k], c.stack[k + 1]);
    }
  }

  lemma ObjectIsOfGetter(objects: seq<Object>, f: Frame)
    requires FrameOk(objects, f) && f.id.Some?
    ensures IsA(objects, f.id.value, f.getter)
  {
  }

  lemma CallerOk(objects: seq<Object>, f: Frame, g: Getter, id: nat)
    requires FrameOk(objects, f) && Pending(f) == Some(Fetch(g)) && IsA(objects, id, g)
    ensures FrameOk(objects, f.(pc := f.pc + 1, got := f.got + [id]))
    ensures !InLock(f.(pc := f.pc + 1, got := f.got + [id]))
  {
    AdvanceOk(objects, f, [id], f.id);
    hide Program, Held, Fetched, Constructed;
    NextStatement(Program(f.getter), f.pc);
    Disciplined(f.getter, f.pc);
  }

  /** The innermost activation after a statement that is not a call. */
  lemma StatementOk(objects: seq<Object>, c: Call, id: Option<nat>)
    requires CallOk(objects, c) && c.stack != [] && Pending(Top(c)).Some? && !Pending(Top(c)).value.Fetch?
    requires if Pending(Top(c)).value.Construct? then id.Some? && IsA(objects, id.value, Top(c).getter)
             else id == Top(c).id
    ensures var f := Top(c).(pc := Top(c).pc + 1, id := id);
            && CallOk(objects, WithTop(c, f)) && Top(WithTop(c, f)) == f
            && (InLock(f) <==> WantsLock(Top(c)) || (Pending(Top(c)) == Some(Construct) && InLock(Top(c))))
  {
    hide Program, Held, Fetched, Constructed, CallOk;
    TopOk(objects, c);
    var f := Top(c);
    AdvanceOk(objects, f, [], id);
    assert f.got + [] == f.got;
    WithTopOk(objects, c, f.(pc := f.pc + 1, id := id));
    NextStatement(Program(f.getter), f.pc);
  }

  /** The call that steps stays in order, and is inside the lock afterwards exactly
      if it just took it, or was and is building. */
  lemma MovedOk(s: State, c: Call)
    requires CallOk(s.objects, c) && c.stack != [] && ObjectsOk(s)
    ensures CallOk(s.objects + NewObjects(s, Top(c)), MovedCall(s, c))
    ensures MovedCall(s, c).getter == c.getter
    ensures MovedCall(s, c).stack != [] && InLock(Top(MovedCall(s, c)))
            <==> WantsLock(Top(c)) || (Pending(Top(c)) == Some(Construct) && InLock(Top(c)))
  {
    TopOk(s.objects, c);
    EndOk(s.objects, Top(c));
    hide CallOk, Returned, Program, FrameOk, InLock;
    var f := Top(c);
    var objects := s.objects + NewObjects(s, f);
    OkGrows(s.objects, NewObjects(s, f), c);
    match Pending(f)
    case None => ReturnOk(objects, c);
    case Some(Fetch(g)) =>
      PushOk(objects, c, g);
      StartedOk(objects, g);
    case Some(Construct) =>
      StatementOk(objects, c, Some(if Cached(f.getter) && f.getter in s.cache then s.cache[f.getter] else |s.objects|));
    case Some(_) => StatementOk(objects, c, f.id);
  }

  /** At its end an activation has its object and is outside the lock. */
  lemma EndOk(objects: seq<Object>, f: Frame)
    requires FrameOk(objects, f)
    ensures Pending(f).None? ==> f.id.Some? && !InLock(f)
    ensures Pending(f).Some? && (Pending(f).value.Fetch? || Pending(f).value.Acquire?) ==> !InLock(f) && f.id.None?
    ensures Pending(f) == Some(Construct) ==> (InLock(f) <==> Cached(f.getter)) && f.id.None?
                                              && AreA(objects, f.got, Deps(f.getter))
    ensures Pending(f) == Some(Release) ==> InLock(f)
  {
    hide Program, Held, Fetched, Constructed;
    Disciplined(f.getter, f.pc);
  }

  // ----------------------------------------------------------- one step keeps all

  lemma StepCallsOk(s: State, i: nat)
    requires Ok(s) && CanStep(s, i)
    ensures CallsOk(StepCall(s, i))
  {
    hide CallOk, ObjectsOk, FreshOk, LockOk, MovedCall, NewObjects;
    MovedOk(s, s.calls[i]);
    forall j | 0 <= j < |s.calls|
      ensures CallOk(StepCall(s, i).objects, StepCall(s, i).calls[j])
    {
      OkGrows(s.objects, NewObjects(s, Top(s.calls[i])), s.calls[j]);
    }
  }

  lemma StepLockOk(s: State, i: nat)
    requires Ok(s) && CanStep(s, i)
    ensures LockOk(StepCall(s, i))
  {
    hide CallOk, ObjectsOk, FreshOk, MovedCall, NewObjects, InLock, Pending, FrameOk;
    MovedOk(s, s.calls[i]);
    TopOk(s.objects, s.calls[i]);
    EndOk(s.objects, Top(s.calls[i]));
  }

  lemma StepObjectsOk(s: State, i: nat)
    requires Ok(s) && CanStep(s, i)
    ensures ObjectsOk(StepCall(s, i))
  {
    hide CallOk, FreshOk, LockOk, MovedCall, Deps, FrameOk, Pending, InLock;
    var f := Top(s.calls[i]);
    TopOk(s.objects, s.calls[i]);
    EndOk(s.objects, f);
    var built := NewObjects(s, f);
    assert forall id, g :: IsA(s.objects, id, g) ==> IsA(s.objects + built, id, g);
  }

  /** What a call owns: an object of its getter, which a step can only add. */
  lemma OwnedOk(s: State, c: Call)
    requires CallOk(s.objects, c)
    ensures Owned(c).Some? ==> IsA(s.objects, Owned(c).value, c.getter)
  {
    hide Program, Fetched, Constructed;
    if c.stack != [] {
      assert FrameOk(s.objects, c.stack[0]);
    }
  }

  lemma MovedOwns(s: State, c: Call)
    requires CallOk(s.objects, c) && c.stack != []
    ensures Owned(MovedCall(s, c)) == Owned(c)
            || (Owned(c).None? && (!Cached(c.getter) ==> Owned(MovedCall(s, c)) == Some(|s.objects|)))
  {
    TopOk(s.objects, c);
    EndOk(s.objects, Top(c));
    hide FrameOk, InLock, AreA, Program;
  }

  lemma StepFreshOk(s: State, i: nat)
    requires Ok(s) && CanStep(s, i)
    ensures FreshOk(StepCall(s, i))
  {
    hide CallOk, LockOk, ObjectsOk, MovedCall, Owned, NewObjects;
    MovedOwns(s, s.calls[i]);
    forall j | 0 <= j < |s.calls|
      ensures Owned(s.calls[j]).Some? ==> Owned(s.calls[j]).value < |s.objects|
    {
      OwnedOk(s, s.calls[j]);
    }
    MovedOk(s, s.calls[i]);
  }

  lemma EnterOk(s: State, g: Getter)
    requires Ok(s)
    ensures Ok(Next(s, Enter(g)))
  {
    hide Deps, AreA, Program;
    StartedOk(s.objects, g);
    var c := Call(g, [Started(g)], None);
    assert CallOk(s.objects, c);
    hide CallOk;
  }

  lemma StepOk(s: State, a: Action)
    requires Ok(s)
    ensures Ok(Next(s, a))
  {
    hide CallsOk, LockOk, ObjectsOk, FreshOk, StepCall;
    match a
    case Enter(g) => EnterOk(s, g);
    case Step(i) =>
      if CanStep(s, i) {
        StepCallsOk(s, i);
        StepLockOk(s, i);
        StepObjectsOk(s, i);
        StepFreshOk(s, i);
      }
  }

  lemma {:induction false} AfterOk(actions: seq<Action>)
    ensures Ok(After(actions))
  {
    hide Ok, Next;
    if actions != [] {
      AfterOk(actions[..|actions| - 1]);
      StepOk(After(actions[..|actions| - 1]), actions[|actions| - 1]);
    } else {
      InitialOk();
    }
  }

  lemma InitialOk()
    ensures Ok(INITIAL)
  {
  }

  // -------------------------------------------------------------- lock and results

  /** In every interleaving a call that asks for the lock does not hold it, and a
      call is inside the lock only at its innermost activation. */
  lemma NeverAsksWhileHolding(actions: seq<Action>, i: nat, k: nat)
    requires i < |After(actions).calls| && k < |After(actions).calls[i].stack|
    ensures var s := After(actions);
            && (InLock(s.calls[i].stack[k]) <==> s.holder == Some(i) && k == |s.calls[i].stack| - 1)
            && (WantsLock(Top(s.calls[i])) ==> s.holder != Some(i))
  {
    hide InLock, FrameOk, Pending, After;
    AfterOk(actions);
    var c := After(actions).calls[i];
    assert CallOk(After(actions).objects, c);
    assert FrameOk(After(actions).objects, c.stack[k]);
    EndOk(After(actions).objects, c.stack[k]);
    EndOk(After(actions).objects, Top(c));
    if k < |c.stack| - 1 {
      assert Calls(c.stack[k], c.stack[k + 1]);
    }
  }

  /** Two calls of one getter return the same object if and only if the getter
      caches what it builds. */
  lemma SameObjectIff(actions: seq<Action>, i: nat, j: nat)
    requires i < j < |After(actions).calls|
    requires var calls := After(actions).calls;
             calls[i].result.Some? && calls[j].result.Some? && calls[i].getter == calls[j].getter
    ensures After(actions).calls[i].result == After(actions).calls[j].result
            <==> After(actions).calls[i].getter != NodeLifecycle
  {
    hide FrameOk, After, Calls;
    AfterOk(actions);
    var s := After(actions);
    assert CallOk(s.objects, s.calls[i]) && CallOk(s.objects, s.calls[j]);
  }

  /** A returned object is of the getter's kind and built from one object per
      dependency, in order; a cached dependency is the one object of its kind. */
  lemma BuiltFromDependencies(actions: seq<Action>, i: nat, k: nat)
    requires i < |After(actions).calls| && After(actions).calls[i].result.Some?
    requires k < |Deps(After(actions).calls[i].getter)|
    ensures var s := After(actions);
            var id, dep := s.calls[i].result.value, Deps(s.calls[i].getter)[k];
            && IsA(s.objects, id, s.calls[i].getter)
            && |s.objects[id].parts| == |Deps(s.calls[i].getter)|
            && IsA(s.objects, s.objects[id].parts[k], dep)
            && (Cached(dep) ==> dep in s.cache && s.objects[id].parts[k] == s.cache[dep])
  {
    hide FrameOk, After, Calls, Deps, FreshOk, LockOk;
    AfterOk(actions);
    var s := After(actions);
    assert CallOk(s.objects, s.calls[i]);
  }

  // ------------------------------------------------------------------- progress

  /** While some call has not returned, some call can step: there is no
      deadlock. */
  lemma SomeCallCanStep(actions: seq<Action>, i: nat)
    requires i < |After(actions).calls| && After(actions).calls[i].result.None?
    ensures exists j :: CanStep(After(actions), j)
  {
    hide After, FrameOk, Pending, InLock;
    AfterOk(actions);
    var s := After(actions);
    assert CallOk(s.objects, s.calls[i]);
    if s.holder.Some? {
      var j := s.holder.value;
      assert CallOk(s.objects, s.calls[j]);
      TopOk(s.objects, s.calls[j]);
      EndOk(s.objects, Top(s.calls[j]));
      assert CanStep(s, j);
    } else {
      assert CanStep(s, i);
    }
  }

  /** The steps an activation still takes from statement `pc` on: one for each
      statement and those of the getters it calls, and one to return. */
  function WorkAfter(g: Getter, pc: nat): nat
    decreases Depth(g), |Program(g)| - pc
  {
    if pc < |Program(g)| then
      Disciplined(g, pc);
      1 + (if Program(g)[pc].Fetch? then WorkAfter(Program(g)[pc].getter, 0) else 0) + WorkAfter(g, pc + 1)
    else 1
  }

  function Work(g: Getter): nat {
    WorkAfter(g, 0)
  }

  lemma WorkUnfolds(f: Frame)
    ensures WorkAfter(f.getter, f.pc) ==
            match Pending(f)
            case None => 1
            case Some(Fetch(g)) => 1 + Work(g) + WorkAfter(f.getter, f.pc + 1)
            case Some(_) => 1 + WorkAfter(f.getter, f.pc + 1)
  {
    hide Program;
  }

  /** The steps left in activations that wait for a dependency. */
  function WorkWaiting(stack: seq<Frame>): nat
  {
    if stack == [] then 0
    else WorkWaiting(stack[..|stack| - 1]) + WorkAfter(stack[|stack| - 1].getter, stack[|stack| - 1].pc + 1)
  }

  function CallWork(c: Call): nat {
    if c.stack == [] then 0 else WorkAfter(Top(c).getter, Top(c).pc) + WorkWaiting(Below(c))
  }

  function TotalWork(calls: seq<Call>): nat
  {
    if calls == [] then 0 else TotalWork(calls[..|calls| - 1]) + CallWork(calls[|calls| - 1])
  }

  /** Every step does exactly one unit of the work left. */
  lemma MovedWork(s: State, c: Call)
    requires CallOk(s.objects, c) && c.stack != []
    ensures CallWork(MovedCall(s, c)) == CallWork(c) - 1
  {
    hide WorkAfter, WorkWaiting, Program, CallOk, FrameOk, InLock, AreA, Returned, Pushed, WithTop, Pending, Deps;
    var f := Top(c);
    TopOk(s.objects, c);
    EndOk(s.objects, f);
    WorkUnfolds(f);
    match Pending(f)
    case None => ReturnWork(c);
    case Some(Fetch(g)) => PushWork(c, g);
    case Some(Construct) =>
      WithTopWork(c, f.(pc := f.pc + 1, id := Some(
        if Cached(f.getter) && f.getter in s.cache then s.cache[f.getter] else |s.objects|)));
    case Some(_) => WithTopWork(c, f.(pc := f.pc + 1));
  }

  lemma PushWork(c: Call, g: Getter)
    requires c.stack != []
    ensures CallWork(Pushed(c, g)) == Work(g) + WorkAfter(Top(c).getter, Top(c).pc + 1) + WorkWaiting(Below(c))
  {
    hide WorkAfter;
    assert Below(Pushed(c, g)) == c.stack;
  }

  lemma WithTopWork(c: Call, f: Frame)
    requires c.stack != []
    ensures CallWork(WithTop(c, f)) == WorkAfter(f.getter, f.pc) + WorkWaiting(Below(c))
  {
    hide WorkAfter;
    assert Below(WithTop(c, f)) == Below(c);
  }

  lemma ReturnWork(c: Call)
    requires c.stack != [] && Top(c).id.Some?
    ensures CallWork(Returned(c)) == WorkWaiting(Below(c))
  {
    hide WorkAfter;
    var rest := Below(c);
    if rest != [] {
      assert Below(Returned(c)) == rest[..|rest| - 1];
    }
  }

  lemma {:induction false} TotalWorkUpdate(calls: seq<Call>, i: nat, c: Call)
    requires i < |calls|
    ensures TotalWork(calls[i := c]) == TotalWork(calls) - CallWork(calls[i]) + CallWork(c)
  {
    hide CallWork;
    var front := calls[..|calls| - 1];
    if i == |calls| - 1 {
      assert calls[i := c][..|calls| - 1] == front;
    } else {
      TotalWorkUpdate(front, i, c);
      assert calls[i := c][..|calls| - 1] == front[i := c];
    }
  }

  /** The work of the calls that were entered. */
  function WorkEntered(actions: seq<Action>): nat
  {
    if actions == [] then 0
    else
      var a := actions[|actions| - 1];
      WorkEntered(actions[..|actions| - 1]) + (if a.Enter? then Work(a.getter) else 0)
  }

  /** The steps that were taken by calls that could step. */
  function StepsTaken(actions: seq<Action>): nat
  {
    if actions == [] then 0
    else
      var before, a := actions[..|actions| - 1], actions[|actions| - 1];
      StepsTaken(before) + (if a.Step? && CanStep(After(before), a.call) then 1 else 0)
  }

  lemma WorkOfNext(s: State, a: Action)
    requires Ok(s)
    ensures TotalWork(Next(s, a).calls) ==
            TotalWork(s.calls) + (match a
                                  case Enter(g) => Work(g)
                                  case Step(i) => if CanStep(s, i) then -1 else 0)
  {
    hide CallOk, LockOk, ObjectsOk, FreshOk, WorkAfter, MovedCall;
    match a
    case Enter(g) =>
      var calls := Next(s, a).calls;
      assert calls[..|calls| - 1] == s.calls;
      assert CallWork(calls[|calls| - 1]) == Work(g);
    case Step(i) =>
      if CanStep(s, i) {
        MovedWork(s, s.calls[i]);
        TotalWorkUpdate(s.calls, i, MovedCall(s, s.calls[i]));
      }
  }

  /** However the calls are interleaved, the steps taken and the work left add up
      to the work of the calls entered: no schedule goes on for ever. */
  lemma {:induction false} WorkIsConserved(actions: seq<Action>)
    ensures StepsTaken(actions) + TotalWork(After(actions).calls) == WorkEntered(actions)
  {
    hide Next, CanStep, TotalWork, WorkAfter;
    if actions != [] {
      var before := actions[..|actions| - 1];
      WorkIsConserved(before);
      AfterOk(before);
      WorkOfNext(After(before), actions[|actions| - 1]);
    } else {
      assert TotalWork(INITIAL.calls) == 0 by {
        NoCallsNoWork();
      }
    }
  }

  lemma NoCallsNoWork()
    ensures TotalWork([]) == 0
  {
  }

  lemma {:induction false} NoWorkLeftIff(objects: seq<Object>, calls: seq<Call>)
    requires forall i :: 0 <= i < |calls| ==> CallOk(objects, calls[i])
    ensures TotalWork(calls) == 0 <==> forall i :: 0 <= i < |calls| ==> calls[i].result.Some?
  {
    hide CallOk, CallWork;
    if calls != [] {
      var last := calls[|calls| - 1];
      NoWorkLeftIff(objects, calls[..|calls| - 1]);
      WorkUntilReturned(objects, last);
      assert forall i :: 0 <= i < |calls| - 1 ==> calls[..|calls| - 1][i] == calls[i];
    }
  }

  lemma WorkUntilReturned(objects: seq<Object>, c: Call)
    requires CallOk(objects, c)
    ensures CallWork(c) == 0 <==> c.result.Some?
  {
  }

  /** All calls have returned exactly when the steps taken amount to the work of
      the calls entered. */
  lemma AllReturnedIff(actions: seq<Action>)
    ensures (forall i :: 0 <= i < |After(actions).calls| ==> After(actions).calls[i].result.Some?)
            <==> StepsTaken(actions) == WorkEntered(actions)
  {
    hide CallOk, LockOk, ObjectsOk, FreshOk, TotalWork;
    AfterOk(actions);
    WorkIsConserved(actions);
    NoWorkLeftIff(After(actions).objects, After(actions).calls);
  }

  // ----------------------------------------------------- the getters on one thread

  class Instance {
    const getter: Getter
    const parts: seq<Instance>

    constructor (getter: Getter, parts: seq<Instance>)
      ensures this.getter == getter && this.parts == parts
    {
      this.getter := getter;
      this.parts := parts;
    }
  }

  /** The instance is of the getter's kind, and the cached one if there is one. */
  ghost predicate Provides(cache: map<Getter, Instance>, r: Instance, g: Getter) {
    r.getter == g && (Cached(g) ==> g in cache && cache[g] == r)
  }

  /** The first dependencies of a getter, as the cache provides them. */
  ghost predicate ProvidesFirst(cache: map<Getter, Instance>, parts: seq<Instance>, g: Getter) {
    && |parts| <= |Deps(g)|
    && forall k :: 0 <= k < |parts| ==> Provides(cache, parts[k], Deps(g)[k])
  }

  ghost predicate BuiltFor(cache: map<Getter, Instance>, r: Instance, g: Getter) {
    r.getter == g && |r.parts| == |Deps(g)| && ProvidesFirst(cache, r.parts, g)
  }

  lemma PartsOf(cache: map<Getter, Instance>, r: Instance, g: Getter)
    requires BuiltFor(cache, r, g)
    ensures |r.parts| == |Deps(g)| && forall k :: 0 <= k < |r.parts| ==> r.parts[k].getter == Deps(g)[k]
  {
    hide Deps;
  }

  ghost predicate CacheOk(cache: map<Getter, Instance>) {
    forall g :: g in cache ==> Cached(g) && BuiltFor(cache, cache[g], g)
  }

  /** Nothing cached is replaced. */
  ghost predicate CacheGrows(cache: map<Getter, Instance>, later: map<Getter, Instance>) {
    forall g :: g in cache ==> g in later && later[g] == cache[g]
  }

  lemma StillProvides(cache: map<Getter, Instance>, later: map<Getter, Instance>, parts: seq<Instance>, g: Getter)
    requires CacheGrows(cache, later) && ProvidesFirst(cache, parts, g)
    ensures ProvidesFirst(later, parts, g)
  {
    hide Deps;
  }

  lemma NoneYet(cache: map<Getter, Instance>, g: Getter)
    ensures ProvidesFirst(cache, [], g)
  {
  }

  lemma ProvidesNext(cache: map<Getter, Instance>, parts: seq<Instance>, g: Getter, part: Instance)
    requires ProvidesFirst(cache, parts, g) && |parts| < |Deps(g)| && Provides(cache, part, Deps(g)[|parts|])
    ensures ProvidesFirst(cache, parts + [part], g)
  {
    hide Deps;
  }

  lemma CacheInstalls(cache: map<Getter, Instance>, g: Getter, r: Instance)
    requires CacheOk(cache) && g !in cache && Cached(g) && BuiltFor(cache, r, g)
    ensures CacheOk(cache[g := r]) && CacheGrows(cache, cache[g := r])
  {
    hide ProvidesFirst;
    var later := cache[g := r];
    forall h | h in later
      ensures BuiltFor(later, later[h], h)
    {
      StillProvides(cache, later, later[h].parts, h);
    }
  }

  class LazyContainer {
    var locked: bool
    var cache: map<Getter, Instance>

    constructor ()
      ensures CacheOk(cache) && !locked && cache == map[]
    {
      locked := false;
      cache := map[];
    }

    /** The lock is not reentrant: taking it twice would never return. */
    method Lock()
      requires !locked
      modifies this`locked
      ensures locked
    {
      locked := true;
    }

    method Unlock()
      requires locked
      modifies this`locked
      ensures !locked
    {
      locked := false;
    }

    /** The calls a getter makes before it takes the lock. */
    method GetDependencies(g: Getter) returns (parts: seq<Instance>)
      requires CacheOk(cache) && !locked
      modifies this
      ensures CacheOk(cache) && !locked && CacheGrows(old(cache), cache)
      ensures |parts| == |Deps(g)| && ProvidesFirst(cache, parts, g)
      decreases Depth(g), 0
    {
      NoneYet(cache, g);
      hide Deps, Depth, CacheOk, BuiltFor, Provides, ProvidesFirst;
      parts := [];
      for k := 0 to |Deps(g)|
        invariant CacheOk(cache) && !locked && CacheGrows(old(cache), cache)
        invariant |parts| == k && ProvidesFirst(cache, parts, g)
      {
        DepsAreShallower(g, k);
        ghost var before := cache;
        var part := Get(Deps(g)[k]);
        StillProvides(before, cache, parts, g);
        ProvidesNext(cache, parts, g, part);
        parts := parts + [part];
      }
    }

    /** What happens under the lock: construction only if nothing is cached yet. */
    method GetCached(g: Getter, parts: seq<Instance>) returns (r: Instance)
      requires CacheOk(cache) && Cached(g) && locked
      requires |parts| == |Deps(g)| && ProvidesFirst(cache, parts, g)
      modifies this`cache
      ensures CacheOk(cache) && CacheGrows(old(cache), cache)
      ensures BuiltFor(cache, r, g) && Provides(cache, r, g)
      ensures g in old(cache) ==> r == old(cache[g])
    {
      hide Deps, ProvidesFirst;
      if g !in cache {
        var built := new Instance(g, parts);
        CacheInstalls(cache, g, built);
        cache := cache[g := built];
      }
      r := cache[g];
    }

    /** Any getter: first its dependencies, then the lock. */
    method Get(g: Getter) returns (r: Instance)
      requires CacheOk(cache) && !locked
      modifies this
      ensures CacheOk(cache) && !locked && CacheGrows(old(cache), cache)
      ensures BuiltFor(cache, r, g) && Provides(cache, r, g)
      ensures r.getter == g && (g != NodeLifecycle ==> g in cache && cache[g] == r)
      ensures |r.parts| == |Deps(g)|
      ensures forall k :: 0 <= k < |r.parts| ==> r.parts[k].getter == Deps(g)[k]
      ensures Cached(g) && g in old(cache) ==> r == old(cache[g])
      ensures !Cached(g) ==> fresh(r)
      decreases Depth(g), 1
    {
      hide Deps, Depth, ProvidesFirst, CacheOk;
      var parts := GetDependencies(g);
      if !Cached(g) {
        r := new Instance(g, parts);
        PartsOf(cache, r, g);
        return;
      }
      Lock();
      r := GetCached(g, parts);
      Unlock();
      PartsOf(cache, r, g);
    }
  }
}
