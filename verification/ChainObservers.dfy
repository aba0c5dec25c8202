/** The three polling loops of internal/application/upgrade/execute.go.

    A loop watches the chain through a finite sequence of polls. Each poll
    records what one iteration meets: whether the deadline had passed at the
    loop head, whether the context was done before the RPC call, the RPC
    answer, and whether the context was done by the end of the iteration. A
    sequence that runs out stands for a deadline (or, where the loop has none,
    a cancellation) that arrives at that point. */
module ChainObservers {
  datatype Rpc = RpcError | Height(h: int)

  datatype Poll = Poll(late: bool, cancelled: bool, rpc: Rpc, cancelledAfter: bool)

  datatype HeightVerdict = Reached | HeightCancelled | HeightRpcFailed

  datatype HaltVerdict = Halted(at: nat) | HaltCancelled | Overshot(h: int) | HaltTimedOut

  datatype ResumeVerdict = Resumed(h: int, at: nat) | ResumeCancelled | ResumeTimedOut

  /** Blocks past the upgrade height at which the upgrade counts as missed. */
  const OVERSHOOT: int := 10

  const STABLE_POLLS: nat := 3

  // ---------------------------------------------------------------- the loops

  /** `waitForUpgradeHeight` from poll `i` on. */
  function HeightLoop(polls: seq<Poll>, target: int, i: nat): HeightVerdict
    requires i <= |polls|
    decreases |polls| - i
  {
    if i == |polls| || polls[i].cancelled then HeightCancelled
    else match polls[i].rpc
      case RpcError => if polls[i].cancelledAfter then HeightCancelled else HeightRpcFailed
      case Height(h) =>
        if h >= target then Reached
        else if polls[i].cancelledAfter then HeightCancelled
        else HeightLoop(polls, target, i + 1)
  }

  /** `waitForChainHalt` from poll `i` on, with its two loop variables. */
  function HaltLoop(polls: seq<Poll>, target: int, i: nat, stable: nat, last: int): HaltVerdict
    requires i <= |polls| && (stable >= STABLE_POLLS ==> i > 0)
    decreases |polls| - i
  {
    if stable >= STABLE_POLLS then Halted(i - 1)
    else if i == |polls| || polls[i].late then HaltTimedOut
    else if polls[i].cancelled then HaltCancelled
    else match polls[i].rpc
      case RpcError =>
        if polls[i].cancelledAfter then HaltCancelled
        else HaltLoop(polls, target, i + 1, stable + 1, last)
      case Height(h) =>
        if h > target + OVERSHOOT then Overshot(h)
        else if polls[i].cancelledAfter then HaltCancelled
        else HaltLoop(polls, target, i + 1, if h == last && h >= target then stable + 1 else 0, h)
  }

  /** `verifyChainResumed` from poll `i` on. */
  function ResumeLoop(polls: seq<Poll>, i: nat, last: int): ResumeVerdict
    requires i <= |polls|
    decreases |polls| - i
  {
    if i == |polls| || polls[i].late then ResumeTimedOut
    else if polls[i].cancelled then ResumeCancelled
    else match polls[i].rpc
      case RpcError => if polls[i].cancelledAfter then ResumeCancelled else ResumeLoop(polls, i + 1, last)
      case Height(h) =>
        if last > 0 && h > last then Resumed(h, i)
        else if polls[i].cancelledAfter then ResumeCancelled
        else ResumeLoop(polls, i + 1, h)
  }

  function WaitForUpgradeHeight(polls: seq<Poll>, target: int): HeightVerdict {
    HeightLoop(polls, target, 0)
  }

  function WaitForChainHalt(polls: seq<Poll>, target: int): HaltVerdict {
    HaltLoop(polls, target, 0, 0, 0)
  }

  function VerifyChainResumed(polls: seq<Poll>): ResumeVerdict {
    ResumeLoop(polls, 0, 0)
  }

  method RunWaitForUpgradeHeight(polls: seq<Poll>, target: int) returns (v: HeightVerdict)
    ensures v == WaitForUpgradeHeight(polls, target)
  {
    var i := 0;
    while i < |polls|
      invariant 0 <= i <= |polls|
      invariant HeightLoop(polls, target, 0) == HeightLoop(polls, target, i)
    {
      var poll := polls[i];
      if poll.cancelled {
        return HeightCancelled;
      }
      if poll.rpc.RpcError? {
        return if poll.cancelledAfter then HeightCancelled else HeightRpcFailed;
      }
      if poll.rpc.h >= target {
        return Reached;
      }
      if poll.cancelledAfter {
        return HeightCancelled;
      }
      i := i + 1;
    }
    return HeightCancelled;
  }

  method RunWaitForChainHalt(polls: seq<Poll>, target: int) returns (v: HaltVerdict)
    ensures v == WaitForChainHalt(polls, target)
  {
    var stableCount := 0;
    var lastHeight := 0;
    var i := 0;
    while stableCount < STABLE_POLLS && i < |polls| && !polls[i].late
      invariant 0 <= i <= |polls| && 0 <= stableCount <= STABLE_POLLS && (stableCount > 0 ==> i > 0)
      invariant HaltLoop(polls, target, 0, 0, 0) == HaltLoop(polls, target, i, stableCount, lastHeight)
      decreases |polls| - i
    {
      var poll := polls[i];
      if poll.cancelled {
        return HaltCancelled;
      }
      if poll.rpc.RpcError? {
        if poll.cancelledAfter {
          return HaltCancelled;
        }
        stableCount := stableCount + 1;
        i := i + 1;
        continue;
      }
      var currentHeight := poll.rpc.h;
      if currentHeight > target + OVERSHOOT {
        return Overshot(currentHeight);
      }
      if currentHeight == lastHeight && currentHeight >= target {
        stableCount := stableCount + 1;
      } else {
        stableCount := 0;
      }
      lastHeight := currentHeight;
      if poll.cancelledAfter {
        return HaltCancelled;
      }
      i := i + 1;
    }
    if stableCount < STABLE_POLLS {
      return HaltTimedOut;
    }
    return Halted(i - 1);
  }

  method RunVerifyChainResumed(polls: seq<Poll>) returns (v: ResumeVerdict)
    ensures v == VerifyChainResumed(polls)
  {
    var lastHeight := 0;
    var i := 0;
    while i < |polls| && !polls[i].late
      invariant 0 <= i <= |polls|
      invariant ResumeLoop(polls, 0, 0) == ResumeLoop(polls, i, lastHeight)
    {
      var poll := polls[i];
      if poll.cancelled {
        return ResumeCancelled;
      }
      if poll.rpc.RpcError? {
        if poll.cancelledAfter {
          return ResumeCancelled;
        }
        i := i + 1;
        continue;
      }
      var currentHeight := poll.rpc.h;
      if lastHeight > 0 && currentHeight > lastHeight {
        return Resumed(currentHeight, i);
      }
      lastHeight := currentHeight;
      if poll.cancelledAfter {
        return ResumeCancelled;
      }
      i := i + 1;
    }
    return ResumeTimedOut;
  }

  // ------------------------------------------------- what the verdicts observe

  /** The height of the last successful read among the first `i` polls, or 0. */
  function LastRead(polls: seq<Poll>, i: nat): int
    requires i <= |polls|
  {
    if i == 0 then 0
    else if polls[i - 1].rpc.Height? then polls[i - 1].rpc.h
    else LastRead(polls, i - 1)
  }

  predicate OnTime(poll: Poll) {
    !poll.late && !poll.cancelled && !poll.cancelledAfter
  }

  /** An observation that counts towards a halt: an RPC error, or a height equal
      to the previously read one and not below the upgrade height. */
  predicate Stable(polls: seq<Poll>, target: int, i: nat)
    requires i < |polls|
  {
    polls[i].rpc.RpcError? || (polls[i].rpc.h == LastRead(polls, i) && polls[i].rpc.h >= target)
  }

  predicate Overshoots(poll: Poll, target: int) {
    poll.rpc.Height? && poll.rpc.h > target + 10
  }

  /** The three latest observations up to poll `k` are stable, and nothing up to
      `k` made the loop give up. */
  predicate HaltObservedAt(polls: seq<Poll>, target: int, k: nat)
  {
    && 2 <= k < |polls|
    && (forall i :: 0 <= i <= k ==> OnTime(polls[i]) && !Overshoots(polls[i], target))
    && Stable(polls, target, k - 2) && Stable(polls, target, k - 1) && Stable(polls, target, k)
  }

  /** Poll `k` reads a height above the positive height read just before it,
      and nothing earlier made the loop give up. */
  predicate ResumeObservedAt(polls: seq<Poll>, k: nat)
  {
    && k < |polls| && !polls[k].late && !polls[k].cancelled
    && (forall i :: 0 <= i < k ==> OnTime(polls[i]))
    && polls[k].rpc.Height? && 0 < LastRead(polls, k) < polls[k].rpc.h
  }

  /** Poll `k` reads a height at or above the target, and nothing earlier made
      the loop give up. */
  predicate HeightObservedAt(polls: seq<Poll>, target: int, k: nat)
  {
    && k < |polls| && !polls[k].cancelled
    && polls[k].rpc.Height? && polls[k].rpc.h >= target
    && (forall i :: 0 <= i < k ==>
          polls[i].rpc.Height? && !polls[i].cancelled && !polls[i].cancelledAfter)
  }

  /** Poll `k` is the first at which a halt is observed. */
  predicate FirstHalt(polls: seq<Poll>, target: int, k: nat)
  {
    HaltObservedAt(polls, target, k) && forall j: nat | j < k :: !HaltObservedAt(polls, target, j)
  }

  /** Poll `k` is the first at which a resumed chain is observed, at height `h`. */
  predicate FirstResume(polls: seq<Poll>, h: int, k: nat)
  {
    && ResumeObservedAt(polls, k) && polls[k].rpc == Height(h)
    && forall j: nat | j < k :: !ResumeObservedAt(polls, j)
  }

  lemma {:induction false} HeightLoopMeaning(polls: seq<Poll>, target: int, i: nat)
    requires i <= |polls|
    requires forall j :: 0 <= j < i ==>
               && polls[j].rpc.Height? && polls[j].rpc.h < target
               && !polls[j].cancelled && !polls[j].cancelledAfter
    ensures HeightLoop(polls, target, i).Reached? <==> exists k: nat :: HeightObservedAt(polls, target, k)
    decreases |polls| - i
  {
    if i < |polls| && !polls[i].cancelled && polls[i].rpc.Height? {
      if polls[i].rpc.h >= target {
        assert HeightObservedAt(polls, target, i);
      } else if !polls[i].cancelledAfter {
        HeightLoopMeaning(polls, target, i + 1);
      }
    }
  }

  /** Waiting for the height succeeds exactly when some poll reads a height at
      or above the target before an RPC error or a cancellation. */
  lemma WaitForUpgradeHeightMeaning(polls: seq<Poll>, target: int)
    ensures WaitForUpgradeHeight(polls, target).Reached? <==> exists k: nat :: HeightObservedAt(polls, target, k)
  {
    HeightLoopMeaning(polls, target, 0);
  }

  /** Length of the run of stable observations that ends just before poll `i`. */
  function StableRun(polls: seq<Poll>, target: int, i: nat): nat
    requires i <= |polls|
  {
    if i == 0 || !Stable(polls, target, i - 1) then 0 else 1 + StableRun(polls, target, i - 1)
  }

  lemma {:induction false} StableRunMeaning(polls: seq<Poll>, target: int, i: nat, n: nat)
    requires n <= i <= |polls|
    ensures StableRun(polls, target, i) >= n
       <==> forall j :: i - n <= j < i ==> Stable(polls, target, j)
  {
    if n > 0 {
      StableRunMeaning(polls, target, i - 1, n - 1);
      if StableRun(polls, target, i) < n && Stable(polls, target, i - 1) {
        assert StableRun(polls, target, i - 1) < n - 1;
      }
    }
  }

  /** A run of three stable observations before poll `i` is a halt observed at
      `i - 1`, provided nothing before `i` made the loop give up. */
  lemma HaltObservedIffRun(polls: seq<Poll>, target: int, i: nat)
    requires i <= |polls|
    requires forall j :: 0 <= j < i ==> OnTime(polls[j]) && !Overshoots(polls[j], target)
    ensures StableRun(polls, target, i) >= STABLE_POLLS <==> i >= 3 && HaltObservedAt(polls, target, i - 1)
  {
    StableRunBound(polls, target, i);
    if i >= 3 {
      StableRunMeaning(polls, target, i, 3);
    }
  }

  lemma {:induction false} StableRunBound(polls: seq<Poll>, target: int, i: nat)
    requires i <= |polls|
    ensures StableRun(polls, target, i) <= i
  {
    if i > 0 {
      StableRunBound(polls, target, i - 1);
    }
  }

  lemma {:induction false} HaltLoopMeaning(
      polls: seq<Poll>, target: int, i: nat, stable: nat, last: int, k: nat)
    requires i <= |polls|
    requires last == LastRead(polls, i) && stable == StableRun(polls, target, i) <= STABLE_POLLS
    requires forall j :: 0 <= j < i ==> OnTime(polls[j]) && !Overshoots(polls[j], target)
    requires forall j: nat | j + 1 < i :: !HaltObservedAt(polls, target, j)
    ensures HaltLoop(polls, target, i, stable, last) == Halted(k) <==> FirstHalt(polls, target, k)
    decreases |polls| - i
  {
    HaltObservedIffRun(polls, target, i);
    if stable < STABLE_POLLS {
      assert forall j: nat | j < i :: !HaltObservedAt(polls, target, j);
      if i < |polls| && OnTime(polls[i]) && !Overshoots(polls[i], target) {
        var read := if polls[i].rpc.Height? then polls[i].rpc.h else last;
        HaltLoopMeaning(polls, target, i + 1, StableRun(polls, target, i + 1), read, k);
      }
    }
  }

  /** Halt detection succeeds at poll `k` exactly when `k` is the first poll at
      which the three latest observations are stable, no read height so far
      overshot, and no deadline or cancellation intervened. */
  lemma WaitForChainHaltMeaning(polls: seq<Poll>, target: int, k: nat)
    ensures WaitForChainHalt(polls, target) == Halted(k) <==> FirstHalt(polls, target, k)
  {
    HaltLoopMeaning(polls, target, 0, 0, 0, k);
  }

  /** The heights read in the window of a detected halt are one constant that
      lies between the upgrade height and the overshoot limit. */
  lemma HaltWindowIsConstant(polls: seq<Poll>, target: int, k: nat, i: nat, j: nat)
    requires HaltObservedAt(polls, target, k)
    requires k - 2 <= i <= j <= k
    requires polls[i].rpc.Height? && polls[j].rpc.Height?
    ensures polls[i].rpc.h == polls[j].rpc.h
    ensures target <= polls[i].rpc.h <= target + 10
  {
    assert Stable(polls, target, i) && Stable(polls, target, j);
    if i < j {
      LastReadInWindow(polls, target, i, j);
    }
  }

  lemma {:induction false} LastReadInWindow(polls: seq<Poll>, target: int, i: nat, j: nat)
    requires i < j <= |polls| && polls[i].rpc.Height?
    requires forall m :: i <= m < j ==> Stable(polls, target, m)
    ensures LastRead(polls, j) == polls[i].rpc.h
  {
    if i < j - 1 {
      LastReadInWindow(polls, target, i, j - 1);
      assert Stable(polls, target, j - 1);
    }
  }

  lemma {:induction false} ResumeLoopMeaning(polls: seq<Poll>, i: nat, last: int, h: int, k: nat)
    requires i <= |polls| && last == LastRead(polls, i)
    requires forall j: nat | j < i :: OnTime(polls[j]) && !ResumeObservedAt(polls, j)
    ensures ResumeLoop(polls, i, last) == Resumed(h, k) <==> FirstResume(polls, h, k)
    decreases |polls| - i
  {
    if i < |polls| && !polls[i].late && !polls[i].cancelled && !ResumeObservedAt(polls, i) {
      if !polls[i].cancelledAfter {
        ResumeLoopMeaning(polls, i + 1, if polls[i].rpc.Height? then polls[i].rpc.h else last, h, k);
      }
    }
  }

  /** Resume detection returns `h` at poll `k` exactly when `k` is the first poll
      that reads a height `h` above the positive height read just before it, RPC
      errors in between ignored, before any deadline or cancellation. */
  lemma VerifyChainResumedMeaning(polls: seq<Poll>, h: int, k: nat)
    ensures VerifyChainResumed(polls) == Resumed(h, k) <==> FirstResume(polls, h, k)
  {
    ResumeLoopMeaning(polls, 0, 0, h, k);
  }

  // ------------------------------------------------------------ every verdict

  /** What counts as the previously read height is 0 while nothing was read, and
      otherwise the height of the poll after which there were only errors. */
  lemma {:induction false} LastReadMeaning(polls: seq<Poll>, j: int, i: nat)
    requires -1 <= j < i <= |polls|
    requires forall m :: j < m < i ==> polls[m].rpc.RpcError?
    ensures j < 0 ==> LastRead(polls, i) == 0
    ensures j >= 0 && polls[j].rpc.Height? ==> LastRead(polls, i) == polls[j].rpc.h
  {
    if i - 1 > j {
      LastReadMeaning(polls, j, i - 1);
    }
  }

  /** A halt takes three polls in a row that fail or repeat, at or above the
      upgrade height, what was last read, with nothing read beyond ten blocks
      above it, and comes with the first such three. */
  lemma HaltTakesThreePolls(polls: seq<Poll>, target: int, k: nat)
    ensures WaitForChainHalt(polls, target) == Halted(k) <==>
            && ThreeQuietPolls(polls, target, k)
            && (forall j: nat | j < k :: !ThreeQuietPolls(polls, target, j))
  {
    WaitForChainHaltMeaning(polls, target, k);
    forall j: nat
      ensures ThreeQuietPolls(polls, target, j) <==> HaltObservedAt(polls, target, j)
    {
    }
  }

  predicate Quiet(polls: seq<Poll>, target: int, i: nat)
    requires i < |polls|
  {
    polls[i].rpc == RpcError || (polls[i].rpc == Height(LastRead(polls, i)) && LastRead(polls, i) >= target)
  }

  predicate ThreeQuietPolls(polls: seq<Poll>, target: int, k: nat) {
    && 2 <= k < |polls|
    && Quiet(polls, target, k - 2) && Quiet(polls, target, k - 1) && Quiet(polls, target, k)
    && forall i :: 0 <= i <= k ==>
         && !polls[i].late && !polls[i].cancelled && !polls[i].cancelledAfter
         && (polls[i].rpc.Height? ==> polls[i].rpc.h <= target + 10)
  }

  /** Nothing before poll `k` ends the wait for the halt. */
  predicate StillWaiting(polls: seq<Poll>, target: int, k: nat)
    requires k <= |polls|
  {
    && (forall i :: 0 <= i < k ==> OnTime(polls[i]) && !Overshoots(polls[i], target))
    && forall j: nat | j < k :: !HaltObservedAt(polls, target, j)
  }

  lemma {:induction false} HaltLoopGoesOn(polls: seq<Poll>, target: int, k: nat)
    requires k <= |polls| && StillWaiting(polls, target, k)
    ensures StableRun(polls, target, k) < STABLE_POLLS
    ensures HaltLoop(polls, target, 0, 0, 0) ==
            HaltLoop(polls, target, k, StableRun(polls, target, k), LastRead(polls, k))
  {
    if k > 0 {
      HaltLoopGoesOn(polls, target, k - 1);
      HaltObservedIffRun(polls, target, k);
    }
  }

  /** The first poll that ends the wait for the halt determines the verdict. */
  lemma HaltVerdictMeaning(polls: seq<Poll>, target: int, k: nat)
    requires k <= |polls| && StillWaiting(polls, target, k)
    ensures k == |polls| || polls[k].late ==> WaitForChainHalt(polls, target) == HaltTimedOut
    ensures k < |polls| && !polls[k].late && polls[k].cancelled ==> WaitForChainHalt(polls, target) == HaltCancelled
    ensures k < |polls| && !polls[k].late && !polls[k].cancelled && Overshoots(polls[k], target) ==>
              WaitForChainHalt(polls, target) == Overshot(polls[k].rpc.h)
    ensures k < |polls| && !polls[k].late && polls[k].cancelledAfter && !Overshoots(polls[k], target) ==>
              WaitForChainHalt(polls, target) == HaltCancelled
  {
    HaltLoopGoesOn(polls, target, k);
  }

  lemma {:induction false} ResumeLoopGoesOn(polls: seq<Poll>, k: nat)
    requires k <= |polls|
    requires forall i: nat | i < k :: OnTime(polls[i]) && !ResumeObservedAt(polls, i)
    ensures ResumeLoop(polls, 0, 0) == ResumeLoop(polls, k, LastRead(polls, k))
  {
    if k > 0 {
      ResumeLoopGoesOn(polls, k - 1);
    }
  }

  /** The first poll that ends the wait for the chain to resume determines the
      verdict. */
  lemma ResumeVerdictMeaning(polls: seq<Poll>, k: nat)
    requires k <= |polls|
    requires forall i: nat | i < k :: OnTime(polls[i]) && !ResumeObservedAt(polls, i)
    ensures k == |polls| || polls[k].late ==> VerifyChainResumed(polls) == ResumeTimedOut
    ensures k < |polls| && !polls[k].late && polls[k].cancelled ==> VerifyChainResumed(polls) == ResumeCancelled
    ensures k < |polls| && !polls[k].late && polls[k].cancelledAfter && !ResumeObservedAt(polls, k) ==>
              VerifyChainResumed(polls) == ResumeCancelled
  {
    ResumeLoopGoesOn(polls, k);
  }

  lemma {:induction false} HeightLoopGoesOn(polls: seq<Poll>, target: int, k: nat)
    requires k <= |polls|
    requires forall i :: 0 <= i < k ==>
               && polls[i].rpc.Height? && polls[i].rpc.h < target
               && !polls[i].cancelled && !polls[i].cancelledAfter
    ensures HeightLoop(polls, target, 0) == HeightLoop(polls, target, k)
  {
    if k > 0 {
      HeightLoopGoesOn(polls, target, k - 1);
    }
  }

  /** The first poll that ends the wait for the height determines the verdict. */
  lemma HeightVerdictMeaning(polls: seq<Poll>, target: int, k: nat)
    requires k <= |polls|
    requires forall i :: 0 <= i < k ==>
               && polls[i].rpc.Height? && polls[i].rpc.h < target
               && !polls[i].cancelled && !polls[i].cancelledAfter
    ensures k == |polls| || polls[k].cancelled ==> WaitForUpgradeHeight(polls, target) == HeightCancelled
    ensures k < |polls| && !polls[k].cancelled && polls[k].rpc == RpcError ==>
              WaitForUpgradeHeight(polls, target) == if polls[k].cancelledAfter then HeightCancelled else HeightRpcFailed
    ensures k < |polls| && !polls[k].cancelled && polls[k].rpc.Height? && polls[k].rpc.h >= target ==>
              WaitForUpgradeHeight(polls, target) == Reached
    ensures k < |polls| && polls[k].cancelledAfter && polls[k].rpc.Height? && polls[k].rpc.h < target ==>
              WaitForUpgradeHeight(polls, target) == HeightCancelled
  {
    HeightLoopGoesOn(polls, target, k);
  }
}
