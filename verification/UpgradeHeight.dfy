/** The height a proposal schedules its upgrade at
    (internal/application/upgrade/propose.go:122-203). Durations are whole
    nanoseconds, as in the source. */
module UpgradeHeight {
  import opened Outcomes
  import opened Decimal

  const SECOND: int := 1_000_000_000
  const TARGET_BUFFER_TIME: int := 80 * SECOND
  const DEFAULT_BUFFER: int := 40
  const MIN_BUFFER: int := 10
  const MAX_BUFFER: int := 200

  /** What the chain answers to the three queries; an error carries no detail
      that matters here. */
  datatype Chain = Chain(height: Option<int64>, votingPeriod: Option<int64>, blockTime: Option<int64>)

  datatype HeightError = HeightQueryFailed | DivisionByZero

  /** The language's integer division, which drops the fraction. */
  function Quo(a: int, b: int): int
    requires b != 0
  {
    if (a >= 0) == (b > 0) then Abs(a) / Abs(b) else -(Abs(a) / Abs(b))
  }

  function Abs(a: int): nat {
    if a < 0 then -a else a
  }

  /** Addition on int64 wraps around. */
  function Wrap(i: int): int64 {
    (i - MIN_INT64) % (MAX_INT64 - MIN_INT64 + 1) + MIN_INT64
  }

  /** `calculateHeightBuffer`. */
  function HeightBuffer(height: int64, blockTime: int64): int
    requires blockTime != 0
  {
    if height < 5 then DEFAULT_BUFFER
    else
      var blocks := Quo(TARGET_BUFFER_TIME, blockTime);
      if blocks < MIN_BUFFER then MIN_BUFFER
      else if blocks > MAX_BUFFER then MAX_BUFFER
      else blocks
  }

  /** The voting period and the block time that are used: the chain's, or the
      input's voting period and two seconds. */
  function VotingPeriod(chain: Chain, inputPeriod: int64): int64 {
    if chain.votingPeriod.Some? then chain.votingPeriod.value else inputPeriod
  }

  function BlockTime(chain: Chain): int64 {
    if chain.blockTime.Some? then chain.blockTime.value else 2 * SECOND
  }

  /** `calculateUpgradeHeight`; `requested` is the height buffer of the input,
      zero when it is to be computed. A block time of zero stops the program in
      the source. */
  function UpgradeHeight(chain: Chain, inputPeriod: int64, requested: int64): Result<int64, HeightError>
  {
    if chain.height.None? then Err(HeightQueryFailed)
    else if BlockTime(chain) == 0 then Err(DivisionByZero)
    else
      var height := chain.height.value;
      var blockTime := BlockTime(chain);
      var votingBlocks := Quo(VotingPeriod(chain, inputPeriod), blockTime);
      var buffer := if requested == 0 then HeightBuffer(height, blockTime) else requested;
      Ok(Wrap(Wrap(height + votingBlocks) + buffer))
  }

  // --------------------------------------------------------------- the buffer

  function Min(a: int, b: int): int {
    if a <= b then a else b
  }

  function Max(a: int, b: int): int {
    if a >= b then a else b
  }

  lemma QuoOfPositive(a: int, b: int)
    requires a >= 0 && b > 0
    ensures Quo(a, b) == a / b
  {
    assert Abs(a) == a && Abs(b) == b;
  }

  lemma DivisionLaw(a: int, b: int)
    requires b > 0
    ensures a == (a / b) * b + a % b && 0 <= a % b < b
  {
  }

  /** A quotient of positive numbers is pinned by its product. */
  lemma QuoBounds(a: int, b: int)
    requires a >= 0 && b > 0
    ensures 0 <= Quo(a, b) && Quo(a, b) * b <= a < Quo(a, b) * b + b
  {
    QuoOfPositive(a, b);
    DivisionLaw(a, b);
    hide Quo;
    NotNegative(a / b, b, a);
  }

  lemma NotNegative(q: int, b: int, a: int)
    requires b > 0 && a >= 0 && a < q * b + b
    ensures q >= 0
  {
    Distribute(q, b);
    Scale(0, q + 1, b);
  }

  lemma Distribute(q: int, b: int)
    ensures (q + 1) * b == q * b + b
  {
  }

  /** Products with the same positive factor are ordered as the other factors. */
  lemma Scale(p: int, q: int, f: int)
    requires f > 0
    ensures p <= q <==> p * f <= q * f
    ensures p < q <==> p * f < q * f
  {
    if p <= q {
      assert (q - p) * f >= 0;
    } else {
      assert (p - q) * f > 0;
    }
  }

  /** The buffer is between 10 and 200 blocks. It lasts less than one block short
      of 80 seconds or of 200 blocks, whichever comes first, and more than 80
      seconds only if it is the minimum. */
  lemma BufferLasts(height: int64, blockTime: int64)
    requires height >= 5 && blockTime > 0
    ensures MIN_BUFFER <= HeightBuffer(height, blockTime) <= MAX_BUFFER
    ensures HeightBuffer(height, blockTime) * blockTime
            > Min(TARGET_BUFFER_TIME, MAX_BUFFER * blockTime) - blockTime
    ensures HeightBuffer(height, blockTime) * blockTime
            <= Max(TARGET_BUFFER_TIME, MIN_BUFFER * blockTime)
  {
    var blocks := Quo(TARGET_BUFFER_TIME, blockTime);
    QuoBounds(TARGET_BUFFER_TIME, blockTime);
    if blocks < MIN_BUFFER {
      Scale(blocks + 1, MIN_BUFFER, blockTime);
    } else if blocks > MAX_BUFFER {
      Scale(MAX_BUFFER, blocks, blockTime);
    }
  }

  /** Slower blocks never get a longer buffer. */
  lemma BufferShrinks(height: int64, faster: int64, slower: int64)
    requires height >= 5 && 0 < faster <= slower
    ensures HeightBuffer(height, slower) <= HeightBuffer(height, faster)
  {
    hide Quo;
    var few, many := Quo(TARGET_BUFFER_TIME, slower), Quo(TARGET_BUFFER_TIME, faster);
    QuoBounds(TARGET_BUFFER_TIME, slower);
    QuoBounds(TARGET_BUFFER_TIME, faster);
    FewerSlowBlocks(few, many, faster, slower);
  }

  lemma FewerSlowBlocks(few: int, many: int, faster: int, slower: int)
    requires few >= 0 && 0 < faster <= slower
    requires few * slower < many * faster + faster
    ensures few <= many
  {
    assert few * (slower - faster) >= 0;
    assert few * slower == few * faster + few * (slower - faster);
    assert (many + 1) * faster == many * faster + faster;
    Scale(few, many + 1, faster);
  }

  // --------------------------------------------------------------- the height

  /** No sum on the way to the height leaves int64. */
  predicate InRange(height: int, votingBlocks: int, buffer: int) {
    && height + votingBlocks <= MAX_INT64
    && MIN_INT64 <= height + votingBlocks + buffer <= MAX_INT64
  }

  lemma WrapInRange(i: int)
    requires MIN_INT64 <= i <= MAX_INT64
    ensures Wrap(i) == i
  {
  }

  /** The blocks the voting period takes, rounded down. */
  function VotingBlocks(chain: Chain, inputPeriod: int64): int
    requires BlockTime(chain) > 0
  {
    Quo(VotingPeriod(chain, inputPeriod), BlockTime(chain))
  }

  function Buffer(chain: Chain, requested: int64): int
    requires chain.height.Some? && BlockTime(chain) > 0
  {
    if requested == 0 then HeightBuffer(chain.height.value, BlockTime(chain)) else requested
  }

  /** A chain that answers, on which the sums stay in range. */
  predicate Answers(chain: Chain, inputPeriod: int64, requested: int64) {
    && chain.height.Some? && chain.height.value >= 0
    && BlockTime(chain) > 0
    && VotingPeriod(chain, inputPeriod) >= 0
    && InRange(chain.height.value, VotingBlocks(chain, inputPeriod), Buffer(chain, requested))
  }

  /** Below the wrap-around the upgrade height is the exact sum, and the time
      until it is within one block of the voting period and the buffer. */
  lemma HeightIsSum(chain: Chain, inputPeriod: int64, requested: int64)
    requires Answers(chain, inputPeriod, requested)
    ensures UpgradeHeight(chain, inputPeriod, requested).Ok?
    ensures var ahead := UpgradeHeight(chain, inputPeriod, requested).value - chain.height.value;
            var rest := ahead * BlockTime(chain) - Buffer(chain, requested) * BlockTime(chain);
            rest <= VotingPeriod(chain, inputPeriod) < rest + BlockTime(chain)
  {
    hide Quo, HeightBuffer, Wrap;
    var blockTime := BlockTime(chain);
    var votingBlocks, buffer := VotingBlocks(chain, inputPeriod), Buffer(chain, requested);
    QuoBounds(VotingPeriod(chain, inputPeriod), blockTime);
    WrapInRange(chain.height.value + votingBlocks);
    WrapInRange(chain.height.value + votingBlocks + buffer);
    assert (votingBlocks + buffer) * blockTime - buffer * blockTime == votingBlocks * blockTime;
  }

  /** With the automatic buffer on a chain of height 5 or more, the upgrade comes
      later than the end of voting by more than 80 seconds or 200 blocks,
      whichever is shorter, less two blocks; and by more than nine blocks. */
  lemma AutomaticHeightLeavesTime(chain: Chain, inputPeriod: int64)
    requires Answers(chain, inputPeriod, 0) && chain.height.value >= 5
    ensures UpgradeHeight(chain, inputPeriod, 0).Ok?
    ensures var ahead := UpgradeHeight(chain, inputPeriod, 0).value - chain.height.value;
            var blockTime := BlockTime(chain);
            && ahead * blockTime > VotingPeriod(chain, inputPeriod)
                                   + Min(TARGET_BUFFER_TIME, MAX_BUFFER * blockTime) - 2 * blockTime
            && ahead * blockTime > VotingPeriod(chain, inputPeriod) + 9 * blockTime
            && ahead * blockTime <= VotingPeriod(chain, inputPeriod)
                                    + Max(TARGET_BUFFER_TIME, MIN_BUFFER * blockTime)
  {
    hide HeightBuffer, UpgradeHeight, Quo;
    HeightIsSum(chain, inputPeriod, 0);
    BufferLasts(chain.height.value, BlockTime(chain));
    Scale(MIN_BUFFER, HeightBuffer(chain.height.value, BlockTime(chain)), BlockTime(chain));
  }

  /** The upgrade is scheduled no earlier than the end of voting exactly when the
      requested buffer is not negative. */
  lemma UpgradeAfterVotingIff(chain: Chain, inputPeriod: int64, requested: int64)
    requires Answers(chain, inputPeriod, requested)
    ensures UpgradeHeight(chain, inputPeriod, requested).Ok?
    ensures var ahead := UpgradeHeight(chain, inputPeriod, requested).value - chain.height.value;
            ahead * BlockTime(chain) >= VotingPeriod(chain, inputPeriod) <==> requested >= 0
  {
    hide UpgradeHeight, Quo;
    HeightIsSum(chain, inputPeriod, requested);
    var blockTime, buffer := BlockTime(chain), Buffer(chain, requested);
    if requested >= 0 {
      assert buffer >= 1;
      Scale(1, buffer, blockTime);
    } else {
      Scale(buffer, -1, blockTime);
    }
  }

  /** The height lies above the current one exactly when the blocks to wait are
      positive in number and the sums stay within int64: a voting period or a
      buffer that is too long wraps below it. */
  lemma HeightAboveIff(chain: Chain, inputPeriod: int64, requested: int64)
    requires chain.height.Some? && chain.height.value >= 0 && BlockTime(chain) > 0
    requires VotingPeriod(chain, inputPeriod) >= 0
    ensures UpgradeHeight(chain, inputPeriod, requested).Ok?
    ensures var ahead := VotingBlocks(chain, inputPeriod) + Buffer(chain, requested);
            UpgradeHeight(chain, inputPeriod, requested).value > chain.height.value
            <==> ahead > 0 && chain.height.value + ahead <= MAX_INT64
  {
    hide Quo, HeightBuffer, Wrap;
    var votingBlocks, buffer := VotingBlocks(chain, inputPeriod), Buffer(chain, requested);
    QuoBounds(VotingPeriod(chain, inputPeriod), BlockTime(chain));
    NoMoreThanProduct(votingBlocks, BlockTime(chain));
    BufferFits(chain, requested);
    WrapSum(chain.height.value, votingBlocks, buffer);
  }

  lemma NoMoreThanProduct(n: nat, k: int)
    requires k > 0
    ensures n <= n * k
  {
  }

  lemma BufferFits(chain: Chain, requested: int64)
    requires chain.height.Some? && BlockTime(chain) > 0
    ensures MIN_INT64 <= Buffer(chain, requested) <= MAX_INT64
    ensures requested == 0 ==> Buffer(chain, requested) > 0
  {
    hide Quo;
  }

  /** The automatic buffer is positive, so only the wrap-around remains. */
  lemma HeightWrapsIff(chain: Chain, inputPeriod: int64)
    requires chain.height.Some? && chain.height.value >= 0 && BlockTime(chain) > 0
    requires VotingPeriod(chain, inputPeriod) >= 0
    ensures UpgradeHeight(chain, inputPeriod, 0).Ok?
    ensures UpgradeHeight(chain, inputPeriod, 0).value > chain.height.value
            <==> chain.height.value + VotingBlocks(chain, inputPeriod) + Buffer(chain, 0) <= MAX_INT64
  {
    hide UpgradeHeight, Quo, HeightBuffer;
    HeightAboveIff(chain, inputPeriod, 0);
    BufferFits(chain, 0);
    QuoBounds(VotingPeriod(chain, inputPeriod), BlockTime(chain));
  }

  /** Wrapping after each of two sums. */
  lemma WrapSum(h: int, v: int, b: int)
    requires 0 <= h <= MAX_INT64 && 0 <= v <= MAX_INT64 && MIN_INT64 <= b <= MAX_INT64
    ensures Wrap(Wrap(h + v) + b) > h <==> v + b > 0 && h + v + b <= MAX_INT64
  {
    var range := MAX_INT64 - MIN_INT64 + 1;
    var first := if h + v <= MAX_INT64 then h + v else h + v - range;
    assert Wrap(h + v) == first;
    var sum := first + b;
    assert Wrap(sum) == if sum > MAX_INT64 then sum - range else if sum < MIN_INT64 then sum + range else sum;
  }

  // ------------------------------------------------- in numbers, on what is asked

  /** The language's division drops the fraction, towards zero. */
  lemma QuoTruncates(a: int, b: int)
    requires b != 0
    ensures a - Quo(a, b) * b < Abs(b) && Quo(a, b) * b - a < Abs(b)
    ensures a > 0 ==> 0 <= Quo(a, b) * b <= a
    ensures a < 0 ==> a <= Quo(a, b) * b <= 0
  {
    DivisionLaw(Abs(a), Abs(b));
    var q := Abs(a) / Abs(b);
    QuotientNotNegative(Abs(a), Abs(b));
    ProductSign(q, Abs(b));
    assert Quo(a, b) * b == if a >= 0 then q * Abs(b) else -(q * Abs(b)) by {
      QuoTimes(a, b);
    }
  }

  lemma QuoTimes(a: int, b: int)
    requires b != 0
    ensures Quo(a, b) * b == if a >= 0 then (Abs(a) / Abs(b)) * Abs(b) else -((Abs(a) / Abs(b)) * Abs(b))
  {
    Signs(Abs(a) / Abs(b), b);
  }

  lemma Signs(q: int, b: int)
    ensures (-q) * b == -(q * b) && q * (-b) == -(q * b)
  {
  }

  lemma ProductSign(q: int, b: int)
    requires q >= 0 && b > 0
    ensures q * b >= 0
  {
  }

  lemma QuotientNotNegative(a: int, b: int)
    requires a >= 0 && b > 0
    ensures a / b >= 0
  {
    QuoOfPositive(a, b);
    QuoBounds(a, b);
  }

  /** A chain at height 5 or more that answers all queries: whatever voting period
      the input names, the upgrade comes after the chain's own voting period by
      more than min(80 s, 200 blocks) less two blocks, and by at most
      max(80 s, 10 blocks), in nanoseconds. */
  lemma ScheduledAfterChainVoting(height: int64, votingPeriod: int64, blockTime: int64, inputPeriod: int64)
    requires height >= 5 && votingPeriod >= 0 && blockTime > 0
    requires height + Quo(votingPeriod, blockTime) + 200 <= MAX_INT64
    ensures var r := UpgradeHeight(Chain(Some(height), Some(votingPeriod), Some(blockTime)), inputPeriod, 0);
            && r.Ok?
            && (r.value - height) * blockTime > votingPeriod + Min(80_000_000_000, 200 * blockTime) - 2 * blockTime
            && (r.value - height) * blockTime > votingPeriod + 9 * blockTime
            && (r.value - height) * blockTime <= votingPeriod + Max(80_000_000_000, 10 * blockTime)
  {
    hide Quo, UpgradeHeight, HeightBuffer;
    var chain := Chain(Some(height), Some(votingPeriod), Some(blockTime));
    BufferLasts(height, blockTime);
    QuoBounds(votingPeriod, blockTime);
    AutomaticHeightLeavesTime(chain, inputPeriod);
  }

  /** A requested buffer is taken as it is. */
  lemma RequestedBufferIsKept(height: int64, votingPeriod: int64, blockTime: int64, inputPeriod: int64, requested: int64)
    requires height >= 0 && votingPeriod >= 0 && blockTime > 0 && requested != 0
    requires InRange(height, Quo(votingPeriod, blockTime), requested)
    ensures var r := UpgradeHeight(Chain(Some(height), Some(votingPeriod), Some(blockTime)), inputPeriod, requested);
            && r.Ok?
            && (r.value - height - requested) * blockTime <= votingPeriod
            && votingPeriod < (r.value - height - requested) * blockTime + blockTime
  {
    hide Quo, UpgradeHeight, HeightBuffer;
    var chain := Chain(Some(height), Some(votingPeriod), Some(blockTime));
    HeightIsSum(chain, inputPeriod, requested);
    var r := UpgradeHeight(chain, inputPeriod, requested);
    Subtract(r.value - height, requested, blockTime);
  }

  lemma Subtract(a: int, b: int, f: int)
    ensures (a - b) * f == a * f - b * f
  {
  }

  /** A chain that does not tell its voting period is taken to have the input's,
      one that does not tell its block time to have two seconds; the height itself
      must be told. */
  lemma Fallbacks(height: int64, votingPeriod: int64, blockTime: int64, inputPeriod: int64, requested: int64)
    ensures UpgradeHeight(Chain(Some(height), None, Some(blockTime)), inputPeriod, requested)
         == UpgradeHeight(Chain(Some(height), Some(inputPeriod), Some(blockTime)), votingPeriod, requested)
    ensures UpgradeHeight(Chain(Some(height), Some(votingPeriod), None), inputPeriod, requested)
         == UpgradeHeight(Chain(Some(height), Some(votingPeriod), Some(2_000_000_000)), inputPeriod, requested)
    ensures UpgradeHeight(Chain(None, Some(votingPeriod), Some(blockTime)), inputPeriod, requested).Err?
    ensures UpgradeHeight(Chain(Some(height), Some(votingPeriod), Some(0)), inputPeriod, requested).Err?
  {
    hide Quo, HeightBuffer, Wrap;
  }

  /** Below height 5 the automatic buffer is 40 blocks, whatever the block time. */
  lemma EarlyChainGetsForty(height: int64, votingPeriod: int64, blockTime: int64, inputPeriod: int64)
    requires height < 5
    ensures UpgradeHeight(Chain(Some(height), Some(votingPeriod), Some(blockTime)), inputPeriod, 0)
         == UpgradeHeight(Chain(Some(height), Some(votingPeriod), Some(blockTime)), inputPeriod, 40)
  {
    hide Quo, Wrap;
  }
}
