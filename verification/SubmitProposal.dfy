/** The call data of submitProposal(address,bytes,(string,uint256)[])
    (internal/application/upgrade/propose.go:366-426): the hand-written encoder,
    the standard encoding of its arguments, and a decoder. */
module SubmitProposal {
  import opened Outcomes
  import opened AbiEncoding

  datatype Args = Args(proposer: seq<byte>, proposal: seq<byte>, denom: seq<byte>, amount: nat)

  /** What the types of the call admit; the proposal's length leaves the int64
      arithmetic of the encoder in range. */
  predicate Encodable(a: Args) {
    && |a.proposer| == 20
    && FitsWord(a.amount)
    && |a.proposal| + |a.denom| <= 0x7fff_ffff_ffff_ff00
  }

  /** The arguments as values of the call's signature. */
  function Values(a: Args): seq<Value> {
    [Address(a.proposer), Bytes(a.proposal), Array([Tuple([String(a.denom), Uint(a.amount)])])]
  }

  function Standard(a: Args): seq<byte> {
    EncTuple(Values(a))
  }

  // ------------------------------------------------------------------ encoder

  /** big.Int.Bytes: the shortest big-endian representation. */
  function MinBytes(n: nat): seq<byte>
  {
    if n == 0 then [] else MinBytes(n / 256) + [n % 256]
  }

  /** common.LeftPadBytes. */
  function LeftPad(bs: seq<byte>, k: nat): seq<byte> {
    if k <= |bs| then bs else Zeros(k - |bs|) + bs
  }

  /** Copying into a fresh zeroed slice of length `k`. */
  function CopiedInto(bs: seq<byte>, k: nat): (out: seq<byte>)
    ensures |out| == k
  {
    if |bs| <= k then bs + Zeros(k - |bs|) else bs[..k]
  }

  /** The bytes the encoder appends after the selector. */
  function Printed(a: Args): seq<byte>
  {
    var padded := RoundUp(|a.proposal|);
    LeftPad(a.proposer, 32)
    + (LeftPad(MinBytes(96), 32)
    + (LeftPad(MinBytes(96 + 32 + padded), 32)
    + (LeftPad(MinBytes(|a.proposal|), 32)
    + (CopiedInto(a.proposal, padded)
    + (LeftPad(MinBytes(1), 32)
    + (LeftPad(MinBytes(32), 32)
    + (LeftPad(MinBytes(64), 32)
    + (LeftPad(MinBytes(a.amount), 32)
    + (LeftPad(MinBytes(|a.denom|), 32)
    + CopiedInto(a.denom, 32))))))))))
  }

  lemma {:induction false} MinBytesDenote(n: nat)
    ensures FromBigEndian(MinBytes(n)) == n
  {
    if n > 0 {
      MinBytesDenote(n / 256);
      assert MinBytes(n)[..|MinBytes(n)| - 1] == MinBytes(n / 256);
    }
  }

  lemma {:induction false} MinBytesLength(n: nat, k: nat)
    requires n < Pow256(k)
    ensures |MinBytes(n)| <= k
  {
    if n > 0 {
      MinBytesLength(n / 256, k - 1);
    }
  }

  /** Left-padding the shortest representation of a number that fits gives its
      word. */
  lemma PaddedNumber(n: nat)
    requires FitsWord(n)
    ensures LeftPad(MinBytes(n), 32) == Word(n)
  {
    hide BigEndian, FromBigEndian, MinBytes, Pow256;
    MinBytesLength(n, WORD);
    MinBytesDenote(n);
    PadIsBigEndian(MinBytes(n), WORD);
    assert Zeros(0) + MinBytes(n) == MinBytes(n);
  }

  lemma PaddedSmall(n: nat)
    requires n < 0x8000_0000_0000_0000
    ensures LeftPad(MinBytes(n), 32) == Word(n)
  {
    SmallFitsWord(n);
    PaddedNumber(n);
  }

  /** The encoder's bytes, word by word. */
  function Words(a: Args): seq<byte>
  {
    Word(FromBigEndian(a.proposer))
    + (Word(96)
    + (Word(128 + RoundUp(|a.proposal|))
    + (Word(|a.proposal|)
    + (PadRight(a.proposal)
    + (Word(1)
    + (Word(32)
    + (Word(64)
    + (Word(a.amount)
    + (Word(|a.denom|)
    + CopiedInto(a.denom, 32))))))))))
  }

  lemma PaddedAddress(proposer: seq<byte>)
    requires |proposer| == 20
    ensures LeftPad(proposer, 32) == Word(FromBigEndian(proposer))
  {
    PadIsBigEndian(proposer, WORD);
  }

  lemma PrintedIsWords(a: Args)
    requires Encodable(a)
    ensures Printed(a) == Words(a)
  {
    hide LeftPad, MinBytes, Word, FromBigEndian, FitsWord;
    PaddedAddress(a.proposer);
    PaddedSmall(96);
    PaddedSmall(96 + 32 + RoundUp(|a.proposal|));
    PaddedSmall(|a.proposal|);
    PaddedSmall(1);
    PaddedSmall(32);
    PaddedSmall(64);
    PaddedNumber(a.amount);
    PaddedSmall(|a.denom|);
  }

  // ------------------------------------------------------- the standard, unfolded

  /** A tuple of a dynamic and a static one-word value. */
  lemma EncPair(v0: Value, v1: Value)
    requires Dynamic(v0) && !Dynamic(v1) && |Enc(v1)| == 32
    ensures EncTuple([v0, v1]) == Word(64) + (Enc(v1) + Enc(v0))
  {
    hide Enc, Word, Dynamic;
    var vs := [v0, v1];
    assert vs[1..] == [v1] && [v1][1..] == [];
    assert HeadsLength([v1]) == 32;
    assert Heads([v1], 64 + |Enc(v0)|) == Enc(v1);
    assert Tails([v1]) == [];
    assert Tails(vs) == Enc(v0);
    assert Heads(vs, 64) == Word(64) + Enc(v1);
  }

  /** A tuple of one dynamic value. */
  lemma EncSingle(v: Value)
    requires Dynamic(v)
    ensures EncTuple([v]) == Word(32) + Enc(v)
  {
    hide Enc, Word, Dynamic;
    assert [v][1..] == [];
    assert HeadsLength([v]) == 32;
    assert Heads([v], 32) == Word(32);
    assert Tails([v]) == Enc(v);
  }

  /** A tuple of a static one-word value and two dynamic ones. */
  lemma EncTriple(v0: Value, v1: Value, v2: Value)
    requires !Dynamic(v0) && |Enc(v0)| == 32 && Dynamic(v1) && Dynamic(v2)
    ensures EncTuple([v0, v1, v2]) ==
            Enc(v0) + (Word(96) + (Word(96 + |Enc(v1)|) + (Enc(v1) + Enc(v2))))
  {
    hide Enc, Word, Dynamic;
    var vs := [v0, v1, v2];
    assert vs[1..] == [v1, v2] && [v1, v2][1..] == [v2] && [v2][1..] == [];
    assert HeadsLength([v2]) == 32;
    assert HeadsLength([v1, v2]) == 64;
    assert HeadsLength(vs) == 96;
    assert Heads([v2], 96 + |Enc(v1)|) == Word(96 + |Enc(v1)|);
    assert Heads([v1, v2], 96) == Word(96) + Word(96 + |Enc(v1)|);
    assert Tails([v2]) == Enc(v2);
    assert Tails([v1, v2]) == Enc(v1) + Enc(v2);
    assert Tails(vs) == Enc(v1) + Enc(v2);
  }

  lemma EncDeposits(denom: seq<byte>, amount: nat)
    ensures Enc(Array([Tuple([String(denom), Uint(amount)])])) ==
            Word(1) + (Word(32) + (Word(64) + (Word(amount) + (Word(|denom|) + PadRight(denom)))))
  {
    var s, u := String(denom), Uint(amount);
    var t := Tuple([s, u]);
    assert Dynamic([s, u][0]);
    EncPair(s, u);
    EncSingle(t);
  }

  lemma EncArguments(a: Args)
    ensures Standard(a) ==
            Word(FromBigEndian(a.proposer))
            + (Word(96)
            + (Word(128 + RoundUp(|a.proposal|))
            + ((Word(|a.proposal|) + PadRight(a.proposal))
            + Enc(Array([Tuple([String(a.denom), Uint(a.amount)])])))))
  {
    hide BigEndian, FromBigEndian;
    EncTriple(Address(a.proposer), Bytes(a.proposal), Array([Tuple([String(a.denom), Uint(a.amount)])]));
  }

  /** The encoder appends exactly 320 bytes and the proposal rounded up to whole
      words. */
  lemma PrintedLength(a: Args)
    requires Encodable(a)
    ensures |Printed(a)| == 320 + RoundUp(|a.proposal|)
  {
    PrintedIsWords(a);
  }

  /** The encoder produces the standard encoding exactly for denoms of 1 to 32
      bytes: it always spends one word on the denom. */
  lemma PrintedIsStandardIff(a: Args)
    requires Encodable(a)
    ensures Printed(a) == Standard(a) <==> 1 <= |a.denom| <= 32
  {
    PrintedIsWords(a);
    EncArguments(a);
    EncDeposits(a.denom, a.amount);
    WordsVersusStandard(a);
  }

  lemma WordsVersusStandard(a: Args)
    requires Standard(a) == Word(FromBigEndian(a.proposer))
             + (Word(96)
             + (Word(128 + RoundUp(|a.proposal|))
             + ((Word(|a.proposal|) + PadRight(a.proposal))
             + (Word(1) + (Word(32) + (Word(64) + (Word(a.amount) + (Word(|a.denom|) + PadRight(a.denom)))))))))
    ensures Words(a) == Standard(a) <==> 1 <= |a.denom| <= 32
  {
    hide Word, FromBigEndian, Standard;
    var tail := Word(1) + (Word(32) + (Word(64) + (Word(a.amount) + (Word(|a.denom|) + PadRight(a.denom)))));
    assert (Word(|a.proposal|) + PadRight(a.proposal)) + tail == Word(|a.proposal|) + (PadRight(a.proposal) + tail);
    if 1 <= |a.denom| <= 32 {
      assert CopiedInto(a.denom, 32) == PadRight(a.denom);
    } else {
      assert |PadRight(a.denom)| != 32;
      assert |Words(a)| != |Standard(a)|;
    }
  }

  // ------------------------------------------------------------------- decoder

  /** The `n` bytes at offset `i`, if they are there. */
  function Slice(bs: seq<byte>, i: nat, n: nat): Option<seq<byte>> {
    if i + n <= |bs| then Some(bs[i..i + n]) else None
  }

  function WordAt(bs: seq<byte>, i: nat): Option<nat>
  {
    match Slice(bs, i, WORD)
    case Some(w) => Some(FromBigEndian(w))
    case None => None
  }

  /** A length-prefixed byte string at offset `i`. */
  function BytesAt(bs: seq<byte>, i: nat): Option<seq<byte>>
  {
    match WordAt(bs, i)
    case Some(n) => Slice(bs, i + WORD, n)
    case None => None
  }

  datatype Deposit = Deposit(denom: seq<byte>, amount: nat)

  /** A (string,uint256) tuple at offset `i`. */
  function DepositAt(bs: seq<byte>, i: nat): Option<Deposit>
  {
    match (WordAt(bs, i), WordAt(bs, i + WORD))
    case (Some(offset), Some(amount)) =>
      (match BytesAt(bs, i + offset)
       case Some(denom) => Some(Deposit(denom, amount))
       case None => None)
    case _ => None
  }

  /** The deposits `k` to `n` of an array whose heads start at `base`. */
  function DepositsAt(bs: seq<byte>, base: nat, k: nat, n: nat): Option<seq<Deposit>>
    requires k <= n
    decreases n - k
  {
    if k == n then Some([])
    else
      match WordAt(bs, base + WORD * k)
      case None => None
      case Some(offset) =>
        match (DepositAt(bs, base + offset), DepositsAt(bs, base, k + 1, n))
        case (Some(d), Some(ds)) => Some([d] + ds)
        case _ => None
  }

  datatype Decoded = Decoded(proposer: nat, proposal: seq<byte>, deposits: seq<Deposit>)

  /** Reads the arguments of the call by following the offsets of the heads. */
  function Decode(bs: seq<byte>): Option<Decoded>
  {
    match (WordAt(bs, 0), WordAt(bs, WORD), WordAt(bs, 2 * WORD))
    case (Some(proposer), Some(proposalAt), Some(depositsAt)) =>
      (match (BytesAt(bs, proposalAt), WordAt(bs, depositsAt))
       case (Some(proposal), Some(n)) =>
         (match DepositsAt(bs, depositsAt + WORD, 0, n)
          case Some(deposits) => Some(Decoded(proposer, proposal, deposits))
          case None => None)
       case _ => None)
    case _ => None
  }

  /** A part of a longer string is found at its offset, and the string can be
      read as going on after it. */
  lemma SliceOfConcat(pre: seq<byte>, mid: seq<byte>, post: seq<byte>)
    ensures Slice(pre + (mid + post), |pre|, |mid|) == Some(mid)
    ensures pre + (mid + post) == (pre + mid) + post
  {
    assert (pre + (mid + post))[|pre|..|pre| + |mid|] == mid;
  }

  lemma WordOfConcat(pre: seq<byte>, n: nat, post: seq<byte>)
    requires FitsWord(n)
    ensures WordAt(pre + (Word(n) + post), |pre|) == Some(n)
    ensures pre + (Word(n) + post) == (pre + Word(n)) + post
  {
    SliceOfConcat(pre, Word(n), post);
    BigEndianRoundTrip(n, WORD);
  }

  /** The tuple of the one deposit, as the encoder prints it. */
  function DepositWords(a: Args): seq<byte> {
    Word(64) + (Word(a.amount) + (Word(|a.denom|) + CopiedInto(a.denom, 32)))
  }

  lemma DepositDecodes(a: Args, pre: seq<byte>)
    requires Encodable(a)
    ensures DepositAt(pre + DepositWords(a), |pre|) ==
            if |a.denom| <= 32 then Some(Deposit(a.denom, a.amount)) else None
  {
    hide Word, FitsWord, FromBigEndian;
    SmallFitsWord(64);
    SmallFitsWord(|a.denom|);
    var copied := CopiedInto(a.denom, 32);
    var pre1 := pre + Word(64);
    var pre2 := pre1 + Word(a.amount);
    var pre3 := pre2 + Word(|a.denom|);
    WordOfConcat(pre, 64, Word(a.amount) + (Word(|a.denom|) + copied));
    WordOfConcat(pre1, a.amount, Word(|a.denom|) + copied);
    WordOfConcat(pre2, |a.denom|, copied);
    assert pre + DepositWords(a) == pre3 + copied;
    if |a.denom| <= 32 {
      SliceOfConcat(pre3, a.denom, Zeros(32 - |a.denom|));
    }
  }

  /** The part of the call from the deposit array on. */
  function DepositsWords(a: Args): seq<byte> {
    Word(1) + (Word(32) + DepositWords(a))
  }

  lemma DepositsDecode(a: Args, pre: seq<byte>)
    requires Encodable(a)
    ensures WordAt(pre + DepositsWords(a), |pre|) == Some(1)
    ensures DepositsAt(pre + DepositsWords(a), |pre| + WORD, 0, 1) ==
            if |a.denom| <= 32 then Some([Deposit(a.denom, a.amount)]) else None
  {
    hide Word, FitsWord, WordAt, DepositAt, DepositWords;
    SmallFitsWord(1);
    SmallFitsWord(32);
    var words := DepositWords(a);
    var pre1 := pre + Word(1);
    var pre2 := pre1 + Word(32);
    WordOfConcat(pre, 1, Word(32) + words);
    WordOfConcat(pre1, 32, words);
    DepositDecodes(a, pre2);
    OneDeposit(pre + DepositsWords(a), |pre| + WORD);
  }

  /** An array of one element is decoded through its one head. */
  lemma OneDeposit(bs: seq<byte>, base: nat)
    ensures DepositsAt(bs, base, 0, 1) ==
            match WordAt(bs, base)
            case None => None
            case Some(offset) =>
              match DepositAt(bs, base + offset)
              case None => None
              case Some(d) => Some([d])
  {
    hide WordAt, DepositAt;
    assert DepositsAt(bs, base, 1, 1) == Some([]);
    match WordAt(bs, base)
    case None =>
    case Some(offset) =>
      match DepositAt(bs, base + offset)
      case None =>
      case Some(d) => assert [d] + [] == [d];
  }

  /** Decoding the encoder's output gives back its arguments exactly when the
      denom has at most 32 bytes; a longer one is cut and no longer decodes. */
  lemma PrintedDecodesIff(a: Args)
    requires Encodable(a)
    ensures Decode(Printed(a)) ==
            if |a.denom| <= 32
            then Some(Decoded(FromBigEndian(a.proposer), a.proposal, [Deposit(a.denom, a.amount)]))
            else None
  {
    hide Word, FitsWord, WordAt, Slice, FromBigEndian, DepositsAt, Printed;
    PrintedIsWords(a);
    var padded := RoundUp(|a.proposal|);
    var proposer := FromBigEndian(a.proposer);
    AddressFits(a.proposer);
    SmallFitsWord(96);
    SmallFitsWord(128 + padded);
    SmallFitsWord(|a.proposal|);
    var zeros := Zeros(padded - |a.proposal|);
    var rest4 := (a.proposal + zeros) + DepositsWords(a);
    var rest3 := Word(|a.proposal|) + rest4;
    var rest2 := Word(128 + padded) + rest3;
    var rest1 := Word(96) + rest2;
    var pre1 := [] + Word(proposer);
    var pre2 := pre1 + Word(96);
    var pre3 := pre2 + Word(128 + padded);
    var pre4 := pre3 + Word(|a.proposal|);
    var pre5 := pre4 + (a.proposal + zeros);
    var bs := [] + (Word(proposer) + rest1);
    assert Words(a) == bs;
    WordOfConcat([], proposer, rest1);
    WordOfConcat(pre1, 96, rest2);
    WordOfConcat(pre2, 128 + padded, rest3);
    WordOfConcat(pre3, |a.proposal|, rest4);
    ProposalIn(pre4, a.proposal, zeros, DepositsWords(a));
    DepositsDecode(a, pre5);
    assert bs == pre5 + DepositsWords(a);
  }

  lemma AddressFits(proposer: seq<byte>)
    requires |proposer| == 20
    ensures FitsWord(FromBigEndian(proposer))
  {
    FromBigEndianBound(proposer);
    Pow256Grows(20, WORD);
  }

  lemma ProposalIn(pre: seq<byte>, proposal: seq<byte>, zeros: seq<byte>, rest: seq<byte>)
    ensures Slice(pre + ((proposal + zeros) + rest), |pre|, |proposal|) == Some(proposal)
    ensures pre + ((proposal + zeros) + rest) == (pre + (proposal + zeros)) + rest
  {
    assert pre + ((proposal + zeros) + rest) == pre + (proposal + (zeros + rest));
    SliceOfConcat(pre, proposal, zeros + rest);
  }

  /** Where the encoder puts the raw bytes it is given: the address behind twelve
      zeros, the proposal after the four head words, and the denom, as far as it
      fits, in the last word. */
  lemma PrintedLayout(a: Args)
    requires Encodable(a)
    ensures var p, n := Printed(a), |Printed(a)|;
            && n == 320 + RoundUp(|a.proposal|)
            && p[..12] == [0, 0, 0, 0, 0, 0, 0, 0, 0, 0, 0, 0] && p[12..32] == a.proposer
            && p[128..128 + |a.proposal|] == a.proposal
            && (forall i :: 128 + |a.proposal| <= i < n - 192 ==> p[i] == 0)
            && (var shown := if |a.denom| <= 32 then |a.denom| else 32;
                && p[n - 32..n - 32 + shown] == a.denom[..shown]
                && forall i :: n - 32 + shown <= i < n ==> p[i] == 0)
  {
    hide Printed, FromBigEndian;
    PrintedLength(a);
    PrintedParts(a);
    var p, padded := Printed(a), RoundUp(|a.proposal|);
    RoundUpMeaning(|a.proposal|);
    AddressBlock(p, a.proposer);
    CopiedBlock(p, 128, a.proposal, padded);
    CopiedBlock(p, |p| - 32, a.denom, 32);
  }

  lemma AddressBlock(p: seq<byte>, proposer: seq<byte>)
    requires |proposer| == 20 && |p| >= 32 && p[..32] == Zeros(12) + proposer
    ensures p[..12] == [0, 0, 0, 0, 0, 0, 0, 0, 0, 0, 0, 0] && p[12..32] == proposer
  {
    assert p[..12] == p[..32][..12] && p[12..32] == p[..32][12..];
  }

  lemma CopiedBlock(p: seq<byte>, at: nat, bs: seq<byte>, size: nat)
    requires at + size <= |p| && p[at..at + size] == CopiedInto(bs, size)
    ensures var shown := if |bs| <= size then |bs| else size;
            && p[at..at + shown] == bs[..shown]
            && forall i :: at + shown <= i < at + size ==> p[i] == 0
  {
    var shown := if |bs| <= size then |bs| else size;
    var block := p[at..at + size];
    assert p[at..at + shown] == block[..shown];
    forall i | at + shown <= i < at + size
      ensures p[i] == 0
    {
      assert p[i] == block[i - at];
    }
  }

  lemma PrintedParts(a: Args)
    requires Encodable(a) && |Printed(a)| == 320 + RoundUp(|a.proposal|)
    ensures Printed(a)[..32] == Zeros(12) + a.proposer
    ensures Printed(a)[128..128 + RoundUp(|a.proposal|)] == CopiedInto(a.proposal, RoundUp(|a.proposal|))
    ensures Printed(a)[288 + RoundUp(|a.proposal|)..] == CopiedInto(a.denom, 32)
  {
    hide MinBytes, FitsWord, Word, CopiedInto;
    PaddedSmall(96);
    PaddedSmall(96 + 32 + RoundUp(|a.proposal|));
    PaddedSmall(|a.proposal|);
    PaddedSmall(1);
    PaddedSmall(32);
    PaddedSmall(64);
    PaddedNumber(a.amount);
    PaddedSmall(|a.denom|);
    assert LeftPad(a.proposer, 32) == Zeros(12) + a.proposer;
    hide LeftPad;
  }

  /** `buildSubmitProposalCallData`, appending to its buffer part by part. */
  method BuildCallData(methodID: seq<byte>, a: Args) returns (data: seq<byte>)
    requires Encodable(a) && |methodID| == 4
    ensures |data| == 4 + 320 + RoundUp(|a.proposal|)
    ensures data[..4] == methodID && data[16..36] == a.proposer && data[132..132 + |a.proposal|] == a.proposal
    ensures data[4..] == Standard(a) <==> 1 <= |a.denom| <= 32
    ensures Decode(data[4..]) ==
            if |a.denom| <= 32
            then Some(Decoded(FromBigEndian(a.proposer), a.proposal, [Deposit(a.denom, a.amount)]))
            else None
  {
    hide LeftPad, MinBytes, Decode, Standard, FromBigEndian, CopiedInto, Word;
    var bytesLen := (|a.proposal| + 31) / 32 * 32;
    var depositOffset := 96 + 32 + bytesLen;
    // what is still to be printed after each append
    ghost var r10 := CopiedInto(a.denom, 32);
    ghost var r9 := LeftPad(MinBytes(|a.denom|), 32) + r10;
    ghost var r8 := LeftPad(MinBytes(a.amount), 32) + r9;
    ghost var r7 := LeftPad(MinBytes(64), 32) + r8;
    ghost var r6 := LeftPad(MinBytes(32), 32) + r7;
    ghost var r5 := LeftPad(MinBytes(1), 32) + r6;
    ghost var r4 := CopiedInto(a.proposal, bytesLen) + r5;
    ghost var r3 := LeftPad(MinBytes(|a.proposal|), 32) + r4;
    ghost var r2 := LeftPad(MinBytes(depositOffset), 32) + r3;
    ghost var r1 := LeftPad(MinBytes(96), 32) + r2;
    assert Printed(a) == LeftPad(a.proposer, 32) + r1;

    data := methodID;
    data := Append(data, LeftPad(a.proposer, 32), r1);
    data := Append(data, LeftPad(MinBytes(96), 32), r2);
    data := Append(data, LeftPad(MinBytes(depositOffset), 32), r3);
    data := Append(data, LeftPad(MinBytes(|a.proposal|), 32), r4);
    data := Append(data, CopiedInto(a.proposal, bytesLen), r5);
    data := Append(data, LeftPad(MinBytes(1), 32), r6);
    data := Append(data, LeftPad(MinBytes(32), 32), r7);
    data := Append(data, LeftPad(MinBytes(64), 32), r8);
    data := Append(data, LeftPad(MinBytes(a.amount), 32), r9);
    data := Append(data, LeftPad(MinBytes(|a.denom|), 32), r10);
    data := data + CopiedInto(a.denom, 32);
    SelectorFirst(methodID, a, data);
  }

  /** What the selector followed by the printed arguments amounts to. */
  lemma SelectorFirst(methodID: seq<byte>, a: Args, data: seq<byte>)
    requires Encodable(a) && |methodID| == 4 && data == methodID + Printed(a)
    ensures |data| == 4 + 320 + RoundUp(|a.proposal|)
    ensures data[..4] == methodID && data[4..] == Printed(a)
    ensures data[16..36] == a.proposer && data[132..132 + |a.proposal|] == a.proposal
    ensures data[4..] == Standard(a) <==> 1 <= |a.denom| <= 32
    ensures Decode(data[4..]) ==
            if |a.denom| <= 32
            then Some(Decoded(FromBigEndian(a.proposer), a.proposal, [Deposit(a.denom, a.amount)]))
            else None
  {
    hide Printed, Decode, Standard, FromBigEndian;
    assert data[4..] == Printed(a);
    PrintedLayout(a);
    assert data[16..36] == data[4..][12..32];
    assert data[132..132 + |a.proposal|] == data[4..][128..128 + |a.proposal|];
    PrintedLength(a);
    PrintedIsStandardIff(a);
    PrintedDecodesIff(a);
  }

  /** `append(data, part...)`, with what the caller will append next. */
  method Append(data: seq<byte>, part: seq<byte>, ghost rest: seq<byte>) returns (out: seq<byte>)
    ensures out == data + part && out + rest == data + (part + rest)
  {
    out := data + part;
  }
}
