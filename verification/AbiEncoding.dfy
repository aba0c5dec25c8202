/** The contract ABI encoding, as the section "Formal Specification of the Encoding"
    of the Solidity Contract ABI Specification defines it, for the types the
    governance call needs. */
module AbiEncoding {
  type byte = b: int | 0 <= b < 256

  const WORD: nat := 32

  function Pow256(k: nat): nat
  {
    if k == 0 then 1 else 256 * Pow256(k - 1)
  }

  /** The big-endian representation of `n` in exactly `k` bytes. */
  function BigEndian(n: nat, k: nat): (bs: seq<byte>)
    ensures |bs| == k
  {
    if k == 0 then [] else BigEndian(n / 256, k - 1) + [n % 256]
  }

  function FromBigEndian(bs: seq<byte>): nat
  {
    if bs == [] then 0 else 256 * FromBigEndian(bs[..|bs| - 1]) + bs[|bs| - 1]
  }

  function Zeros(k: nat): (bs: seq<byte>)
    ensures |bs| == k
  {
    seq(k, _ => 0)
  }

  predicate FitsWord(n: nat) {
    n < Pow256(WORD)
  }

  /** enc of a uint256. */
  function Word(n: nat): (bs: seq<byte>)
    ensures |bs| == WORD
  {
    BigEndian(n, WORD)
  }

  /** Length rounded up to whole words. */
  function RoundUp(k: nat): nat {
    (k + (WORD - 1)) / WORD * WORD
  }

  /** Zero bytes on the right up to a whole number of words. */
  function PadRight(bs: seq<byte>): seq<byte> {
    bs + Zeros(RoundUp(|bs|) - |bs|)
  }

  datatype Value =
    | Uint(n: nat)
    | Address(bytes: seq<byte>)
    | Bytes(data: seq<byte>)
    | String(utf8: seq<byte>)
    | Array(elems: seq<Value>)
    | Tuple(fields: seq<Value>)

  predicate Dynamic(v: Value)
  {
    match v
    case Uint(_) => false
    case Address(_) => false
    case Bytes(_) => true
    case String(_) => true
    case Array(_) => true
    case Tuple(vs) => exists i :: 0 <= i < |vs| && Dynamic(vs[i])
  }

  function Enc(v: Value): seq<byte>
    decreases v, 1
  {
    match v
    case Uint(n) => Word(n)
    case Address(bs) => Word(FromBigEndian(bs))
    case Bytes(bs) => Word(|bs|) + PadRight(bs)
    case String(bs) => Word(|bs|) + PadRight(bs)
    case Array(vs) => Word(|vs|) + EncTuple(vs)
    case Tuple(vs) => EncTuple(vs)
  }

  /** All heads, then all tails. */
  function EncTuple(vs: seq<Value>): seq<byte>
    decreases vs, 0
  {
    Heads(vs, HeadsLength(vs)) + Tails(vs)
  }

  function HeadsLength(vs: seq<Value>): nat
    decreases vs, 0, 0
  {
    if vs == [] then 0
    else (if Dynamic(vs[0]) then WORD else |Enc(vs[0])|) + HeadsLength(vs[1..])
  }

  /** The heads; `offset` is where the tail of the first dynamic value starts. */
  function Heads(vs: seq<Value>, offset: nat): seq<byte>
    decreases vs, 0, 0
  {
    if vs == [] then []
    else if Dynamic(vs[0]) then Word(offset) + Heads(vs[1..], offset + |Enc(vs[0])|)
    else Enc(vs[0]) + Heads(vs[1..], offset)
  }

  function Tails(vs: seq<Value>): seq<byte>
    decreases vs, 0, 0
  {
    if vs == [] then []
    else (if Dynamic(vs[0]) then Enc(vs[0]) else []) + Tails(vs[1..])
  }

  // ------------------------------------------------------------------ numbers

  lemma {:induction false} BigEndianRoundTrip(n: nat, k: nat)
    requires n < Pow256(k)
    ensures FromBigEndian(BigEndian(n, k)) == n
  {
    if k > 0 {
      BigEndianRoundTrip(n / 256, k - 1);
      assert BigEndian(n, k)[..k - 1] == BigEndian(n / 256, k - 1);
    }
  }

  /** Padding a byte string with zeros on the left keeps the number it denotes. */
  lemma {:induction false} PadIsBigEndian(bs: seq<byte>, k: nat)
    requires |bs| <= k
    ensures Zeros(k - |bs|) + bs == BigEndian(FromBigEndian(bs), k)
  {
    if k == 0 {
    } else if bs == [] {
      PadIsBigEndian([], k - 1);
      assert Zeros(k) == Zeros(k - 1) + [0];
      assert Zeros(k - 1) + [] == Zeros(k - 1);
    } else {
      var init := bs[..|bs| - 1];
      PadIsBigEndian(init, k - 1);
      assert bs == init + [bs[|bs| - 1]];
      assert Zeros(k - |bs|) + bs == (Zeros(k - 1 - |init|) + init) + [bs[|bs| - 1]];
    }
  }

  lemma {:induction false} FromBigEndianBound(bs: seq<byte>)
    ensures FromBigEndian(bs) < Pow256(|bs|)
  {
    if bs != [] {
      FromBigEndianBound(bs[..|bs| - 1]);
    }
  }

  lemma {:induction false} Pow256Grows(j: nat, k: nat)
    requires j <= k
    ensures 0 < Pow256(j) <= Pow256(k)
  {
    if j < k {
      Pow256Grows(j, k - 1);
    } else if j > 0 {
      Pow256Grows(j - 1, k - 1);
    }
  }

  /** Everything an int64 can hold fits a word. */
  lemma SmallFitsWord(n: nat)
    requires n < 0x8000_0000_0000_0000
    ensures FitsWord(n)
  {
    assert Pow256(4) == 0x1_0000_0000;
    assert Pow256(8) == 0x1_0000_0000 * Pow256(4);
    Pow256Grows(8, WORD);
  }

  // -------------------------------------------------------------- byte by byte

  /** One more byte on the right stands for 256 times the number and the byte; zero
      is written with zeros. */
  lemma {:induction false} BigEndianMeaning(n: nat, d: byte, k: nat)
    ensures BigEndian(256 * n + d, k + 1) == BigEndian(n, k) + [d]
    ensures forall i :: 0 <= i < k ==> BigEndian(0, k)[i] == 0
    ensures BigEndian(d, 1) == [d]
  {
    assert (256 * n + d) / 256 == n && (256 * n + d) % 256 == d;
    BigEndianZero(k);
    assert BigEndian(d / 256, 0) == [];
  }

  lemma {:induction false} BigEndianZero(k: nat)
    ensures forall i :: 0 <= i < k ==> BigEndian(0, k)[i] == 0
  {
    if k > 0 {
      BigEndianZero(k - 1);
    }
  }

  /** Rounding up reaches the next multiple of 32. */
  lemma RoundUpMeaning(k: nat)
    ensures k <= RoundUp(k) < k + 32 && RoundUp(k) % 32 == 0
  {
  }
}
