/**
 Little-endian words and reads and writes of a byte sequence: the vocabulary in
 which host and controller meet in the DMA region.
 */
module Bytes {

  type U8 = n: int | 0 <= n < 0x100
  type U16 = n: int | 0 <= n < 0x1_0000
  type U32 = n: int | 0 <= n < 0x1_0000_0000
  type U64 = n: int | 0 <= n < 0x1_0000_0000_0000_0000

  function U16Bytes(n: U16): (bs: seq<U8>)
    ensures |bs| == 2
  {
    [n % 0x100, n / 0x100]
  }

  function U32Bytes(n: U32): (bs: seq<U8>)
    ensures |bs| == 4
  {
    U16Bytes(n % 0x1_0000) + U16Bytes(n / 0x1_0000)
  }

  function U64Bytes(n: U64): (bs: seq<U8>)
    ensures |bs| == 8
  {
    U32Bytes(n % 0x1_0000_0000) + U32Bytes(n / 0x1_0000_0000)
  }

  function U16Of(bs: seq<U8>): U16
    requires |bs| == 2
  {
    var lo: int, hi: int := bs[0], bs[1];
    lo + 0x100 * hi
  }

  function U32Of(bs: seq<U8>): U32
    requires |bs| == 4
  {
    U16Of(bs[..2]) + 0x1_0000 * U16Of(bs[2..])
  }

  function U64Of(bs: seq<U8>): U64
    requires |bs| == 8
  {
    U32Of(bs[..4]) + 0x1_0000_0000 * U32Of(bs[4..])
  }

  lemma U16RoundTrip(n: U16)
    ensures U16Of(U16Bytes(n)) == n
  {
  }

  lemma U32RoundTrip(n: U32)
    ensures U32Of(U32Bytes(n)) == n
  {
    var bs := U32Bytes(n);
    assert bs[..2] == U16Bytes(n % 0x1_0000) && bs[2..] == U16Bytes(n / 0x1_0000);
  }

  lemma U64RoundTrip(n: U64)
    ensures U64Of(U64Bytes(n)) == n
  {
    var bs := U64Bytes(n);
    assert bs[..4] == U32Bytes(n % 0x1_0000_0000) && bs[4..] == U32Bytes(n / 0x1_0000_0000);
    U32RoundTrip(n % 0x1_0000_0000);
    U32RoundTrip(n / 0x1_0000_0000);
  }

  /** The `n` bytes of `mem` at `offset`. */
  function ReadAt(mem: seq<U8>, offset: nat, n: nat): (bs: seq<U8>)
    requires offset + n <= |mem|
    ensures |bs| == n
  {
    mem[offset..offset + n]
  }

  /** `mem` with `bs` stored at `offset`. */
  function WriteAt(mem: seq<U8>, offset: nat, bs: seq<U8>): (r: seq<U8>)
    requires offset + |bs| <= |mem|
    ensures |r| == |mem|
    ensures forall i :: 0 <= i < |mem| ==>
      r[i] == if offset <= i < offset + |bs| then bs[i - offset] else mem[i]
  {
    mem[..offset] + bs + mem[offset + |bs|..]
  }

  /** The two memories hold the same bytes in `[lo, hi)`. */
  predicate SameIn(a: seq<U8>, b: seq<U8>, lo: nat, hi: nat) {
    |a| == |b| && forall i :: lo <= i < hi && i < |a| ==> a[i] == b[i]
  }

  lemma ReadBack(mem: seq<U8>, offset: nat, bs: seq<U8>)
    requires offset + |bs| <= |mem|
    ensures ReadAt(WriteAt(mem, offset, bs), offset, |bs|) == bs
  {
  }

  lemma ReadSame(a: seq<U8>, b: seq<U8>, offset: nat, n: nat)
    requires SameIn(a, b, offset, offset + n) && offset + n <= |a|
    ensures ReadAt(a, offset, n) == ReadAt(b, offset, n)
  {
  }
}
