/** Bytes, 32-bit words, their two byte orders, and the padding that the hash functions share. */
module Bytes {
  type Byte = bv8
  type Word = bv32

  const WRAP := 0x1_0000_0000_0000_0000

  function Low(w: Word): Byte { (w & 0xff) as Byte }

  function Xor(a: Byte, b: Byte): Byte { a ^ b }

  // -------------------------------------------------------------------------
  // Words as four bytes

  function LoadBig(a: Byte, b: Byte, c: Byte, d: Byte): Word {
    ((a as Word) << 24) | ((b as Word) << 16) | ((c as Word) << 8) | (d as Word)
  }

  function LoadLittle(a: Byte, b: Byte, c: Byte, d: Byte): Word {
    (a as Word) | ((b as Word) << 8) | ((c as Word) << 16) | ((d as Word) << 24)
  }

  function StoreBig(w: Word): (s: seq<Byte>)
    ensures |s| == 4
  {
    [Low(w >> 24), Low(w >> 16), Low(w >> 8), Low(w)]
  }

  function StoreLittle(w: Word): (s: seq<Byte>)
    ensures |s| == 4
  {
    [Low(w), Low(w >> 8), Low(w >> 16), Low(w >> 24)]
  }

  lemma StoreUndoesLoad(a: Byte, b: Byte, c: Byte, d: Byte)
    ensures StoreLittle(LoadLittle(a, b, c, d)) == [a, b, c, d]
    ensures StoreBig(LoadBig(a, b, c, d)) == [a, b, c, d]
  {
  }

  // -------------------------------------------------------------------------
  // Padding to whole blocks of 64 bytes

  function Zeros(n: nat): (s: seq<Byte>)
    ensures |s| == n
  {
    if n == 0 then [] else Zeros(n - 1) + [0]
  }

  lemma {:induction false} ZerosAreZero(n: nat)
    ensures forall i :: 0 <= i < n ==> Zeros(n)[i] == 0
  {
    if n > 0 { ZerosAreZero(n - 1); }
  }

  /** How many zero bytes follow the 0x80 after a message of n bytes. */
  function ZeroCount(n: nat): nat { (119 - n % 64) % 64 }

  /** The least count that leaves room for just the eight length bytes in the last block. */
  lemma ZeroCountIsLeast(n: nat, k: nat)
    requires (n + 1 + k + 8) % 64 == 0
    ensures ZeroCount(n) <= k && (k - ZeroCount(n)) % 64 == 0
  {
  }

  lemma OneMore(x: nat)
    requires x % 64 != 56
    ensures (120 - (x + 1) % 64) % 64 < (120 - x % 64) % 64
  {
    var b := x % 64;
    assert (x + 1) % 64 == if b == 63 then 0 else b + 1;
  }

  lemma FullyPadded(n: nat)
    ensures (n + 1 + ZeroCount(n)) % 64 == 56
  {
  }

  /** A pad loop that has not come to 56 still owes a zero, and one more brings it nearer. */
  lemma NotYetPadded(n: nat, z: nat)
    requires z <= ZeroCount(n) && (n + 1 + z) % 64 != 56
    ensures z < ZeroCount(n)
    ensures (120 - (n + 1 + z + 1) % 64) % 64 < (120 - (n + 1 + z) % 64) % 64
  {
    hide ZeroCount;
    FullyPadded(n);
    OneMore(n + 1 + z);
  }

  function Padded(m: seq<Byte>, length: seq<Byte>): (p: seq<Byte>)
    requires |length| == 8
    ensures |p| == |m| + 9 + ZeroCount(|m|)
  {
    m + [0x80] + Zeros(ZeroCount(|m|)) + length
  }

  /** n >> (8 * k) */
  function Shift(n: nat, k: nat): nat { if k == 0 then n else Shift(n / 256, k - 1) }

  /** (uint8_t)(n >> (8 * k)) */
  function ByteOf(n: nat, k: nat): Byte { (Shift(n, k) % 256) as Byte }

  /** A length below 256 is in its last byte. */
  lemma {:induction false} NothingAbove(n: nat, k: nat)
    requires n < 256 && k > 0
    ensures Shift(n, k) == 0
  {
    assert Shift(n, k) == Shift(0, k - 1);
    if k > 1 { NothingAbove(0, k - 1); }
  }

  function LengthLittle(bits: nat): (s: seq<Byte>)
    ensures |s| == 8
  {
    seq(8, k requires 0 <= k < 8 => ByteOf(bits, k))
  }

  function LengthBig(bits: nat): (s: seq<Byte>)
    ensures |s| == 8
  {
    seq(8, k requires 0 <= k < 8 => ByteOf(bits, 7 - k))
  }

  // -------------------------------------------------------------------------
  // A message in blocks

  /** How much of n bytes fills whole blocks. */
  function Whole(n: nat): (w: nat)
    ensures w <= n && w % 64 == 0 && n - w == n % 64
  {
    n - n % 64
  }

  lemma Reassociate(m: seq<Byte>, data: seq<Byte>, take: nat)
    requires take <= |data|
    ensures m + data == m + data[..take] + data[take..]
  {
    assert data == data[..take] + data[take..];
  }

  /** A message, the 0x80, and z zeros. */
  function Stuffed(m: seq<Byte>, z: nat): seq<Byte> { m + [0x80] + Zeros(z) }

  lemma StuffedNext(m: seq<Byte>, z: nat)
    ensures Stuffed(m, z + 1) == Stuffed(m, z) + [0]
  {
  }

  lemma StuffedStarts(m: seq<Byte>)
    ensures Stuffed(m, 0) == m + [0x80]
  {
  }

  lemma StuffedLength(m: seq<Byte>, z: nat)
    ensures |Stuffed(m, z)| == |m| + 1 + z
  {
  }

  // -------------------------------------------------------------------------
  // Filling part of a buffer

  /** now has the result at `at`, and outside [at, end) it is as it was. */
  ghost predicate Written(was: seq<Byte>, now: seq<Byte>, at: nat, end: nat, result: seq<Byte>) {
    && at + |result| <= end <= |was| == |now|
    && now[at..at + |result|] == result && now[..at] == was[..at] && now[end..] == was[end..]
  }

  /** Writing a piece after a written part, with the rest untouched. */
  lemma Joined(was: seq<Byte>, now: seq<Byte>, at: nat, done: nat, n: nat, end: nat)
    requires |was| == |now| && at + done + n <= end <= |was|
    requires now[..at + done] == was[..at + done] && now[at + done + n..] == was[at + done + n..]
    ensures now[at..at + done + n] == was[at..at + done] + now[at + done..at + done + n]
    ensures now[..at] == was[..at] && now[end..] == was[end..]
  {
    assert now[..at + done][at..] == was[..at + done][at..] && now[..at + done][..at] == was[..at + done][..at];
    assert now[at + done + n..][end - (at + done + n)..] == was[at + done + n..][end - (at + done + n)..];
  }

  lemma WrittenMore(first: seq<Byte>, was: seq<Byte>, now: seq<Byte>, at: nat, end: nat, result: seq<Byte>, piece: seq<Byte>)
    requires Written(first, was, at, end, result) && |was| == |now|
    requires at + |result| + |piece| <= end
    requires var p := at + |result|;
             now[p..p + |piece|] == piece && now[..p] == was[..p] && now[p + |piece|..] == was[p + |piece|..]
    ensures Written(first, now, at, end, result + piece)
  {
    Joined(was, now, at, |result|, |piece|, end);
  }

  method CopyInto(out: array<Byte>, at: nat, data: seq<Byte>)
    requires at + |data| <= out.Length
    modifies out
    ensures Written(old(out[..]), out[..], at, at + |data|, data)
  {
    forall i | 0 <= i < |data| { out[at + i] := data[i]; }
    assert out[..][at..at + |data|] == data;
    assert out[..][..at] == old(out[..])[..at] && out[..][at + |data|..] == old(out[..])[at + |data|..];
  }
}
