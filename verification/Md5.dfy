/** MD5 (RFC 1321): the streaming context against the standard's definition. */
module Md5 {
  import opened Bytes
  import opened Streaming

  const K: seq<Word> :=
    [0xd76aa478, 0xe8c7b756, 0x242070db, 0xc1bdceee, 0xf57c0faf, 0x4787c62a, 0xa8304613, 0xfd469501] +
    [0x698098d8, 0x8b44f7af, 0xffff5bb1, 0x895cd7be, 0x6b901122, 0xfd987193, 0xa679438e, 0x49b40821] +
    [0xf61e2562, 0xc040b340, 0x265e5a51, 0xe9b6c7aa, 0xd62f105d, 0x02441453, 0xd8a1e681, 0xe7d3fbc8] +
    [0x21e1cde6, 0xc33707d6, 0xf4d50d87, 0x455a14ed, 0xa9e3e905, 0xfcefa3f8, 0x676f02d9, 0x8d2a4c8a] +
    [0xfffa3942, 0x8771f681, 0x6d9d6122, 0xfde5380c, 0xa4beea44, 0x4bdecfa9, 0xf6bb4b60, 0xbebfbc70] +
    [0x289b7ec6, 0xeaa127fa, 0xd4ef3085, 0x04881d05, 0xd9d4d039, 0xe6db99e5, 0x1fa27cf8, 0xc4ac5665] +
    [0xf4292244, 0x432aff97, 0xab9423a7, 0xfc93a039, 0x655b59c3, 0x8f0ccc92, 0xffeff47d, 0x85845dd1] +
    [0x6fa87e4f, 0xfe2ce6e0, 0xa3014314, 0x4e0811a1, 0xf7537e82, 0xbd3af235, 0x2ad7d2bb, 0xeb86d391]

  type Distance = n: bv6 | 0 < n < 32 witness 1

  const S: seq<Distance> :=
    [7, 12, 17, 22, 7, 12, 17, 22, 7, 12, 17, 22, 7, 12, 17, 22] +
    [5, 9, 14, 20, 5, 9, 14, 20, 5, 9, 14, 20, 5, 9, 14, 20] +
    [4, 11, 16, 23, 4, 11, 16, 23, 4, 11, 16, 23, 4, 11, 16, 23] +
    [6, 10, 15, 21, 6, 10, 15, 21, 6, 10, 15, 21, 6, 10, 15, 21]

  datatype Words = Words(a: Word, b: Word, c: Word, d: Word)

  const START := Words(0x67452301, 0xefcdab89, 0x98badcfe, 0x10325476)

  // -------------------------------------------------------------------------
  // Section 3.4: one block

  function F(x: Word, y: Word, z: Word): Word { (x & y) | (!x & z) }
  function G(x: Word, y: Word, z: Word): Word { (x & z) | (y & !z) }
  function H(x: Word, y: Word, z: Word): Word { x ^ y ^ z }
  function I(x: Word, y: Word, z: Word): Word { y ^ (x | !z) }

  /** The code writes G with its operands in another order. */
  lemma SecondRoundFunction(b: Word, c: Word, d: Word)
    ensures F(d, b, c) == G(b, c, d)
  {
  }

  function Mix(t: nat, v: Words): Word {
    if t < 16 then F(v.b, v.c, v.d) else if t < 32 then G(v.b, v.c, v.d) else if t < 48 then H(v.b, v.c, v.d) else I(v.b, v.c, v.d)
  }

  /** Which word of the block step t takes. */
  function Index(t: nat): (k: nat)
    ensures k < 16
  {
    if t < 16 then t else if t < 32 then (5 * t + 1) % 16 else if t < 48 then (3 * t + 5) % 16 else (7 * t) % 16
  }

  function Rotl(x: Word, n: Distance): Word
  {
    (x << n) | (x >> (32 - n))
  }

  function Turned(b: Word, a: Word, f: Word, k: Word, x: Word, n: Distance): Word
  {
    b + Rotl(a + f + k + x, n)
  }

  function WordAt(block: seq<Byte>, i: nat): Word
    requires |block| == 64 && i < 16
  {
    LoadLittle(block[4 * i], block[4 * i + 1], block[4 * i + 2], block[4 * i + 3])
  }

  function Step(v: Words, t: nat, x: Word): Words
    requires t < 64
  {
    Words(v.d, Turned(v.b, v.a, Mix(t, v), K[t], x, S[t]), v.b, v.c)
  }

  function Steps(s: Words, block: seq<Byte>, t: nat): Words
    requires |block| == 64 && t <= 64
  {
    if t == 0 then s else Step(Steps(s, block, t - 1), t - 1, WordAt(block, Index(t - 1)))
  }

  function Plus(x: Word, y: Word): Word { x + y }

  function Compress(s: Words, block: Chunk): Words
  {
    var v := Steps(s, block, 64);
    Words(Plus(s.a, v.a), Plus(s.b, v.b), Plus(s.c, v.c), Plus(s.d, v.d))
  }

  // -------------------------------------------------------------------------
  // The block function as a program

  lemma TablesAreFull()
    ensures |K| == 64 && |S| == 64
  {
  }

  method Block(state: Words, p: seq<Byte>) returns (r: Words)
    requires |p| == 64
    ensures r == Compress(state, p)
  {
    hide F, G, H, I, Turned, Plus, WordAt, K, S;
    TablesAreFull();
    var m := new Word[16];
    for i := 0 to 16
      invariant forall j :: 0 <= j < i ==> m[j] == WordAt(p, j)
    {
      m[i] := WordAt(p, i);
    }
    var a, b, c, d := state.a, state.b, state.c, state.d;
    for i := 0 to 64
      invariant Words(a, b, c, d) == Steps(state, p, i)
      invariant forall j :: 0 <= j < 16 ==> m[j] == WordAt(p, j)
    {
      var f, g;
      if i < 16 {
        f, g := F(b, c, d), i;
      } else if i < 32 {
        SecondRoundFunction(b, c, d);
        f, g := F(d, b, c), (5 * i + 1) % 16;
      } else if i < 48 {
        f, g := H(b, c, d), (3 * i + 5) % 16;
      } else {
        f, g := I(b, c, d), (7 * i) % 16;
      }
      assert f == Mix(i, Words(a, b, c, d));
      var tmp := d;
      d := c;
      c := b;
      b := Turned(b, a, f, K[i], m[g], S[i]);
      a := tmp;
    }
    r := Words(Plus(state.a, a), Plus(state.b, b), Plus(state.c, c), Plus(state.d, d));
  }

  // -------------------------------------------------------------------------
  // Sections 3.1, 3.2 and 3.5: padding, and the fold over the blocks

  function Pad(m: seq<Byte>): seq<Byte> { Padded(m, LengthLittle(8 * |m| % WRAP)) }

  lemma PadIsWholeBlocks(m: seq<Byte>)
    ensures |Pad(m)| % 64 == 0 && m <= Pad(m)
  {
    ZeroCountIsLeast(|m|, ZeroCount(|m|));
  }

  function Spell(ws: seq<Word>): seq<Byte> {
    if ws == [] then [] else Spell(ws[..|ws| - 1]) + StoreLittle(ws[|ws| - 1])
  }

  function Listed(s: Words): seq<Word> { [s.a, s.b, s.c, s.d] }

  /** The digest of a message. */
  function Hash(m: seq<Byte>): seq<Byte> {
    PadIsWholeBlocks(m);
    Spell(Listed(Fold(Compress, START, Pad(m))))
  }

  lemma HashLength(m: seq<Byte>)
    ensures |Hash(m)| == 16
  {
    PadIsWholeBlocks(m);
    var ws := Listed(Fold(Compress, START, Pad(m)));
    SpellLength(ws);
  }

  lemma {:induction false} SpellLength(ws: seq<Word>)
    ensures |Spell(ws)| == 4 * |ws|
  {
    if ws != [] { SpellLength(ws[..|ws| - 1]); }
  }

  // -------------------------------------------------------------------------
  // The streaming context

  class Context {
    var state: Words
    var bitlen: nat
    var buffer: array<Byte>
    var buflen: nat
    ghost var message: seq<Byte>

    ghost predicate Holds()
      reads this, buffer
    {
      && buffer.Length == 64 && buflen < 64
      && Took(Compress, START, state, buffer[..buflen], message)
    }

    ghost predicate Valid()
      reads this, buffer
    {
      Holds() && bitlen == 8 * |message| % WRAP
    }

    constructor ()
      ensures Valid() && message == [] && fresh(buffer)
    {
      state, bitlen, buflen, message := START, 0, 0, [];
      buffer := new Byte[64];
    }

    /** One turn of the update loop: fill the buffer as far as the data goes, and use it up when full. */
    method Take(data: seq<Byte>) returns (take: nat)
      requires Holds() && data != []
      modifies this`state, this`buflen, this`message, buffer
      ensures Holds() && 0 < take <= |data| && message == old(message) + data[..take]
    {
      hide Took, Compress;
      TookPends(Compress, START, state, buffer[..buflen], message);
      take := 64 - buflen;
      if take > |data| { take := |data|; }
      ghost var pending := buffer[..buflen];
      forall i | 0 <= i < take { buffer[buflen + i] := data[i]; }
      buflen := buflen + take;
      assert buffer[..buflen] == pending + data[..take];
      ghost var m := message;
      message := message + data[..take];
      if buflen == 64 {
        TookBlock(Compress, START, state, pending, m, data[..take]);
        assert buffer[..] == buffer[..buflen];
        state := Block(state, buffer[..]);
        buflen := 0;
        assert buffer[..0] == [];
      } else {
        TookMore(Compress, START, state, pending, m, data[..take]);
      }
    }

    method Update(data: seq<Byte>)
      requires Valid()
      modifies this`state, this`bitlen, this`buflen, this`message, buffer
      ensures Valid() && message == old(message) + data
    {
      hide Took;
      bitlen := (bitlen + 8 * |data|) % WRAP;
      var rest := data;
      while rest != []
        invariant Holds() && bitlen == (old(bitlen) + 8 * |data|) % WRAP
        invariant message + rest == old(message) + data
        decreases |rest|
      {
        ghost var m := message;
        var take := Take(rest);
        Reassociate(m, rest, take);
        rest := rest[take..];
      }
      assert message == message + rest;
    }

    method PadOne(ghost m: seq<Byte>, ghost z: nat)
      requires Valid() && message == Stuffed(m, z)
      modifies this`state, this`bitlen, this`buflen, this`message, buffer
      ensures Valid() && message == Stuffed(m, z + 1)
    {
      hide Took, Stuffed;
      StuffedNext(m, z);
      Update([0]);
    }

    /** Zero bytes until eight are left in the block: the distance to 56, going round, shrinks. */
    method PadZeros(ghost m: seq<Byte>)
      requires Valid() && message == Stuffed(m, 0)
      modifies this`state, this`bitlen, this`buflen, this`message, buffer
      ensures Valid() && message == Stuffed(m, ZeroCount(|m|))
    {
      hide Took, Stuffed, ZeroCount, Compress;
      ghost var z: nat := 0;
      BuflenIs();
      StuffedLength(m, 0);
      while buflen != 56
        invariant Valid() && buflen == (|m| + 1 + z) % 64
        invariant z <= ZeroCount(|m|) && message == Stuffed(m, z)
        decreases (120 - buflen) % 64
      {
        NotYetPadded(|m|, z);
        PadOne(m, z);
        BuflenIs();
        StuffedLength(m, z + 1);
        z := z + 1;
      }
      ZeroCountIsLeast(|m|, z);
    }

    lemma BuflenIs()
      requires Valid()
      ensures buflen == |message| % 64
    {
    }

    method Final() returns (out: seq<Byte>)
      requires Valid()
      modifies this`state, this`bitlen, this`buflen, this`message, buffer
      ensures out == Hash(old(message))
    {
      hide Took, LengthLittle, Fold, Spell, StoreLittle;
      ghost var m := message;
      var bits := bitlen;
      Update([0x80]);
      StuffedStarts(m);
      PadZeros(m);
      var lenbuf := LengthBytes(bits);
      Update(lenbuf);
      PadIsWholeBlocks(m);
      WholeIsFolded(Compress, START, state, buffer[..buflen], message);
      out := Store(state);
    }
  }

  method LengthBytes(bits: nat) returns (lenbuf: seq<Byte>)
    ensures lenbuf == LengthLittle(bits)
  {
    hide ByteOf;
    lenbuf := [];
    for i := 0 to 8
      invariant |lenbuf| == i && forall k :: 0 <= k < i ==> lenbuf[k] == ByteOf(bits, k)
    {
      lenbuf := lenbuf + [ByteOf(bits, i)];
    }
  }

  method Store(state: Words) returns (out: seq<Byte>)
    ensures out == Spell(Listed(state))
  {
    hide StoreLittle;
    var ws := Listed(state);
    out := [];
    for i := 0 to 4
      invariant out == Spell(ws[..i])
    {
      assert ws[..i + 1][..i] == ws[..i];
      out := out + StoreLittle(ws[i]);
    }
    assert ws[..4] == ws;
  }

  /** md5_init, md5_update and md5_final, as edb_md5_hex calls them */
  method Digest(data: seq<Byte>) returns (out: seq<Byte>)
    ensures out == Hash(data) && |out| == 16
  {
    hide Hash, Took;
    var ctx := new Context();
    ctx.Update(data);
    assert [] + data == data;
    out := ctx.Final();
    HashLength(data);
  }

  /** However its message was split into updates, a context is the same. */
  lemma SplitsDoNotShow(x: Context, y: Context)
    requires x.Valid() && y.Valid() && x.message == y.message
    ensures x.state == y.state && x.bitlen == y.bitlen && x.buflen == y.buflen && x.buffer[..x.buflen] == y.buffer[..y.buflen]
  {
    x.BuflenIs();
    y.BuflenIs();
  }
}
