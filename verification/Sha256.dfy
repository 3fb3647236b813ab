/** SHA-256 (FIPS 180-4): the streaming context against the standard's definition. */
module Sha256 {
  import opened Bytes
  import opened Streaming

  const K: seq<Word> :=
    [0x428a2f98, 0x71374491, 0xb5c0fbcf, 0xe9b5dba5, 0x3956c25b, 0x59f111f1, 0x923f82a4, 0xab1c5ed5] +
    [0xd807aa98, 0x12835b01, 0x243185be, 0x550c7dc3, 0x72be5d74, 0x80deb1fe, 0x9bdc06a7, 0xc19bf174] +
    [0xe49b69c1, 0xefbe4786, 0x0fc19dc6, 0x240ca1cc, 0x2de92c6f, 0x4a7484aa, 0x5cb0a9dc, 0x76f988da] +
    [0x983e5152, 0xa831c66d, 0xb00327c8, 0xbf597fc7, 0xc6e00bf3, 0xd5a79147, 0x06ca6351, 0x14292967] +
    [0x27b70a85, 0x2e1b2138, 0x4d2c6dfc, 0x53380d13, 0x650a7354, 0x766a0abb, 0x81c2c92e, 0x92722c85] +
    [0xa2bfe8a1, 0xa81a664b, 0xc24b8b70, 0xc76c51a3, 0xd192e819, 0xd6990624, 0xf40e3585, 0x106aa070] +
    [0x19a4c116, 0x1e376c08, 0x2748774c, 0x34b0bcb5, 0x391c0cb3, 0x4ed8aa4a, 0x5b9cca4f, 0x682e6ff3] +
    [0x748f82ee, 0x78a5636f, 0x84c87814, 0x8cc70208, 0x90befffa, 0xa4506ceb, 0xbef9a3f7, 0xc67178f2]

  datatype Words = Words(a: Word, b: Word, c: Word, d: Word, e: Word, f: Word, g: Word, h: Word)

  const START := Words(0x6a09e667, 0xbb67ae85, 0x3c6ef372, 0xa54ff53a, 0x510e527f, 0x9b05688c, 0x1f83d9ab, 0x5be0cd19)

  // -------------------------------------------------------------------------
  // Section 4.1.2

  function Rotr(x: Word, n: bv6): Word
    requires 0 < n < 32
  {
    (x >> n) | (x << (32 - n))
  }

  /** Two shifts are a rotation, for every distance the standard uses. */
  lemma RotrRotates(x: Word)
    ensures Rotr(x, 2) == x.RotateRight(2) && Rotr(x, 6) == x.RotateRight(6) && Rotr(x, 7) == x.RotateRight(7)
    ensures Rotr(x, 11) == x.RotateRight(11) && Rotr(x, 13) == x.RotateRight(13) && Rotr(x, 17) == x.RotateRight(17)
    ensures Rotr(x, 18) == x.RotateRight(18) && Rotr(x, 19) == x.RotateRight(19) && Rotr(x, 22) == x.RotateRight(22)
    ensures Rotr(x, 25) == x.RotateRight(25)
  {
  }

  function Ch(x: Word, y: Word, z: Word): Word { (x & y) ^ (!x & z) }
  function Maj(x: Word, y: Word, z: Word): Word { (x & y) ^ (x & z) ^ (y & z) }
  function BigSigma0(x: Word): Word { Rotr(x, 2) ^ Rotr(x, 13) ^ Rotr(x, 22) }
  function BigSigma1(x: Word): Word { Rotr(x, 6) ^ Rotr(x, 11) ^ Rotr(x, 25) }
  function SmallSigma0(x: Word): Word { Rotr(x, 7) ^ Rotr(x, 18) ^ (x >> 3) }
  function SmallSigma1(x: Word): Word { Rotr(x, 17) ^ Rotr(x, 19) ^ (x >> 10) }

  // -------------------------------------------------------------------------
  // Section 6.2.2: one block

  function NextWord(w2: Word, w7: Word, w15: Word, w16: Word): Word { SmallSigma1(w2) + w7 + SmallSigma0(w15) + w16 }

  function Schedule(block: seq<Byte>, t: nat): Word
    requires |block| == 64 && t < 64
  {
    if t < 16 then LoadBig(block[4 * t], block[4 * t + 1], block[4 * t + 2], block[4 * t + 3])
    else NextWord(Schedule(block, t - 2), Schedule(block, t - 7), Schedule(block, t - 15), Schedule(block, t - 16))
  }

  function T1(v: Words, k: Word, w: Word): Word { v.h + BigSigma1(v.e) + Ch(v.e, v.f, v.g) + k + w }
  function T2(v: Words): Word { BigSigma0(v.a) + Maj(v.a, v.b, v.c) }
  function Plus(x: Word, y: Word): Word { x + y }

  function Round(v: Words, k: Word, w: Word): Words {
    Words(Plus(T1(v, k, w), T2(v)), v.a, v.b, v.c, Plus(v.d, T1(v, k, w)), v.e, v.f, v.g)
  }

  function Rounds(s: Words, block: seq<Byte>, t: nat): Words
    requires |block| == 64 && t <= 64
  {
    if t == 0 then s else Round(Rounds(s, block, t - 1), K[t - 1], Schedule(block, t - 1))
  }

  function Compress(s: Words, block: Chunk): Words
  {
    var v := Rounds(s, block, 64);
    Words(Plus(s.a, v.a), Plus(s.b, v.b), Plus(s.c, v.c), Plus(s.d, v.d), Plus(s.e, v.e), Plus(s.f, v.f), Plus(s.g, v.g), Plus(s.h, v.h))
  }

  // -------------------------------------------------------------------------
  // The block function as a program

  /** The code adds the four terms in another order. */
  function CodeWord(w16: Word, w15: Word, w7: Word, w2: Word): Word { w16 + SmallSigma0(w15) + w7 + SmallSigma1(w2) }

  lemma OrderOfTermsIsFree(w16: Word, w15: Word, w7: Word, w2: Word)
    ensures CodeWord(w16, w15, w7, w2) == NextWord(w2, w7, w15, w16)
  {
    hide SmallSigma0, SmallSigma1;
  }

  method Expand(p: seq<Byte>) returns (w: array<Word>)
    requires |p| == 64
    ensures fresh(w) && w.Length == 64 && forall t :: 0 <= t < 64 ==> w[t] == Schedule(p, t)
  {
    hide LoadBig, CodeWord, NextWord;
    w := new Word[64];
    for i := 0 to 16
      invariant forall t :: 0 <= t < i ==> w[t] == Schedule(p, t)
    {
      w[i] := LoadBig(p[i * 4], p[i * 4 + 1], p[i * 4 + 2], p[i * 4 + 3]);
    }
    for i := 16 to 64
      invariant forall t :: 0 <= t < i ==> w[t] == Schedule(p, t)
    {
      OrderOfTermsIsFree(w[i - 16], w[i - 15], w[i - 7], w[i - 2]);
      w[i] := CodeWord(w[i - 16], w[i - 15], w[i - 7], w[i - 2]);
    }
  }

  method Block(state: Words, p: seq<Byte>) returns (r: Words)
    requires |p| == 64
    ensures r == Compress(state, p)
  {
    hide T1, T2, Plus, Schedule;
    var w := Expand(p);
    var a, b, c, d := state.a, state.b, state.c, state.d;
    var e, f, g, h := state.e, state.f, state.g, state.h;
    for i := 0 to 64
      invariant Words(a, b, c, d, e, f, g, h) == Rounds(state, p, i)
    {
      var v := Words(a, b, c, d, e, f, g, h);
      var t1 := T1(v, K[i], w[i]);
      var t2 := T2(v);
      h := g; g := f; f := e; e := Plus(d, t1);
      d := c; c := b; b := a; a := Plus(t1, t2);
    }
    r := Words(Plus(state.a, a), Plus(state.b, b), Plus(state.c, c), Plus(state.d, d),
               Plus(state.e, e), Plus(state.f, f), Plus(state.g, g), Plus(state.h, h));
  }

  // -------------------------------------------------------------------------
  // Sections 5.1.1 and 6.2: padding, and the fold over the blocks

  function Pad(m: seq<Byte>): seq<Byte> { Padded(m, LengthBig(8 * |m| % WRAP)) }

  lemma PadIsWholeBlocks(m: seq<Byte>)
    ensures |Pad(m)| % 64 == 0 && m <= Pad(m)
  {
    ZeroCountIsLeast(|m|, ZeroCount(|m|));
  }

  function Spell(ws: seq<Word>): seq<Byte> {
    if ws == [] then [] else Spell(ws[..|ws| - 1]) + StoreBig(ws[|ws| - 1])
  }

  function Listed(s: Words): seq<Word> { [s.a, s.b, s.c, s.d, s.e, s.f, s.g, s.h] }

  /** The digest of a message. */
  function Hash(m: seq<Byte>): seq<Byte> {
    PadIsWholeBlocks(m);
    Spell(Listed(Fold(Compress, START, Pad(m))))
  }

  lemma HashLength(m: seq<Byte>)
    ensures |Hash(m)| == 32
  {
    PadIsWholeBlocks(m);
    var ws := Listed(Fold(Compress, START, Pad(m)));
    SpellLength(ws);
  }

  lemma {:induction false} SpellLength(ws: seq<Word>)
    ensures |Spell(ws)| == 4 * |ws|
  {
    if ws != [] { SpellLength(ws[..|ws| - 1]); }
  }

  // -------------------------------------------------------------------------
  // The streaming context

  class Context {
    var state: Words
    var bitlen: nat
    var buffer: array<Byte>
    var buflen: nat
    ghost var message: seq<Byte>

    ghost predicate Holds()
      reads this, buffer
    {
      && buffer.Length == 64 && buflen < 64
      && Took(Compress, START, state, buffer[..buflen], message)
    }

    ghost predicate Valid()
      reads this, buffer
    {
      Holds() && bitlen == 8 * |message| % WRAP
    }

    constructor ()
      ensures Valid() && message == [] && fresh(buffer)
    {
      state, bitlen, buflen, message := START, 0, 0, [];
      buffer := new Byte[64];
    }

    /** One turn of the update loop: fill the buffer as far as the data goes, and use it up when full. */
    method Take(data: seq<Byte>) returns (take: nat)
      requires Holds() && data != []
      modifies this`state, this`buflen, this`message, buffer
      ensures Holds() && 0 < take <= |data| && message == old(message) + data[..take]
    {
      hide Took, Compress;
      TookPends(Compress, START, state, buffer[..buflen], message);
      take := 64 - buflen;
      if take > |data| { take := |data|; }
      ghost var pending := buffer[..buflen];
      forall i | 0 <= i < take { buffer[buflen + i] := data[i]; }
      buflen := buflen + take;
      assert buffer[..buflen] == pending + data[..take];
      ghost var m := message;
      message := message + data[..take];
      if buflen == 64 {
        TookBlock(Compress, START, state, pending, m, data[..take]);
        assert buffer[..] == buffer[..buflen];
        state := Block(state, buffer[..]);
        buflen := 0;
        assert buffer[..0] == [];
      } else {
        TookMore(Compress, START, state, pending, m, data[..take]);
      }
    }

    method Update(data: seq<Byte>)
      requires Valid()
      modifies this`state, this`bitlen, this`buflen, this`message, buffer
      ensures Valid() && message == old(message) + data
    {
      hide Took;
      bitlen := (bitlen + 8 * |data|) % WRAP;
      var rest := data;
      while rest != []
        invariant Holds() && bitlen == (old(bitlen) + 8 * |data|) % WRAP
        invariant message + rest == old(message) + data
        decreases |rest|
      {
        ghost var m := message;
        var take := Take(rest);
        Reassociate(m, rest, take);
        rest := rest[take..];
      }
      assert message == message + rest;
    }

    method PadOne(ghost m: seq<Byte>, ghost z: nat)
      requires Valid() && message == Stuffed(m, z)
      modifies this`state, this`bitlen, this`buflen, this`message, buffer
      ensures Valid() && message == Stuffed(m, z + 1)
    {
      hide Took, Stuffed;
      StuffedNext(m, z);
      Update([0]);
    }

    /** Zero bytes until eight are left in the block: the distance to 56, going round, shrinks. */
    method PadZeros(ghost m: seq<Byte>)
      requires Valid() && message == Stuffed(m, 0)
      modifies this`state, this`bitlen, this`buflen, this`message, buffer
      ensures Valid() && message == Stuffed(m, ZeroCount(|m|))
    {
      hide Took, Stuffed, ZeroCount, Compress;
      ghost var z: nat := 0;
      BuflenIs();
      StuffedLength(m, 0);
      while buflen != 56
        invariant Valid() && buflen == (|m| + 1 + z) % 64
        invariant z <= ZeroCount(|m|) && message == Stuffed(m, z)
        decreases (120 - buflen) % 64
      {
        NotYetPadded(|m|, z);
        PadOne(m, z);
        BuflenIs();
        StuffedLength(m, z + 1);
        z := z + 1;
      }
      ZeroCountIsLeast(|m|, z);
    }

    lemma BuflenIs()
      requires Valid()
      ensures buflen == |message| % 64
    {
    }

    method Final() returns (out: seq<Byte>)
      requires Valid()
      modifies this`state, this`bitlen, this`buflen, this`message, buffer
      ensures out == Hash(old(message))
    {
      hide Took, LengthBig, Fold, Spell, StoreBig;
      ghost var m := message;
      var bits := bitlen;
      Update([0x80]);
      StuffedStarts(m);
      PadZeros(m);
      var lenbuf := LengthBytes(bits);
      Update(lenbuf);
      PadIsWholeBlocks(m);
      WholeIsFolded(Compress, START, state, buffer[..buflen], message);
      out := Store(state);
    }
  }

  method LengthBytes(bits: nat) returns (lenbuf: seq<Byte>)
    ensures lenbuf == LengthBig(bits)
  {
    hide ByteOf;
    lenbuf := [];
    for i := 0 to 8
      invariant |lenbuf| == i && forall k :: 0 <= k < i ==> lenbuf[k] == ByteOf(bits, 7 - k)
    {
      lenbuf := lenbuf + [ByteOf(bits, 7 - i)];
    }
  }

  method Store(state: Words) returns (out: seq<Byte>)
    ensures out == Spell(Listed(state))
  {
    hide StoreBig;
    var ws := Listed(state);
    out := [];
    for i := 0 to 8
      invariant out == Spell(ws[..i])
    {
      assert ws[..i + 1][..i] == ws[..i];
      out := out + StoreBig(ws[i]);
    }
    assert ws[..8] == ws;
  }

  /** edb_sha256 */
  method Digest(data: seq<Byte>) returns (out: seq<Byte>)
    ensures out == Hash(data) && |out| == 32
  {
    hide Hash, Took;
    var ctx := new Context();
    ctx.Update(data);
    assert [] + data == data;
    out := ctx.Final();
    HashLength(data);
  }

  /** However its message was split into updates, a context is the same. */
  lemma SplitsDoNotShow(x: Context, y: Context)
    requires x.Valid() && y.Valid() && x.message == y.message
    ensures x.state == y.state && x.bitlen == y.bitlen && x.buflen == y.buflen && x.buffer[..x.buflen] == y.buffer[..y.buflen]
  {
    x.BuflenIs();
    y.BuflenIs();
  }
}
