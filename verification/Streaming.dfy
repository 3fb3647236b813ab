/** What the streaming contexts of the hash functions share: a compression function folded over blocks of 64 bytes. */
module Streaming {
  import opened Bytes

  type Chunk = b: seq<Byte> | |b| == 64 witness Zeros(64)

  /** The compression function over the blocks of the data, first to last. */
  function Fold<S>(compress: (S, Chunk) -> S, start: S, data: seq<Byte>): S
    requires |data| % 64 == 0
  {
    if data == [] then start else compress(Fold(compress, start, data[..|data| - 64]), data[|data| - 64..])
  }

  lemma OneBlock<S>(compress: (S, Chunk) -> S, start: S, block: seq<Byte>)
    requires |block| == 64
    ensures Fold(compress, start, block) == compress(start, block)
  {
    assert block[..0] == [] && block[0..] == block;
    assert Fold(compress, start, block[..0]) == start;
  }

  /** The same fold seen from the other end: the first block goes in first. */
  lemma {:induction false} FirstBlockFirst<S>(compress: (S, Chunk) -> S, start: S, block: seq<Byte>, rest: seq<Byte>)
    requires |block| == 64 && |rest| % 64 == 0
    ensures Fold(compress, start, block + rest) == Fold(compress, compress(start, block), rest)
    decreases |rest|
  {
    var all := block + rest;
    if rest == [] {
      assert all == block;
      OneBlock(compress, start, block);
    } else {
      var n := |rest| - 64;
      FirstBlockFirst(compress, start, block, rest[..n]);
      assert all[..|all| - 64] == block + rest[..n] && all[|all| - 64..] == rest[n..];
    }
  }

  /** The chaining value and the pending bytes of a context that has taken in m. */
  ghost predicate Took<S>(compress: (S, Chunk) -> S, start: S, state: S, pending: seq<Byte>, m: seq<Byte>) {
    && |pending| < 64 && |pending| == |m| % 64
    && pending == m[Whole(|m|)..]
    && state == Fold(compress, start, m[..Whole(|m|)])
  }

  lemma TookPends<S>(compress: (S, Chunk) -> S, start: S, state: S, pending: seq<Byte>, m: seq<Byte>)
    requires Took(compress, start, state, pending, m)
    ensures |pending| < 64 && |pending| == |m| % 64
  {
  }

  lemma TookMore<S>(compress: (S, Chunk) -> S, start: S, state: S, pending: seq<Byte>, m: seq<Byte>, piece: seq<Byte>)
    requires Took(compress, start, state, pending, m) && |pending| + |piece| < 64
    ensures Took(compress, start, state, pending + piece, m + piece)
  {
    hide Fold;
    assert Whole(|m + piece|) == Whole(|m|);
    assert (m + piece)[Whole(|m|)..] == m[Whole(|m|)..] + piece;
    assert (m + piece)[..Whole(|m|)] == m[..Whole(|m|)];
  }

  lemma TookBlock<S>(compress: (S, Chunk) -> S, start: S, state: S, pending: seq<Byte>, m: seq<Byte>, piece: seq<Byte>)
    requires Took(compress, start, state, pending, m) && |pending| + |piece| == 64
    ensures Took(compress, start, compress(state, pending + piece), [], m + piece)
  {
    var n, w := m + piece, Whole(|m|);
    assert |n| == w + 64 == Whole(|n|);
    assert n[..|n|] == n && n[..|n| - 64] == m[..w] && n[|n| - 64..] == pending + piece;
    assert Fold(compress, start, n) == compress(Fold(compress, start, n[..|n| - 64]), n[|n| - 64..]);
    assert n[|n|..] == [];
  }

  lemma WholeIsFolded<S>(compress: (S, Chunk) -> S, start: S, state: S, pending: seq<Byte>, m: seq<Byte>)
    requires Took(compress, start, state, pending, m) && |m| % 64 == 0
    ensures state == Fold(compress, start, m)
  {
    assert m[..|m|] == m;
  }
}
