/** ChaCha20 (RFC 8439): the block function in place, and the chunk loop against an indexed keystream. */
module ChaCha20 {
  import opened Bytes

  // -------------------------------------------------------------------------
  // Sections 2.1 to 2.3: the quarter round, the rounds and the block

  type Distance = n: bv6 | 0 < n < 32 witness 1

  function Rotl(v: Word, n: Distance): Word { (v << n) | (v >> (32 - n)) }

  /** a += b; d ^= a; d <<<= n */
  function Plus(a: Word, b: Word): Word { a + b }
  function Turn(d: Word, a: Word, n: Distance): Word { Rotl(d ^ a, n) }

  datatype Four = Four(a: Word, b: Word, c: Word, d: Word)

  function Half(q: Four, first: Distance, second: Distance): Four {
    var a := Plus(q.a, q.b);
    var d := Turn(q.d, a, first);
    var c := Plus(q.c, d);
    Four(a, Turn(q.b, c, second), c, d)
  }

  function Quarter(q: Four): Four { Half(Half(q, 16, 12), 8, 7) }

  type Sixteen = s: seq<Word> | |s| == 16 witness [0, 0, 0, 0, 0, 0, 0, 0, 0, 0, 0, 0, 0, 0, 0, 0]

  predicate Places(i: nat, j: nat, k: nat, l: nat) { i < 4 <= j < 8 <= k < 12 <= l < 16 }

  function QuarterAt(x: Sixteen, i: nat, j: nat, k: nat, l: nat): Sixteen
    requires Places(i, j, k, l)
  {
    var q := Quarter(Four(x[i], x[j], x[k], x[l]));
    x[i := q.a][j := q.b][k := q.c][l := q.d]
  }

  /** Four columns, then four diagonals. */
  function DoubleRound(x: Sixteen): Sixteen {
    var x := QuarterAt(QuarterAt(QuarterAt(QuarterAt(x, 0, 4, 8, 12), 1, 5, 9, 13), 2, 6, 10, 14), 3, 7, 11, 15);
    QuarterAt(QuarterAt(QuarterAt(QuarterAt(x, 0, 5, 10, 15), 1, 6, 11, 12), 2, 7, 8, 13), 3, 4, 9, 14)
  }

  function DoubleRounds(x: Sixteen, n: nat): Sixteen {
    if n == 0 then x else DoubleRound(DoubleRounds(x, n - 1))
  }

  function Sum(x: Sixteen, y: Sixteen): Sixteen { seq(16, i requires 0 <= i < 16 => Plus(x[i], y[i])) }

  function Block(x: Sixteen): Sixteen { Sum(DoubleRounds(x, 10), x) }

  method QuarterRound(x: array<Word>, i: nat, j: nat, k: nat, l: nat)
    requires x.Length == 16 && Places(i, j, k, l)
    modifies x
    ensures x[..] == QuarterAt(old(x[..]), i, j, k, l)
  {
    hide Plus, Turn;
    x[i] := Plus(x[i], x[j]);
    x[l] := Turn(x[l], x[i], 16);
    x[k] := Plus(x[k], x[l]);
    x[j] := Turn(x[j], x[k], 12);
    x[i] := Plus(x[i], x[j]);
    x[l] := Turn(x[l], x[i], 8);
    x[k] := Plus(x[k], x[l]);
    x[j] := Turn(x[j], x[k], 7);
  }

  method TenDoubleRounds(x: array<Word>)
    requires x.Length == 16
    modifies x
    ensures x[..] == DoubleRounds(old(x[..]), 10)
  {
    hide QuarterAt;
    for n := 0 to 10
      invariant x[..] == DoubleRounds(old(x[..]), n)
    {
      QuarterRound(x, 0, 4, 8, 12);
      QuarterRound(x, 1, 5, 9, 13);
      QuarterRound(x, 2, 6, 10, 14);
      QuarterRound(x, 3, 7, 11, 15);
      QuarterRound(x, 0, 5, 10, 15);
      QuarterRound(x, 1, 6, 11, 12);
      QuarterRound(x, 2, 7, 8, 13);
      QuarterRound(x, 3, 4, 9, 14);
    }
  }

  method BlockFunction(state: Sixteen) returns (out: Sixteen)
    ensures out == Block(state)
  {
    hide DoubleRounds, Plus;
    var x := new Word[16](i requires 0 <= i < 16 => state[i]);
    assert x[..] == state;
    TenDoubleRounds(x);
    for i := 0 to 16
      invariant forall j :: 0 <= j < i ==> x[j] == Plus(DoubleRounds(state, 10)[j], state[j])
      invariant forall j :: i <= j < 16 ==> x[j] == DoubleRounds(state, 10)[j]
    {
      x[i] := Plus(x[i], state[i]);
    }
    out := x[..];
  }

  // -------------------------------------------------------------------------
  // Section 2.4: the keystream, block n under the n-th counter after the first

  function CounterAt(counter: Word, n: nat): Word { if n == 0 then counter else CounterAt(counter, n - 1) + 1 }

  function At(s: seq<Byte>, i: nat): Word
    requires i + 4 <= |s|
  {
    LoadLittle(s[i], s[i + 1], s[i + 2], s[i + 3])
  }

  function Initial(key: seq<Byte>, counter: Word, nonce: seq<Byte>): Sixteen
    requires |key| == 32 && |nonce| == 12
  {
    [0x61707865, 0x3320646e, 0x79622d32, 0x6b206574]
    + [At(key, 0), At(key, 4), At(key, 8), At(key, 12), At(key, 16), At(key, 20), At(key, 24), At(key, 28)]
    + [counter, At(nonce, 0), At(nonce, 4), At(nonce, 8)]
  }

  function Serialized(ws: seq<Word>): (s: seq<Byte>)
    ensures |s| == 4 * |ws|
  {
    if ws == [] then [] else Serialized(ws[..|ws| - 1]) + StoreLittle(ws[|ws| - 1])
  }

  function KeyBlock(key: seq<Byte>, counter: Word, nonce: seq<Byte>): (s: seq<Byte>)
    requires |key| == 32 && |nonce| == 12
    ensures |s| == 64
  {
    Serialized(Block(Initial(key, counter, nonce)))
  }

  /** Byte i of the keystream. */
  function KeyByte(key: seq<Byte>, counter: Word, nonce: seq<Byte>, i: nat): Byte
    requires |key| == 32 && |nonce| == 12
  {
    KeyBlock(key, CounterAt(counter, i / 64), nonce)[i % 64]
  }

  /** Each byte against the byte of the same place in the keystream. */
  function Crypt(data: seq<Byte>, key: seq<Byte>, counter: Word, nonce: seq<Byte>): (r: seq<Byte>)
    requires |key| == 32 && |nonce| == 12
    ensures |r| == |data|
  {
    seq(|data|, i requires 0 <= i < |data| => Xor(data[i], KeyByte(key, counter, nonce, i)))
  }

  lemma XorTwice(a: Byte, b: Byte)
    ensures Xor(Xor(a, b), b) == a
  {
  }

  /** Applying the same keystream twice gives the data back. */
  lemma CryptUndoesItself(data: seq<Byte>, key: seq<Byte>, counter: Word, nonce: seq<Byte>)
    requires |key| == 32 && |nonce| == 12
    ensures Crypt(Crypt(data, key, counter, nonce), key, counter, nonce) == data
  {
    hide Xor, KeyByte;
    var once := Crypt(data, key, counter, nonce);
    forall i | 0 <= i < |data| ensures Crypt(once, key, counter, nonce)[i] == data[i] {
      XorTwice(data[i], KeyByte(key, counter, nonce, i));
    }
  }

  lemma {:induction false} CountersAdd(counter: Word, m: nat, n: nat)
    ensures CounterAt(CounterAt(counter, m), n) == CounterAt(counter, m + n)
  {
    if n > 0 { CountersAdd(counter, m, n - 1); }
  }

  lemma BlockIndices(i: nat, n: nat)
    ensures (64 * n + i) / 64 == n + i / 64 && (64 * n + i) % 64 == i % 64
  {
  }

  lemma KeyBytesShift(key: seq<Byte>, counter: Word, nonce: seq<Byte>, n: nat, i: nat)
    requires |key| == 32 && |nonce| == 12
    ensures KeyByte(key, counter, nonce, 64 * n + i) == KeyByte(key, CounterAt(counter, n), nonce, i)
  {
    hide KeyBlock, CounterAt;
    BlockIndices(i, n);
    CountersAdd(counter, n, i / 64);
  }

  /** Data may be encrypted in parts cut at block boundaries, each part from its own counter. */
  lemma CryptSplits(a: seq<Byte>, b: seq<Byte>, key: seq<Byte>, counter: Word, nonce: seq<Byte>)
    requires |key| == 32 && |nonce| == 12 && |a| % 64 == 0
    ensures Crypt(a + b, key, counter, nonce)
         == Crypt(a, key, counter, nonce) + Crypt(b, key, CounterAt(counter, |a| / 64), nonce)
  {
    hide Xor, KeyByte, CounterAt, Crypt;
    var n := |a| / 64;
    var whole, front, back := Crypt(a + b, key, counter, nonce), Crypt(a, key, counter, nonce), Crypt(b, key, CounterAt(counter, n), nonce);
    forall i | 0 <= i < |a| ensures whole[i] == front[i] {
      CryptAt(a + b, key, counter, nonce, i);
      CryptAt(a, key, counter, nonce, i);
    }
    forall i | 0 <= i < |b| ensures whole[|a| + i] == back[i] {
      CryptAt(a + b, key, counter, nonce, 64 * n + i);
      CryptAt(b, key, CounterAt(counter, n), nonce, i);
      KeyBytesShift(key, counter, nonce, n, i);
    }
    assert whole == front + back;
  }

  lemma CryptAt(data: seq<Byte>, key: seq<Byte>, counter: Word, nonce: seq<Byte>, i: nat)
    requires |key| == 32 && |nonce| == 12 && i < |data|
    ensures Crypt(data, key, counter, nonce)[i] == Xor(data[i], KeyByte(key, counter, nonce, i))
  {
    hide Xor, KeyByte;
  }

  method KeyStream(key: seq<Byte>, counter: Word, nonce: seq<Byte>) returns (keystream: seq<Byte>)
    requires |key| == 32 && |nonce| == 12
    ensures keystream == KeyBlock(key, counter, nonce)
  {
    hide Block, StoreLittle, LoadLittle;
    var block := BlockFunction(Initial(key, counter, nonce));
    keystream := [];
    for i := 0 to 16
      invariant keystream == Serialized(block[..i])
    {
      assert block[..i + 1][..i] == block[..i];
      keystream := keystream + StoreLittle(block[i]);
    }
    assert block[..16] == block;
  }

  lemma OneChunk(data: seq<Byte>, key: seq<Byte>, counter: Word, nonce: seq<Byte>, i: nat)
    requires |key| == 32 && |nonce| == 12 && i < |data| <= 64
    ensures Crypt(data, key, counter, nonce)[i] == Xor(data[i], KeyBlock(key, counter, nonce)[i])
  {
    hide Xor, KeyBlock;
    assert i / 64 == 0 && CounterAt(counter, 0) == counter;
  }

  /** One chunk of at most 64 bytes, written at its place. */
  method XorChunk(out: array<Byte>, at: nat, data: seq<Byte>, key: seq<Byte>, counter: Word, nonce: seq<Byte>)
    requires |key| == 32 && |nonce| == 12 && at + |data| <= out.Length && |data| <= 64
    modifies out
    ensures out[at..at + |data|] == Crypt(data, key, counter, nonce)
    ensures out[..at] == old(out[..at]) && out[at + |data|..] == old(out[at + |data|..])
  {
    hide Xor, KeyBlock, Crypt;
    var keystream := KeyStream(key, counter, nonce);
    for i := 0 to |data|
      invariant forall j :: 0 <= j < i ==> out[at + j] == Crypt(data, key, counter, nonce)[j]
      invariant out[..at] == old(out[..at]) && out[at + i..] == old(out[at + i..])
    {
      OneChunk(data, key, counter, nonce, i);
      out[at + i] := Xor(data[i], keystream[i]);
    }
  }

  lemma NextChunk(data: seq<Byte>, key: seq<Byte>, counter: Word, nonce: seq<Byte>, chunks: nat, done: nat, n: nat)
    requires |key| == 32 && |nonce| == 12 && done == 64 * chunks && done + n <= |data|
    ensures Crypt(data[..done + n], key, counter, nonce)
         == Crypt(data[..done], key, counter, nonce) + Crypt(data[done..done + n], key, CounterAt(counter, chunks), nonce)
  {
    hide Crypt, CounterAt;
    assert data[..done + n] == data[..done] + data[done..done + n];
    CryptSplits(data[..done], data[done..done + n], key, counter, nonce);
  }

  /** One turn of the loop. */
  method XorStep(out: array<Byte>, at: nat, data: seq<Byte>, key: seq<Byte>, nonce: seq<Byte>, ghost start: Word,
                 ghost first: seq<Byte>, ghost chunks: nat, done: nat, counter: Word)
    returns (n: nat)
    requires |key| == 32 && |nonce| == 12 && done == 64 * chunks < |data| && at + |data| <= out.Length
    requires counter == CounterAt(start, chunks)
    requires Written(first, out[..], at, at + |data|, Crypt(data[..done], key, start, nonce))
    modifies out
    ensures n == (if |data| - done < 64 then |data| - done else 64)
    ensures Written(first, out[..], at, at + |data|, Crypt(data[..done + n], key, start, nonce))
  {
    hide Xor, KeyByte, KeyBlock, Written, CounterAt, Crypt;
    n := if |data| - done < 64 then |data| - done else 64;
    ghost var was := out[..];
    XorChunk(out, at + done, data[done..done + n], key, counter, nonce);
    NextChunk(data, key, start, nonce, chunks, done, n);
    WrittenMore(first, was, out[..], at, at + |data|, Crypt(data[..done], key, start, nonce), Crypt(data[done..done + n], key, counter, nonce));
  }

  lemma Starting(now: seq<Byte>, at: nat, data: seq<Byte>, key: seq<Byte>, nonce: seq<Byte>, start: Word)
    requires |key| == 32 && |nonce| == 12 && at + |data| <= |now|
    ensures Written(now, now, at, at + |data|, Crypt(data[..0], key, start, nonce))
    ensures CounterAt(start, 0) == start
  {
  }

  lemma NextCounter(start: Word, chunks: nat)
    ensures CounterAt(start, chunks + 1) == CounterAt(start, chunks) + 1
  {
  }

  /** edb_chacha20_xor: 64 bytes at a time, the counter going up by one for each chunk. */
  method XorInto(out: array<Byte>, at: nat, data: seq<Byte>, key: seq<Byte>, nonce: seq<Byte>, start: Word)
    requires |key| == 32 && |nonce| == 12 && at + |data| <= out.Length
    modifies out
    ensures Written(old(out[..]), out[..], at, at + |data|, Crypt(data, key, start, nonce))
  {
    hide Written, CounterAt, Crypt;
    var done, counter := 0, start;
    ghost var chunks: nat := 0;
    Starting(out[..], at, data, key, nonce, start);
    while done < |data|
      invariant 0 <= done <= |data| && counter == CounterAt(start, chunks)
      invariant done == 64 * chunks || done == |data|
      invariant Written(old(out[..]), out[..], at, at + |data|, Crypt(data[..done], key, start, nonce))
    {
      var n := XorStep(out, at, data, key, nonce, start, old(out[..]), chunks, done, counter);
      NextCounter(start, chunks);
      done := done + n;
      counter := counter + 1;
      chunks := chunks + 1;
    }
    assert data[..done] == data;
  }
}
