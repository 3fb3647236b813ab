/** HMAC-SHA256 (RFC 2104), HKDF-SHA256 (RFC 5869) and the encrypt-then-MAC box built on them. */
module Crypto {
  import opened Bytes
  import opened Strings
  import ChaCha20
  import Sha256

  // -------------------------------------------------------------------------
  // HMAC

  function Masked(k: seq<Byte>, mask: Byte): (r: seq<Byte>)
    ensures |r| == |k|
  {
    seq(|k|, i requires 0 <= i < |k| => Xor(k[i], mask))
  }

  /** The key brought to one block: hashed when longer, then filled up with zeros. */
  function BlockKey(key: seq<Byte>): (k: seq<Byte>)
    ensures |k| == 64
  {
    Sha256.HashLength(key);
    var k := if |key| > 64 then Sha256.Hash(key) else key;
    k + Zeros(64 - |k|)
  }

  function Hmac(key: seq<Byte>, msg: seq<Byte>): seq<Byte> {
    Sha256.Hash(Masked(BlockKey(key), 0x5c) + Sha256.Hash(Masked(BlockKey(key), 0x36) + msg))
  }

  lemma HmacLength(key: seq<Byte>, msg: seq<Byte>)
    ensures |Hmac(key, msg)| == 32
  {
    Sha256.HashLength(Masked(BlockKey(key), 0x5c) + Sha256.Hash(Masked(BlockKey(key), 0x36) + msg));
  }

  /** A key and its block form authenticate alike. */
  lemma BlockFormIsAsGood(key: seq<Byte>, msg: seq<Byte>)
    ensures Hmac(BlockKey(key), msg) == Hmac(key, msg)
  {
    var k := BlockKey(key);
    assert BlockKey(k) == k + Zeros(0) == k;
  }

  /** Section 2 of RFC 2104, byte by byte: a key of at most a block is filled up with zeros and masked with 0x36 for the
      inner hash and 0x5c for the outer one. */
  lemma HmacIs(key: seq<Byte>, msg: seq<Byte>, ipad: seq<Byte>, opad: seq<Byte>)
    requires |key| <= 64 && |ipad| == 64 == |opad|
    requires forall i :: 0 <= i < 64 ==> ipad[i] == (if i < |key| then key[i] else 0) ^ 0x36
    requires forall i :: 0 <= i < 64 ==> opad[i] == (if i < |key| then key[i] else 0) ^ 0x5c
    ensures Hmac(key, msg) == Sha256.Hash(opad + Sha256.Hash(ipad + msg))
  {
    hide Sha256.Hash, Zeros;
    ZerosAreZero(64 - |key|);
    assert BlockKey(key) == key + Zeros(64 - |key|);
    assert Masked(BlockKey(key), 0x36) == ipad && Masked(BlockKey(key), 0x5c) == opad;
  }

  /** And a longer key is hashed first. */
  lemma HmacOfLongKey(key: seq<Byte>, msg: seq<Byte>)
    requires |key| > 64
    ensures Hmac(key, msg) == Hmac(Sha256.Hash(key), msg)
  {
    hide Sha256.Hash;
    Sha256.HashLength(key);
  }

  method HmacSha256(key: seq<Byte>, msg: seq<Byte>) returns (out: seq<Byte>)
    ensures out == Hmac(key, msg) && |out| == 32
  {
    hide Xor, Sha256.Hash;
    Sha256.HashLength(key);
    var k := key;
    if |key| > 64 { k := Sha256.Digest(key); }
    k := k + Zeros(64 - |k|);
    assert k == BlockKey(key);
    var ipad, opad: seq<Byte> := [], [];
    for i := 0 to 64
      invariant |ipad| == i == |opad|
      invariant forall j :: 0 <= j < i ==> ipad[j] == Xor(k[j], 0x36) && opad[j] == Xor(k[j], 0x5c)
    {
      ipad := ipad + [Xor(k[i], 0x36)];
      opad := opad + [Xor(k[i], 0x5c)];
    }
    assert ipad == Masked(k, 0x36) && opad == Masked(k, 0x5c);
    var inner := Sha256.Digest(ipad + msg);
    out := Sha256.Digest(opad + inner);
  }

  // -------------------------------------------------------------------------
  // HKDF

  const HASH_LENGTH := 32

  function CounterByte(n: nat): Byte { if n == 0 then 0 else CounterByte(n - 1) + 1 }

  /** T(n) of section 2.3. */
  function T(prk: seq<Byte>, info: seq<Byte>, n: nat): seq<Byte> {
    if n == 0 then [] else Hmac(prk, T(prk, info, n - 1) + info + [CounterByte(n)])
  }

  /** T(1) to T(n), one after the other. */
  function Ts(prk: seq<Byte>, info: seq<Byte>, n: nat): (s: seq<Byte>)
    ensures |s| == HASH_LENGTH * n
  {
    if n == 0 then []
    else
      HmacLength(prk, T(prk, info, n - 1) + info + [CounterByte(n)]);
      Ts(prk, info, n - 1) + T(prk, info, n)
  }

  function Extract(salt: seq<Byte>, ikm: seq<Byte>): seq<Byte> {
    Hmac(if salt == [] then Zeros(HASH_LENGTH) else salt, ikm)
  }

  /** The first `length` bytes of T(1), T(2) and so on, as many as the standard's N calls for. */
  function Okm(prk: seq<Byte>, info: seq<Byte>, length: nat): (s: seq<Byte>)
    ensures |s| == length
  {
    Ts(prk, info, (length + HASH_LENGTH - 1) / HASH_LENGTH)[..length]
  }

  lemma {:induction false} TsExtend(prk: seq<Byte>, info: seq<Byte>, m: nat, n: nat)
    requires m <= n
    ensures Ts(prk, info, m) <= Ts(prk, info, n)
    decreases n
  {
    hide Hmac, T;
    if m < n { TsExtend(prk, info, m, n - 1); }
  }

  /** Asking for less gives a prefix of what asking for more gives. */
  lemma ShorterIsPrefix(prk: seq<Byte>, info: seq<Byte>, short: nat, long: nat)
    requires short <= long
    ensures Okm(prk, info, short) <= Okm(prk, info, long)
  {
    TsExtend(prk, info, (short + HASH_LENGTH - 1) / HASH_LENGTH, (long + HASH_LENGTH - 1) / HASH_LENGTH);
  }

  lemma TakeFromBlocks(prk: seq<Byte>, info: seq<Byte>, n: nat, length: nat)
    requires HASH_LENGTH * n >= length
    ensures Ts(prk, info, n)[..length] == Okm(prk, info, length)
  {
    TsExtend(prk, info, (length + HASH_LENGTH - 1) / HASH_LENGTH, n);
  }

  method HkdfSha256(ikm: seq<Byte>, salt: seq<Byte>, info: seq<Byte>, length: nat) returns (okm: Option<seq<Byte>>)
    ensures okm == if length > 255 * 32 then None else Some(Okm(Extract(salt, ikm), info, length))
  {
    hide Hmac, Okm, CounterByte;
    if length > 255 * HASH_LENGTH { return None; }
    var prk;
    if salt != [] { prk := HmacSha256(salt, ikm); } else { prk := HmacSha256(Zeros(HASH_LENGTH), ikm); }
    var out := Expand(prk, info, length);
    return Some(out);
  }

  method Expand(prk: seq<Byte>, info: seq<Byte>, length: nat) returns (out: seq<Byte>)
    requires length <= 255 * HASH_LENGTH
    ensures out == Okm(prk, info, length)
  {
    hide Hmac, T, CounterByte, Okm, Ts;
    var t: seq<Byte>, counter: Byte := [], 1;
    out := [];
    ghost var n: nat := 0;
    FirstBlock(prk, info);
    while |out| < length
      invariant |out| <= length && |out| <= HASH_LENGTH * n
      invariant |out| == HASH_LENGTH * n || |out| == length
      invariant t == T(prk, info, n) && counter == CounterByte(n + 1)
      invariant out == Ts(prk, info, n)[..|out|]
    {
      var need := if length - |out| < HASH_LENGTH then length - |out| else HASH_LENGTH;
      NextBlock(prk, info, n, |out|, need);
      t := HmacSha256(prk, t + info + [counter]);
      out := out + t[..need];
      n, counter := n + 1, counter + 1;
    }
    TakeFromBlocks(prk, info, n, length);
  }

  lemma FirstBlock(prk: seq<Byte>, info: seq<Byte>)
    ensures T(prk, info, 0) == [] && Ts(prk, info, 0) == [] && CounterByte(1) == 1
  {
    assert CounterByte(0) == 0;
  }

  lemma NextBlock(prk: seq<Byte>, info: seq<Byte>, n: nat, offset: nat, need: nat)
    requires offset == HASH_LENGTH * n && need <= HASH_LENGTH
    ensures T(prk, info, n + 1) == Hmac(prk, T(prk, info, n) + info + [CounterByte(n + 1)])
    ensures |T(prk, info, n + 1)| == HASH_LENGTH
    ensures Ts(prk, info, n + 1)[..offset + need] == Ts(prk, info, n)[..offset] + T(prk, info, n + 1)[..need]
    ensures CounterByte(n + 2) == CounterByte(n + 1) + 1
  {
    hide Hmac;
    HmacLength(prk, T(prk, info, n) + info + [CounterByte(n + 1)]);
  }

  lemma {:induction false} CounterIs(n: nat)
    requires n < 256
    ensures CounterByte(n) as nat == n
  {
    if n > 0 { CounterIs(n - 1); }
  }

  lemma {:induction false} TsHold(prk: seq<Byte>, info: seq<Byte>, n: nat, k: nat)
    requires 1 <= k <= n
    ensures Ts(prk, info, n)[32 * (k - 1)..32 * k] == T(prk, info, k)
    decreases n
  {
    hide Hmac, T;
    if k < n {
      TsHold(prk, info, n - 1, k);
      TsExtend(prk, info, n - 1, n);
    }
    HmacLength(prk, T(prk, info, n - 1) + info + [CounterByte(n)]);
    assert |T(prk, info, n)| == 32 by { TLength(prk, info, n); }
  }

  lemma TLength(prk: seq<Byte>, info: seq<Byte>, n: nat)
    requires n > 0
    ensures |T(prk, info, n)| == 32
  {
    hide Hmac;
    HmacLength(prk, T(prk, info, n - 1) + info + [CounterByte(n)]);
  }

  lemma OkmHolds(prk: seq<Byte>, info: seq<Byte>, length: nat, k: nat)
    requires 1 <= k && 32 * k <= length
    ensures Okm(prk, info, length)[32 * (k - 1)..32 * k] == T(prk, info, k)
  {
    hide T, Ts;
    TsHold(prk, info, (length + HASH_LENGTH - 1) / HASH_LENGTH, k);
  }

  /** Section 2.3 of RFC 5869: each whole block of the output is the tag of the block before it (of nothing, for the
      first), the info and the block's number as a byte. */
  lemma OkmBlocks(prk: seq<Byte>, info: seq<Byte>, length: nat, k: nat, number: Byte)
    requires 1 <= k <= 255 && 32 * k <= length && number as nat == k
    ensures var okm := Okm(prk, info, length);
            var before := if k == 1 then [] else okm[32 * (k - 2)..32 * (k - 1)];
            okm[32 * (k - 1)..32 * k] == Hmac(prk, before + info + [number])
  {
    hide Hmac, Okm;
    CounterIs(k);
    OkmHolds(prk, info, length, k);
    if k > 1 { OkmHolds(prk, info, length, k - 1); }
  }

  /** Without salt the key of the extraction is 32 zeros. */
  lemma NoSaltIsZeros(ikm: seq<Byte>)
    ensures Extract([], ikm) == Extract(Zeros(32), ikm)
  {
    hide Hmac;
  }

  // -------------------------------------------------------------------------
  // Encrypt then authenticate: nonce, ciphertext, tag

  const NONCE := 12
  const TAG := 32

  /** Nonce and ciphertext, and the tag over the associated data and both. */
  function Sealed(enc: seq<Byte>, mac: seq<Byte>, nonce: seq<Byte>, aad: seq<Byte>, plain: seq<Byte>): (box: seq<Byte>)
    requires |enc| == 32 && |nonce| == NONCE
    ensures |box| == NONCE + |plain| + TAG
  {
    var body := nonce + ChaCha20.Crypt(plain, enc, 1, nonce);
    HmacLength(mac, aad + body);
    body + Hmac(mac, aad + body)
  }

  function Opened(enc: seq<Byte>, mac: seq<Byte>, aad: seq<Byte>, box: seq<Byte>): (plain: Option<seq<Byte>>)
    requires |enc| == 32
    ensures plain.Some? ==> |box| == NONCE + |plain.value| + TAG
  {
    if |box| < NONCE + TAG then None
    else
      var body := box[..|box| - TAG];
      if Hmac(mac, aad + body) != box[|box| - TAG..] then None
      else Some(ChaCha20.Crypt(body[NONCE..], enc, 1, body[..NONCE]))
  }

  lemma BoxParts(nonce: seq<Byte>, cipher: seq<Byte>, tag: seq<Byte>)
    requires |nonce| == NONCE && |tag| == TAG
    ensures var body := nonce + cipher; var box := body + tag;
            && box[..|box| - TAG] == body && box[|box| - TAG..] == tag
            && body[..NONCE] == nonce && body[NONCE..] == cipher
  {
  }

  /** A box is the nonce, the ciphertext from block 1 on, and in its last 32 bytes the tag over associated data, nonce and
      ciphertext. */
  lemma SealedIs(enc: seq<Byte>, mac: seq<Byte>, nonce: seq<Byte>, aad: seq<Byte>, plain: seq<Byte>)
    requires |enc| == 32 && |nonce| == 12
    ensures var box := Sealed(enc, mac, nonce, aad, plain);
            var body := nonce + ChaCha20.Crypt(plain, enc, 1, nonce);
            |box| == 12 + |plain| + 32 && box[..|box| - 32] == body && box[|box| - 32..] == Hmac(mac, aad + body)
  {
    hide Hmac, ChaCha20.Crypt;
    var cipher := ChaCha20.Crypt(plain, enc, 1, nonce);
    HmacLength(mac, aad + (nonce + cipher));
    BoxParts(nonce, cipher, Hmac(mac, aad + (nonce + cipher)));
  }

  /** Under other associated data, or another key, the box opens if and only if the two tags are equal. */
  lemma OpensUnderEqualTagsOnly(enc: seq<Byte>, mac: seq<Byte>, mac': seq<Byte>, nonce: seq<Byte>, aad: seq<Byte>, aad': seq<Byte>, plain: seq<Byte>)
    requires |enc| == 32 && |nonce| == 12
    ensures var body := nonce + ChaCha20.Crypt(plain, enc, 1, nonce);
            Opened(enc, mac', aad', Sealed(enc, mac, nonce, aad, plain)) ==
            if Hmac(mac', aad' + body) == Hmac(mac, aad + body) then Some(plain) else None
  {
    hide Hmac, ChaCha20.Crypt;
    var cipher := ChaCha20.Crypt(plain, enc, 1, nonce);
    HmacLength(mac, aad + (nonce + cipher));
    BoxParts(nonce, cipher, Hmac(mac, aad + (nonce + cipher)));
    ChaCha20.CryptUndoesItself(plain, enc, 1, nonce);
  }

  /** Any box: refused when too short for nonce and tag, or when its last 32 bytes are not the tag over associated data
      and all that is before them; else the ciphertext between is decrypted. */
  lemma OpenedIs(enc: seq<Byte>, mac: seq<Byte>, aad: seq<Byte>, nonce: seq<Byte>, cipher: seq<Byte>, tag: seq<Byte>)
    requires |enc| == 32 && |nonce| == 12 && |tag| == 32
    ensures Opened(enc, mac, aad, nonce + cipher + tag) ==
            if tag == Hmac(mac, aad + (nonce + cipher)) then Some(ChaCha20.Crypt(cipher, enc, 1, nonce)) else None
  {
    hide Hmac, ChaCha20.Crypt;
    BoxParts(nonce, cipher, tag);
  }

  /** Opening what was sealed, with the same keys and associated data, gives the plaintext. */
  lemma OpenUndoesSeal(enc: seq<Byte>, mac: seq<Byte>, nonce: seq<Byte>, aad: seq<Byte>, plain: seq<Byte>)
    requires |enc| == 32 && |nonce| == NONCE
    ensures Opened(enc, mac, aad, Sealed(enc, mac, nonce, aad, plain)) == Some(plain)
  {
    hide Hmac, ChaCha20.Crypt;
    var cipher := ChaCha20.Crypt(plain, enc, 1, nonce);
    HmacLength(mac, aad + (nonce + cipher));
    BoxParts(nonce, cipher, Hmac(mac, aad + (nonce + cipher)));
    ChaCha20.CryptUndoesItself(plain, enc, 1, nonce);
  }

  lemma AcceptedWasSealed(enc: seq<Byte>, mac: seq<Byte>, aad: seq<Byte>, box: seq<Byte>, plain: seq<Byte>)
    requires |enc| == 32 && Opened(enc, mac, aad, box) == Some(plain)
    ensures Sealed(enc, mac, box[..NONCE], aad, plain) == box
  {
    hide Hmac, ChaCha20.Crypt;
    var body := box[..|box| - TAG];
    assert body[..NONCE] == box[..NONCE] && body == body[..NONCE] + body[NONCE..];
    ChaCha20.CryptUndoesItself(body[NONCE..], enc, 1, body[..NONCE]);
    assert box == body + box[|box| - TAG..];
  }

  /** A box opens to a plaintext exactly when sealing that plaintext, under some nonce, makes that box. */
  lemma OpensExactlyWhatWasSealed(enc: seq<Byte>, mac: seq<Byte>, aad: seq<Byte>, box: seq<Byte>, plain: seq<Byte>)
    requires |enc| == 32
    ensures Opened(enc, mac, aad, box) == Some(plain) <==>
            exists nonce :: |nonce| == NONCE && Sealed(enc, mac, nonce, aad, plain) == box
  {
    if Opened(enc, mac, aad, box) == Some(plain) {
      AcceptedWasSealed(enc, mac, aad, box, plain);
    }
    forall nonce | |nonce| == NONCE && Sealed(enc, mac, nonce, aad, plain) == box
      ensures Opened(enc, mac, aad, box) == Some(plain)
    {
      OpenUndoesSeal(enc, mac, nonce, aad, plain);
    }
  }

  /** (int)n for a size_t n on a machine with 32-bit two's-complement int. */
  function AsInt(n: nat): int {
    var r := n % 0x1_0000_0000;
    if r < 0x8000_0000 then r else r - 0x1_0000_0000
  }

  lemma ReturnedLengthIsExactBelow(n: nat)
    ensures AsInt(n) == n <==> n < 0x8000_0000
  {
  }

  lemma DifferenceShows(diff: Byte, a: Byte, b: Byte)
    ensures (diff | Xor(a, b)) == 0 <==> diff == 0 && a == b
  {
  }

  method CtEqual(a: seq<Byte>, b: seq<Byte>, n: nat) returns (equal: bool)
    requires n <= |a| && n <= |b|
    ensures equal <==> a[..n] == b[..n]
  {
    hide Xor;
    var diff: Byte := 0;
    for i := 0 to n
      invariant diff == 0 <==> a[..i] == b[..i]
    {
      DifferenceShows(diff, a[i], b[i]);
      assert a[..i + 1] == a[..i] + [a[i]] && b[..i + 1] == b[..i] + [b[i]];
      diff := diff | Xor(a[i], b[i]);
    }
    return diff == 0;
  }

  method Seal(enc: seq<Byte>, mac: seq<Byte>, nonce: seq<Byte>, aad: seq<Byte>, plain: seq<Byte>, out: array<Byte>)
    returns (ok: bool)
    requires |enc| == 32 && |mac| == 32 && |nonce| == NONCE
    modifies out
    ensures ok <==> NONCE + |plain| + TAG <= out.Length
    ensures ok ==> Written(old(out[..]), out[..], 0, NONCE + |plain| + TAG, Sealed(enc, mac, nonce, aad, plain))
    ensures !ok ==> out[..] == old(out[..])
  {
    hide Hmac, ChaCha20.Crypt, Written;
    var total := NONCE + |plain| + TAG;
    if out.Length < total { return false; }
    ghost var first := out[..];
    CopyInto(out, 0, nonce);
    ghost var second := out[..];
    ChaCha20.XorInto(out, NONCE, plain, enc, nonce, 1);
    ghost var third := out[..];
    ghost var cipher := ChaCha20.Crypt(plain, enc, 1, nonce);
    BodyWritten(first, second, third, nonce, cipher, total);
    var tag := HmacSha256(mac, aad + out[..NONCE + |plain|]);
    CopyInto(out, NONCE + |plain|, tag);
    TagWritten(first, third, out[..], nonce + cipher, tag);
    return true;
  }

  lemma BodyWritten(first: seq<Byte>, second: seq<Byte>, third: seq<Byte>, nonce: seq<Byte>, cipher: seq<Byte>, total: nat)
    requires NONCE == |nonce| && NONCE + |cipher| <= total <= |first|
    requires Written(first, second, 0, NONCE, nonce) && Written(second, third, NONCE, NONCE + |cipher|, cipher)
    ensures Written(first, third, 0, total, nonce + cipher) && third[..NONCE + |cipher|] == nonce + cipher
  {
    assert Written(first, second, 0, total, nonce) by {
      assert second[NONCE..][total - NONCE..] == first[NONCE..][total - NONCE..];
    }
    WrittenMore(first, second, third, 0, total, nonce, cipher);
  }

  lemma TagWritten(first: seq<Byte>, third: seq<Byte>, last: seq<Byte>, body: seq<Byte>, tag: seq<Byte>)
    requires Written(first, third, 0, |body| + |tag|, body) && Written(third, last, |body|, |body| + |tag|, tag)
    ensures Written(first, last, 0, |body| + |tag|, body + tag)
  {
    WrittenMore(first, third, last, 0, |body| + |tag|, body, tag);
  }

  /** The length of the plaintext, or -1 for a box too short, too long for out, or with a wrong tag. */
  method Open(enc: seq<Byte>, mac: seq<Byte>, aad: seq<Byte>, box: seq<Byte>, out: array<Byte>) returns (n: int)
    requires |enc| == 32 && |mac| == 32
    modifies out
    ensures var plain := Opened(enc, mac, aad, box);
            if plain.None? || |plain.value| > out.Length then n == -1 && out[..] == old(out[..])
            else n == AsInt(|plain.value|) && Written(old(out[..]), out[..], 0, |plain.value|, plain.value)
  {
    hide Hmac, ChaCha20.Crypt, Written, AsInt;
    if |box| < NONCE + TAG { return -1; }
    var length := |box| - NONCE - TAG;
    if length > out.Length { return -1; }
    var body := box[..NONCE + length];
    var expected := HmacSha256(mac, aad + body);
    var tag := box[NONCE + length..];
    assert expected[..TAG] == expected && tag[..TAG] == tag;
    var same := CtEqual(expected, tag, TAG);
    if !same { return -1; }
    ChaCha20.XorInto(out, 0, body[NONCE..], enc, body[..NONCE], 1);
    return AsInt(length);
  }
}
