/** An example of RFC 1321 (appendix A.5), "abc", worked through by the model: what the tables and the 64 steps compute
    is the published digest. */
module Md5Example {
  import opened Bytes
  import opened Streaming
  import opened Md5

  const ABC: seq<Byte> := [0x61, 0x62, 0x63]

  /** The padded message: its three bytes, 0x80, zeros, and its length in bits. */
  ghost predicate IsAbc(block: seq<Byte>) {
    && |block| == 64 && block[0] == 0x61 && block[1] == 0x62 && block[2] == 0x63 && block[3] == 0x80
    && (forall i :: 4 <= i < 64 && i != 56 ==> block[i] == 0) && block[56] == 0x18
  }

  lemma LengthOfAbc()
    ensures forall k :: 0 <= k < 8 ==> LengthLittle(24)[k] == if k == 0 then 0x18 else 0
  {
    forall k: nat | 0 < k < 8 ensures ByteOf(24, k) == 0 { NothingAbove(24, k); }
  }

  lemma AbcIsPadded()
    ensures |Pad(ABC)| == 64 && IsAbc(Pad(ABC))
  {
    hide LengthLittle;
    ZerosAreZero(52);
    LengthOfAbc();
    assert ZeroCount(3) == 52;
  }

  lemma WordsOfAbc(block: seq<Byte>)
    requires IsAbc(block)
    ensures |block| == 64 && WordAt(block, 0) == 0x80636261 && WordAt(block, 14) == 0x18
    ensures forall i :: 0 < i < 16 && i != 14 ==> WordAt(block, i) == 0
  {
  }

  /** One step, with the function's value, the table entries and the word of the block as they are at t. */
  lemma Turn(block: seq<Byte>, t: nat, v: Words, f: Word, k: Word, n: Distance, x: Word, b: Word)
    requires |block| == 64 && t < 64 && Steps(START, block, t) == v && WordAt(block, Index(t)) == x
    requires Mix(t, v) == f && K[t] == k && S[t] == n && Turned(v.b, v.a, f, k, x, n) == b
    ensures Steps(START, block, t + 1) == Words(v.d, b, v.b, v.c)
  {
    hide Turned, WordAt, Index, Mix, K, S;
  }

  lemma NoSteps(block: seq<Byte>)
    requires |block| == 64
    ensures Steps(START, block, 0) == START
  {
  }

  lemma Table0()
    ensures K[0] == 0xd76aa478 && K[1] == 0xe8c7b756 && K[2] == 0x242070db && K[3] == 0xc1bdceee
    ensures K[4] == 0xf57c0faf && K[5] == 0x4787c62a && K[6] == 0xa8304613 && K[7] == 0xfd469501
    ensures S[0] == 7 && S[1] == 12 && S[2] == 17 && S[3] == 22 && S[4] == 7 && S[5] == 12 && S[6] == 17 && S[7] == 22
  {
  }

  lemma Values0()
    ensures Mix(0, Words(0x67452301, 0xefcdab89, 0x98badcfe, 0x10325476)) == 0x98badcfe
    ensures Turned(0xefcdab89, 0x67452301, 0x98badcfe, 0xd76aa478, 0x80636261, 7) == 0xd6d117b4
    ensures Mix(1, Words(0x10325476, 0xd6d117b4, 0xefcdab89, 0x98badcfe)) == 0xceebcbca
    ensures Turned(0xd6d117b4, 0x10325476, 0xceebcbca, 0xe8c7b756, 0x00000000, 12) == 0x344a8432
    ensures Mix(2, Words(0x98badcfe, 0x344a8432, 0xd6d117b4, 0xefcdab89)) == 0xdfc52fb9
    ensures Turned(0x344a8432, 0x98badcfe, 0xdfc52fb9, 0x242070db, 0x00000000, 17) == 0x2f6fbd72
    ensures Mix(3, Words(0xefcdab89, 0x2f6fbd72, 0x344a8432, 0xd6d117b4)) == 0xf4da86b6
    ensures Turned(0x2f6fbd72, 0xefcdab89, 0xf4da86b6, 0xc1bdceee, 0x00000000, 22) == 0x7ad956f2
    ensures Mix(4, Words(0xd6d117b4, 0x7ad956f2, 0x2f6fbd72, 0x344a8432)) == 0x2e4b9472
    ensures Turned(0x7ad956f2, 0xd6d117b4, 0x2e4b9472, 0xf57c0faf, 0x00000000, 7) == 0xc73741ef
    ensures Mix(5, Words(0x344a8432, 0xc73741ef, 0x7ad956f2, 0x2f6fbd72)) == 0x6a59fcf2
    ensures Turned(0xc73741ef, 0x344a8432, 0x6a59fcf2, 0x4787c62a, 0x00000000, 12) == 0x8bac3051
    ensures Mix(6, Words(0x2f6fbd72, 0x8bac3051, 0xc73741ef, 0x7ad956f2)) == 0xf37546e3
    ensures Turned(0x8bac3051, 0x2f6fbd72, 0xf37546e3, 0xa8304613, 0x00000000, 17) == 0x207dc67b
    ensures Mix(7, Words(0x7ad956f2, 0x207dc67b, 0x8bac3051, 0xc73741ef)) == 0xc72e01d5
    ensures Turned(0x207dc67b, 0x7ad956f2, 0xc72e01d5, 0xfd469501, 0x00000000, 22) == 0x928d99f6
  {
  }

  lemma Steps8(block: seq<Byte>)
    requires IsAbc(block)
    ensures |block| == 64 && Steps(START, block, 8) == Words(0xc73741ef, 0x928d99f6, 0x207dc67b, 0x8bac3051)
  {
    hide WordAt, Steps, IsAbc, K, S, Mix, Turned;
    WordsOfAbc(block);
    Table0();
    Values0();
    NoSteps(block);
    Turn(block, 0, Words(0x67452301, 0xefcdab89, 0x98badcfe, 0x10325476), 0x98badcfe, 0xd76aa478, 7, 0x80636261, 0xd6d117b4);
    Turn(block, 1, Words(0x10325476, 0xd6d117b4, 0xefcdab89, 0x98badcfe), 0xceebcbca, 0xe8c7b756, 12, 0x00000000, 0x344a8432);
    Turn(block, 2, Words(0x98badcfe, 0x344a8432, 0xd6d117b4, 0xefcdab89), 0xdfc52fb9, 0x242070db, 17, 0x00000000, 0x2f6fbd72);
    Turn(block, 3, Words(0xefcdab89, 0x2f6fbd72, 0x344a8432, 0xd6d117b4), 0xf4da86b6, 0xc1bdceee, 22, 0x00000000, 0x7ad956f2);
    Turn(block, 4, Words(0xd6d117b4, 0x7ad956f2, 0x2f6fbd72, 0x344a8432), 0x2e4b9472, 0xf57c0faf, 7, 0x00000000, 0xc73741ef);
    Turn(block, 5, Words(0x344a8432, 0xc73741ef, 0x7ad956f2, 0x2f6fbd72), 0x6a59fcf2, 0x4787c62a, 12, 0x00000000, 0x8bac3051);
    Turn(block, 6, Words(0x2f6fbd72, 0x8bac3051, 0xc73741ef, 0x7ad956f2), 0xf37546e3, 0xa8304613, 17, 0x00000000, 0x207dc67b);
    Turn(block, 7, Words(0x7ad956f2, 0x207dc67b, 0x8bac3051, 0xc73741ef), 0xc72e01d5, 0xfd469501, 22, 0x00000000, 0x928d99f6);
  }

  lemma Table8()
    ensures K[8] == 0x698098d8 && K[9] == 0x8b44f7af && K[10] == 0xffff5bb1 && K[11] == 0x895cd7be
    ensures K[12] == 0x6b901122 && K[13] == 0xfd987193 && K[14] == 0xa679438e && K[15] == 0x49b40821
    ensures S[8] == 7 && S[9] == 12 && S[10] == 17 && S[11] == 22 && S[12] == 7 && S[13] == 12 && S[14] == 17 && S[15] == 22
  {
  }

  lemma Values8()
    ensures Mix(8, Words(0xc73741ef, 0x928d99f6, 0x207dc67b, 0x8bac3051)) == 0x092da073
    ensures Turned(0x928d99f6, 0xc73741ef, 0x092da073, 0x698098d8, 0x00000000, 7) == 0x854b3712
    ensures Mix(9, Words(0x8bac3051, 0x854b3712, 0x928d99f6, 0x207dc67b)) == 0xa03dd17b
    ensures Turned(0x854b3712, 0x8bac3051, 0xa03dd17b, 0x8b44f7af, 0x00000000, 12) == 0x74e2f284
    ensures Mix(10, Words(0x207dc67b, 0x74e2f284, 0x854b3712, 0x928d99f6)) == 0x864f3b72
    ensures Turned(0x74e2f284, 0x207dc67b, 0x864f3b72, 0xffff5bb1, 0x00000000, 17) == 0x3020401c
    ensures Mix(11, Words(0x928d99f6, 0x3020401c, 0x74e2f284, 0x854b3712)) == 0xb56b7706
    ensures Turned(0x3020401c, 0x928d99f6, 0xb56b7706, 0x895cd7be, 0x00000000, 22) == 0x5ed49596
    ensures Mix(12, Words(0x854b3712, 0x5ed49596, 0x3020401c, 0x74e2f284)) == 0x30226214
    ensures Turned(0x5ed49596, 0x854b3712, 0x30226214, 0x6b901122, 0x00000000, 7) == 0xdda9b9a6
    ensures Mix(13, Words(0x74e2f284, 0xdda9b9a6, 0x5ed49596, 0x3020401c)) == 0x7c80d19e
    ensures Turned(0xdda9b9a6, 0x74e2f284, 0x7c80d19e, 0xfd987193, 0x00000000, 12) == 0xa1051895
    ensures Mix(14, Words(0x3020401c, 0xa1051895, 0xdda9b9a6, 0x5ed49596)) == 0xdfd19d86
    ensures Turned(0xa1051895, 0x3020401c, 0xdfd19d86, 0xa679438e, 0x00000018, 17) == 0xe396856b
    ensures Mix(15, Words(0x5ed49596, 0xe396856b, 0xa1051895, 0xdda9b9a6)) == 0xbd2d3885
    ensures Turned(0xe396856b, 0x5ed49596, 0xbd2d3885, 0x49b40821, 0x00000000, 22) == 0x72aff2e0
  {
  }

  lemma Steps16(block: seq<Byte>)
    requires IsAbc(block)
    ensures |block| == 64 && Steps(START, block, 16) == Words(0xdda9b9a6, 0x72aff2e0, 0xe396856b, 0xa1051895)
  {
    hide WordAt, Steps, IsAbc, K, S, Mix, Turned;
    WordsOfAbc(block);
    Table8();
    Values8();
    Steps8(block);
    Turn(block, 8, Words(0xc73741ef, 0x928d99f6, 0x207dc67b, 0x8bac3051), 0x092da073, 0x698098d8, 7, 0x00000000, 0x854b3712);
    Turn(block, 9, Words(0x8bac3051, 0x854b3712, 0x928d99f6, 0x207dc67b), 0xa03dd17b, 0x8b44f7af, 12, 0x00000000, 0x74e2f284);
    Turn(block, 10, Words(0x207dc67b, 0x74e2f284, 0x854b3712, 0x928d99f6), 0x864f3b72, 0xffff5bb1, 17, 0x00000000, 0x3020401c);
    Turn(block, 11, Words(0x928d99f6, 0x3020401c, 0x74e2f284, 0x854b3712), 0xb56b7706, 0x895cd7be, 22, 0x00000000, 0x5ed49596);
    Turn(block, 12, Words(0x854b3712, 0x5ed49596, 0x3020401c, 0x74e2f284), 0x30226214, 0x6b901122, 7, 0x00000000, 0xdda9b9a6);
    Turn(block, 13, Words(0x74e2f284, 0xdda9b9a6, 0x5ed49596, 0x3020401c), 0x7c80d19e, 0xfd987193, 12, 0x00000000, 0xa1051895);
    Turn(block, 14, Words(0x3020401c, 0xa1051895, 0xdda9b9a6, 0x5ed49596), 0xdfd19d86, 0xa679438e, 17, 0x00000018, 0xe396856b);
    Turn(block, 15, Words(0x5ed49596, 0xe396856b, 0xa1051895, 0xdda9b9a6), 0xbd2d3885, 0x49b40821, 22, 0x00000000, 0x72aff2e0);
  }

  lemma Table16()
    ensures K[16] == 0xf61e2562 && K[17] == 0xc040b340 && K[18] == 0x265e5a51 && K[19] == 0xe9b6c7aa
    ensures K[20] == 0xd62f105d && K[21] == 0x02441453 && K[22] == 0xd8a1e681 && K[23] == 0xe7d3fbc8
    ensures S[16] == 5 && S[17] == 9 && S[18] == 14 && S[19] == 20 && S[20] == 5 && S[21] == 9 && S[22] == 14 && S[23] == 20
  {
  }

  lemma Values16()
    ensures Mix(16, Words(0xdda9b9a6, 0x72aff2e0, 0xe396856b, 0xa1051895)) == 0x629795ea
    ensures Turned(0x72aff2e0, 0xdda9b9a6, 0x629795ea, 0xf61e2562, 0x00000000, 5) == 0x3e9e9126
    ensures Mix(17, Words(0xa1051895, 0x3e9e9126, 0x72aff2e0, 0xe396856b)) == 0x32bff3a2
    ensures Turned(0x3e9e9126, 0xa1051895, 0x32bff3a2, 0xc040b340, 0x00000000, 9) == 0x4a1d804e
    ensures Mix(18, Words(0xe396856b, 0x4a1d804e, 0x3e9e9126, 0x72aff2e0)) == 0x4e1d8146
    ensures Turned(0x4a1d804e, 0xe396856b, 0x4e1d8146, 0x265e5a51, 0x00000000, 14) == 0xe25e1652
    ensures Mix(19, Words(0x72aff2e0, 0xe25e1652, 0x4a1d804e, 0x3e9e9126)) == 0x621f104a
    ensures Turned(0xe25e1652, 0x72aff2e0, 0x621f104a, 0xe9b6c7aa, 0x80636261, 20) == 0xb5b204e4
    ensures Mix(20, Words(0x3e9e9126, 0xb5b204e4, 0xe25e1652, 0x4a1d804e)) == 0xa0521654
    ensures Turned(0xb5b204e4, 0x3e9e9126, 0xa0521654, 0xd62f105d, 0x00000000, 5) == 0x59a8ffda
    ensures Mix(21, Words(0x4a1d804e, 0x59a8ffda, 0xb5b204e4, 0xe25e1652)) == 0x55a816f6
    ensures Turned(0x59a8ffda, 0x4a1d804e, 0x55a816f6, 0x02441453, 0x00000000, 9) == 0x6d002f1e
    ensures Mix(22, Words(0xe25e1652, 0x6d002f1e, 0x59a8ffda, 0xb5b204e4)) == 0x6d08ff1e
    ensures Turned(0x6d002f1e, 0xe25e1652, 0x6d08ff1e, 0xd8a1e681, 0x00000000, 14) == 0xabfc7920
    ensures Mix(23, Words(0xb5b204e4, 0xabfc7920, 0x6d002f1e, 0x59a8ffda)) == 0x2da87904
    ensures Turned(0xabfc7920, 0xb5b204e4, 0x2da87904, 0xe7d3fbc8, 0x00000000, 20) == 0x47092c07
  {
  }

  lemma Steps24(block: seq<Byte>)
    requires IsAbc(block)
    ensures |block| == 64 && Steps(START, block, 24) == Words(0x59a8ffda, 0x47092c07, 0xabfc7920, 0x6d002f1e)
  {
    hide WordAt, Steps, IsAbc, K, S, Mix, Turned;
    WordsOfAbc(block);
    Table16();
    Values16();
    Steps16(block);
    Turn(block, 16, Words(0xdda9b9a6, 0x72aff2e0, 0xe396856b, 0xa1051895), 0x629795ea, 0xf61e2562, 5, 0x00000000, 0x3e9e9126);
    Turn(block, 17, Words(0xa1051895, 0x3e9e9126, 0x72aff2e0, 0xe396856b), 0x32bff3a2, 0xc040b340, 9, 0x00000000, 0x4a1d804e);
    Turn(block, 18, Words(0xe396856b, 0x4a1d804e, 0x3e9e9126, 0x72aff2e0), 0x4e1d8146, 0x265e5a51, 14, 0x00000000, 0xe25e1652);
    Turn(block, 19, Words(0x72aff2e0, 0xe25e1652, 0x4a1d804e, 0x3e9e9126), 0x621f104a, 0xe9b6c7aa, 20, 0x80636261, 0xb5b204e4);
    Turn(block, 20, Words(0x3e9e9126, 0xb5b204e4, 0xe25e1652, 0x4a1d804e), 0xa0521654, 0xd62f105d, 5, 0x00000000, 0x59a8ffda);
    Turn(block, 21, Words(0x4a1d804e, 0x59a8ffda, 0xb5b204e4, 0xe25e1652), 0x55a816f6, 0x02441453, 9, 0x00000000, 0x6d002f1e);
    Turn(block, 22, Words(0xe25e1652, 0x6d002f1e, 0x59a8ffda, 0xb5b204e4), 0x6d08ff1e, 0xd8a1e681, 14, 0x00000000, 0xabfc7920);
    Turn(block, 23, Words(0xb5b204e4, 0xabfc7920, 0x6d002f1e, 0x59a8ffda), 0x2da87904, 0xe7d3fbc8, 20, 0x00000000, 0x47092c07);
  }

  lemma Table24()
    ensures K[24] == 0x21e1cde6 && K[25] == 0xc33707d6 && K[26] == 0xf4d50d87 && K[27] == 0x455a14ed
    ensures K[28] == 0xa9e3e905 && K[29] == 0xfcefa3f8 && K[30] == 0x676f02d9 && K[31] == 0x8d2a4c8a
    ensures S[24] == 5 && S[25] == 9 && S[26] == 14 && S[27] == 20 && S[28] == 5 && S[29] == 9 && S[30] == 14 && S[31] == 20
  {
  }

  lemma Values24()
    ensures Mix(24, Words(0x59a8ffda, 0x47092c07, 0xabfc7920, 0x6d002f1e)) == 0xc7fc7c26
    ensures Turned(0x47092c07, 0x59a8ffda, 0xc7fc7c26, 0x21e1cde6, 0x00000000, 5) == 0xb7f268cf
    ensures Mix(25, Words(0x6d002f1e, 0xb7f268cf, 0x47092c07, 0xabfc7920)) == 0xe7f16c07
    ensures Turned(0xb7f268cf, 0x6d002f1e, 0xe7f16c07, 0xc33707d6, 0x00000018, 9) == 0x09388eff
    ensures Mix(26, Words(0xabfc7920, 0x09388eff, 0xb7f268cf, 0x47092c07)) == 0xb1fa4ccf
    ensures Turned(0x09388eff, 0xabfc7920, 0xb1fa4ccf, 0xf4d50d87, 0x00000000, 14) == 0xfe1623b1
    ensures Mix(27, Words(0x47092c07, 0xfe1623b1, 0x09388eff, 0xb7f268cf)) == 0xbe1aa6b1
    ensures Turned(0xfe1623b1, 0x47092c07, 0xbe1aa6b1, 0x455a14ed, 0x00000000, 20) == 0x786acb8f
    ensures Mix(28, Words(0xb7f268cf, 0x786acb8f, 0xfe1623b1, 0x09388eff)) == 0xfe2eab8f
    ensures Turned(0x786acb8f, 0xb7f268cf, 0xfe2eab8f, 0xa9e3e905, 0x00000000, 5) == 0x790a77fb
    ensures Mix(29, Words(0x09388eff, 0x790a77fb, 0x786acb8f, 0xfe1623b1)) == 0x786aebbf
    ensures Turned(0x790a77fb, 0x09388eff, 0x786aebbf, 0xfcefa3f8, 0x00000000, 9) == 0x9f47e4f8
    ensures Mix(30, Words(0xfe1623b1, 0x9f47e4f8, 0x790a77fb, 0x786acb8f)) == 0x1942f4f8
    ensures Turned(0x9f47e4f8, 0xfe1623b1, 0x1942f4f8, 0x676f02d9, 0x00000000, 14) == 0xa62884aa
    ensures Mix(31, Words(0x786acb8f, 0xa62884aa, 0x9f47e4f8, 0x790a77fb)) == 0xa64d84aa
    ensures Turned(0xa62884aa, 0x786acb8f, 0xa64d84aa, 0x8d2a4c8a, 0x00000000, 20) == 0x726342d3
  {
  }

  lemma Steps32(block: seq<Byte>)
    requires IsAbc(block)
    ensures |block| == 64 && Steps(START, block, 32) == Words(0x790a77fb, 0x726342d3, 0xa62884aa, 0x9f47e4f8)
  {
    hide WordAt, Steps, IsAbc, K, S, Mix, Turned;
    WordsOfAbc(block);
    Table24();
    Values24();
    Steps24(block);
    Turn(block, 24, Words(0x59a8ffda, 0x47092c07, 0xabfc7920, 0x6d002f1e), 0xc7fc7c26, 0x21e1cde6, 5, 0x00000000, 0xb7f268cf);
    Turn(block, 25, Words(0x6d002f1e, 0xb7f268cf, 0x47092c07, 0xabfc7920), 0xe7f16c07, 0xc33707d6, 9, 0x00000018, 0x09388eff);
    Turn(block, 26, Words(0xabfc7920, 0x09388eff, 0xb7f268cf, 0x47092c07), 0xb1fa4ccf, 0xf4d50d87, 14, 0x00000000, 0xfe1623b1);
    Turn(block, 27, Words(0x47092c07, 0xfe1623b1, 0x09388eff, 0xb7f268cf), 0xbe1aa6b1, 0x455a14ed, 20, 0x00000000, 0x786acb8f);
    Turn(block, 28, Words(0xb7f268cf, 0x786acb8f, 0xfe1623b1, 0x09388eff), 0xfe2eab8f, 0xa9e3e905, 5, 0x00000000, 0x790a77fb);
    Turn(block, 29, Words(0x09388eff, 0x790a77fb, 0x786acb8f, 0xfe1623b1), 0x786aebbf, 0xfcefa3f8, 9, 0x00000000, 0x9f47e4f8);
    Turn(block, 30, Words(0xfe1623b1, 0x9f47e4f8, 0x790a77fb, 0x786acb8f), 0x1942f4f8, 0x676f02d9, 14, 0x00000000, 0xa62884aa);
    Turn(block, 31, Words(0x786acb8f, 0xa62884aa, 0x9f47e4f8, 0x790a77fb), 0xa64d84aa, 0x8d2a4c8a, 20, 0x00000000, 0x726342d3);
  }

  lemma Table32()
    ensures K[32] == 0xfffa3942 && K[33] == 0x8771f681 && K[34] == 0x6d9d6122 && K[35] == 0xfde5380c
    ensures K[36] == 0xa4beea44 && K[37] == 0x4bdecfa9 && K[38] == 0xf6bb4b60 && K[39] == 0xbebfbc70
    ensures S[32] == 4 && S[33] == 11 && S[34] == 16 && S[35] == 23 && S[36] == 4 && S[37] == 11 && S[38] == 16 && S[39] == 23
  {
  }

  lemma Values32()
    ensures Mix(32, Words(0x790a77fb, 0x726342d3, 0xa62884aa, 0x9f47e4f8)) == 0x4b0c2281
    ensures Turned(0x726342d3, 0x790a77fb, 0x4b0c2281, 0xfffa3942, 0x00000000, 4) == 0xb3707ebf
    ensures Mix(33, Words(0x9f47e4f8, 0xb3707ebf, 0x726342d3, 0xa62884aa)) == 0x673bb8c6
    ensures Turned(0xb3707ebf, 0x9f47e4f8, 0x673bb8c6, 0x8771f681, 0x00000000, 11) == 0x60127b2e
    ensures Mix(34, Words(0xa62884aa, 0x60127b2e, 0xb3707ebf, 0x726342d3)) == 0xa1014742
    ensures Turned(0x60127b2e, 0xa62884aa, 0xa1014742, 0x6d9d6122, 0x00000000, 16) == 0x8d212ff5
    ensures Mix(35, Words(0x726342d3, 0x8d212ff5, 0x60127b2e, 0xb3707ebf)) == 0x5e432a64
    ensures Turned(0x8d212ff5, 0x726342d3, 0x5e432a64, 0xfde5380c, 0x00000018, 23) == 0x3b0875c7
    ensures Mix(36, Words(0xb3707ebf, 0x3b0875c7, 0x8d212ff5, 0x60127b2e)) == 0xd63b211c
    ensures Turned(0x3b0875c7, 0xb3707ebf, 0xd63b211c, 0xa4beea44, 0x00000000, 4) == 0x21b117b9
    ensures Mix(37, Words(0x60127b2e, 0x21b117b9, 0x3b0875c7, 0x8d212ff5)) == 0x97984d8b
    ensures Turned(0x21b117b9, 0x60127b2e, 0x97984d8b, 0x4bdecfa9, 0x00000000, 11) == 0x6e7429d5
    ensures Mix(38, Words(0x8d212ff5, 0x6e7429d5, 0x21b117b9, 0x3b0875c7)) == 0x74cd4bab
    ensures Turned(0x6e7429d5, 0x8d212ff5, 0x74cd4bab, 0xf6bb4b60, 0x00000000, 16) == 0x3575227e
    ensures Mix(39, Words(0x3b0875c7, 0x3575227e, 0x6e7429d5, 0x21b117b9)) == 0x7ab01c12
    ensures Turned(0x3575227e, 0x3b0875c7, 0x7ab01c12, 0xbebfbc70, 0x00000000, 23) == 0x5a2f5ea5
  {
  }

  lemma Steps40(block: seq<Byte>)
    requires IsAbc(block)
    ensures |block| == 64 && Steps(START, block, 40) == Words(0x21b117b9, 0x5a2f5ea5, 0x3575227e, 0x6e7429d5)
  {
    hide WordAt, Steps, IsAbc, K, S, Mix, Turned;
    WordsOfAbc(block);
    Table32();
    Values32();
    Steps32(block);
    Turn(block, 32, Words(0x790a77fb, 0x726342d3, 0xa62884aa, 0x9f47e4f8), 0x4b0c2281, 0xfffa3942, 4, 0x00000000, 0xb3707ebf);
    Turn(block, 33, Words(0x9f47e4f8, 0xb3707ebf, 0x726342d3, 0xa62884aa), 0x673bb8c6, 0x8771f681, 11, 0x00000000, 0x60127b2e);
    Turn(block, 34, Words(0xa62884aa, 0x60127b2e, 0xb3707ebf, 0x726342d3), 0xa1014742, 0x6d9d6122, 16, 0x00000000, 0x8d212ff5);
    Turn(block, 35, Words(0x726342d3, 0x8d212ff5, 0x60127b2e, 0xb3707ebf), 0x5e432a64, 0xfde5380c, 23, 0x00000018, 0x3b0875c7);
    Turn(block, 36, Words(0xb3707ebf, 0x3b0875c7, 0x8d212ff5, 0x60127b2e), 0xd63b211c, 0xa4beea44, 4, 0x00000000, 0x21b117b9);
    Turn(block, 37, Words(0x60127b2e, 0x21b117b9, 0x3b0875c7, 0x8d212ff5), 0x97984d8b, 0x4bdecfa9, 11, 0x00000000, 0x6e7429d5);
    Turn(block, 38, Words(0x8d212ff5, 0x6e7429d5, 0x21b117b9, 0x3b0875c7), 0x74cd4bab, 0xf6bb4b60, 16, 0x00000000, 0x3575227e);
    Turn(block, 39, Words(0x3b0875c7, 0x3575227e, 0x6e7429d5, 0x21b117b9), 0x7ab01c12, 0xbebfbc70, 23, 0x00000000, 0x5a2f5ea5);
  }

  lemma Table40()
    ensures K[40] == 0x289b7ec6 && K[41] == 0xeaa127fa && K[42] == 0xd4ef3085 && K[43] == 0x04881d05
    ensures K[44] == 0xd9d4d039 && K[45] == 0xe6db99e5 && K[46] == 0x1fa27cf8 && K[47] == 0xc4ac5665
    ensures S[40] == 4 && S[41] == 11 && S[42] == 16 && S[43] == 23 && S[44] == 4 && S[45] == 11 && S[46] == 16 && S[47] == 23
  {
  }

  lemma Values40()
    ensures Mix(40, Words(0x21b117b9, 0x5a2f5ea5, 0x3575227e, 0x6e7429d5)) == 0x012e550e
    ensures Turned(0x5a2f5ea5, 0x21b117b9, 0x012e550e, 0x289b7ec6, 0x00000000, 4) == 0x11de1779
    ensures Mix(41, Words(0x6e7429d5, 0x11de1779, 0x5a2f5ea5, 0x3575227e)) == 0x7e846ba2
    ensures Turned(0x11de1779, 0x6e7429d5, 0x7e846ba2, 0xeaa127fa, 0x80636261, 11) == 0xfadcaa38
    ensures Mix(42, Words(0x3575227e, 0xfadcaa38, 0x11de1779, 0x5a2f5ea5)) == 0xb12de3e4
    ensures Turned(0xfadcaa38, 0x3575227e, 0xb12de3e4, 0xd4ef3085, 0x00000000, 16) == 0x31c465ca
    ensures Mix(43, Words(0x5a2f5ea5, 0x31c465ca, 0xfadcaa38, 0x11de1779)) == 0xdac6d88b
    ensures Turned(0x31c465ca, 0x5a2f5ea5, 0xdac6d88b, 0x04881d05, 0x00000000, 23) == 0x4c6124f4
    ensures Mix(44, Words(0x11de1779, 0x4c6124f4, 0x31c465ca, 0xfadcaa38)) == 0x8779eb06
    ensures Turned(0x4c6124f4, 0x11de1779, 0x8779eb06, 0xd9d4d039, 0x00000000, 4) == 0x7f2e507b
    ensures Mix(45, Words(0xfadcaa38, 0x7f2e507b, 0x4c6124f4, 0x31c465ca)) == 0x028b1145
    ensures Turned(0x7f2e507b, 0xfadcaa38, 0x028b1145, 0xe6db99e5, 0x00000000, 11) == 0x99d9679d
    ensures Mix(46, Words(0x31c465ca, 0x99d9679d, 0x7f2e507b, 0x4c6124f4)) == 0xaa961312
    ensures Turned(0x99d9679d, 0x31c465ca, 0xaa961312, 0x1fa27cf8, 0x00000000, 16) == 0x8fae6399
    ensures Mix(47, Words(0x4c6124f4, 0x8fae6399, 0x99d9679d, 0x7f2e507b)) == 0x6959547f
    ensures Turned(0x8fae6399, 0x4c6124f4, 0x6959547f, 0xc4ac5665, 0x00000000, 23) == 0x7beb9700
  {
  }

  lemma Steps48(block: seq<Byte>)
    requires IsAbc(block)
    ensures |block| == 64 && Steps(START, block, 48) == Words(0x7f2e507b, 0x7beb9700, 0x8fae6399, 0x99d9679d)
  {
    hide WordAt, Steps, IsAbc, K, S, Mix, Turned;
    WordsOfAbc(block);
    Table40();
    Values40();
    Steps40(block);
    Turn(block, 40, Words(0x21b117b9, 0x5a2f5ea5, 0x3575227e, 0x6e7429d5), 0x012e550e, 0x289b7ec6, 4, 0x00000000, 0x11de1779);
    Turn(block, 41, Words(0x6e7429d5, 0x11de1779, 0x5a2f5ea5, 0x3575227e), 0x7e846ba2, 0xeaa127fa, 11, 0x80636261, 0xfadcaa38);
    Turn(block, 42, Words(0x3575227e, 0xfadcaa38, 0x11de1779, 0x5a2f5ea5), 0xb12de3e4, 0xd4ef3085, 16, 0x00000000, 0x31c465ca);
    Turn(block, 43, Words(0x5a2f5ea5, 0x31c465ca, 0xfadcaa38, 0x11de1779), 0xdac6d88b, 0x04881d05, 23, 0x00000000, 0x4c6124f4);
    Turn(block, 44, Words(0x11de1779, 0x4c6124f4, 0x31c465ca, 0xfadcaa38), 0x8779eb06, 0xd9d4d039, 4, 0x00000000, 0x7f2e507b);
    Turn(block, 45, Words(0xfadcaa38, 0x7f2e507b, 0x4c6124f4, 0x31c465ca), 0x028b1145, 0xe6db99e5, 11, 0x00000000, 0x99d9679d);
    Turn(block, 46, Words(0x31c465ca, 0x99d9679d, 0x7f2e507b, 0x4c6124f4), 0xaa961312, 0x1fa27cf8, 16, 0x00000000, 0x8fae6399);
    Turn(block, 47, Words(0x4c6124f4, 0x8fae6399, 0x99d9679d, 0x7f2e507b), 0x6959547f, 0xc4ac5665, 23, 0x00000000, 0x7beb9700);
  }

  lemma Table48()
    ensures K[48] == 0xf4292244 && K[49] == 0x432aff97 && K[50] == 0xab9423a7 && K[51] == 0xfc93a039
    ensures K[52] == 0x655b59c3 && K[53] == 0x8f0ccc92 && K[54] == 0xffeff47d && K[55] == 0x85845dd1
    ensures S[48] == 6 && S[49] == 10 && S[50] == 15 && S[51] == 21 && S[52] == 6 && S[53] == 10 && S[54] == 15 && S[55] == 21
  {
  }

  lemma Values48()
    ensures Mix(48, Words(0x7f2e507b, 0x7beb9700, 0x8fae6399, 0x99d9679d)) == 0xf041fcfb
    ensures Turned(0x7beb9700, 0x7f2e507b, 0xf041fcfb, 0xf4292244, 0x80636261, 6) == 0x7b201df8
    ensures Mix(49, Words(0x99d9679d, 0x7b201df8, 0x7beb9700, 0x8fae6399)) == 0x009a0afe
    ensures Turned(0x7b201df8, 0x99d9679d, 0x009a0afe, 0x432aff97, 0x00000000, 10) == 0xf4e8e96e
    ensures Mix(50, Words(0x8fae6399, 0xf4e8e96e, 0x7b201df8, 0x7beb9700)) == 0x8fdcf407
    ensures Turned(0xf4e8e96e, 0x8fae6399, 0x8fdcf407, 0xab9423a7, 0x00000018, 15) == 0xb298cefd
    ensures Mix(51, Words(0x7beb9700, 0xb298cefd, 0xf4e8e96e, 0x7b201df8)) == 0x42370791
    ensures Turned(0xb298cefd, 0x7beb9700, 0x42370791, 0xfc93a039, 0x00000000, 21) == 0x8bf025c4
    ensures Mix(52, Words(0x7b201df8, 0x8bf025c4, 0xb298cefd, 0xf4e8e96e)) == 0x396ff928
    ensures Turned(0x8bf025c4, 0x7b201df8, 0x396ff928, 0x655b59c3, 0x00000000, 6) == 0x06cc5e8a
    ensures Mix(53, Words(0xf4e8e96e, 0x06cc5e8a, 0x8bf025c4, 0xb298cefd)) == 0xc41f5a4e
    ensures Turned(0x06cc5e8a, 0xf4e8e96e, 0xc41f5a4e, 0x8f0ccc92, 0x00000000, 10) == 0x5b0d97aa
    ensures Mix(54, Words(0xb298cefd, 0x5b0d97aa, 0x06cc5e8a, 0x8bf025c4)) == 0x79c38131
    ensures Turned(0x5b0d97aa, 0xb298cefd, 0x79c38131, 0xffeff47d, 0x00000000, 15) == 0x7d632dd0
    ensures Mix(55, Words(0x8bf025c4, 0x7d632dd0, 0x5b0d97aa, 0x06cc5e8a)) == 0xa67e3a5f
    ensures Turned(0x7d632dd0, 0x8bf025c4, 0xa67e3a5f, 0x85845dd1, 0x00000000, 21) == 0x3bfa2c27
  {
  }

  lemma Steps56(block: seq<Byte>)
    requires IsAbc(block)
    ensures |block| == 64 && Steps(START, block, 56) == Words(0x06cc5e8a, 0x3bfa2c27, 0x7d632dd0, 0x5b0d97aa)
  {
    hide WordAt, Steps, IsAbc, K, S, Mix, Turned;
    WordsOfAbc(block);
    Table48();
    Values48();
    Steps48(block);
    Turn(block, 48, Words(0x7f2e507b, 0x7beb9700, 0x8fae6399, 0x99d9679d), 0xf041fcfb, 0xf4292244, 6, 0x80636261, 0x7b201df8);
    Turn(block, 49, Words(0x99d9679d, 0x7b201df8, 0x7beb9700, 0x8fae6399), 0x009a0afe, 0x432aff97, 10, 0x00000000, 0xf4e8e96e);
    Turn(block, 50, Words(0x8fae6399, 0xf4e8e96e, 0x7b201df8, 0x7beb9700), 0x8fdcf407, 0xab9423a7, 15, 0x00000018, 0xb298cefd);
    Turn(block, 51, Words(0x7beb9700, 0xb298cefd, 0xf4e8e96e, 0x7b201df8), 0x42370791, 0xfc93a039, 21, 0x00000000, 0x8bf025c4);
    Turn(block, 52, Words(0x7b201df8, 0x8bf025c4, 0xb298cefd, 0xf4e8e96e), 0x396ff928, 0x655b59c3, 6, 0x00000000, 0x06cc5e8a);
    Turn(block, 53, Words(0xf4e8e96e, 0x06cc5e8a, 0x8bf025c4, 0xb298cefd), 0xc41f5a4e, 0x8f0ccc92, 10, 0x00000000, 0x5b0d97aa);
    Turn(block, 54, Words(0xb298cefd, 0x5b0d97aa, 0x06cc5e8a, 0x8bf025c4), 0x79c38131, 0xffeff47d, 15, 0x00000000, 0x7d632dd0);
    Turn(block, 55, Words(0x8bf025c4, 0x7d632dd0, 0x5b0d97aa, 0x06cc5e8a), 0xa67e3a5f, 0x85845dd1, 21, 0x00000000, 0x3bfa2c27);
  }

  lemma Table56()
    ensures K[56] == 0x6fa87e4f && K[57] == 0xfe2ce6e0 && K[58] == 0xa3014314 && K[59] == 0x4e0811a1
    ensures K[60] == 0xf7537e82 && K[61] == 0xbd3af235 && K[62] == 0x2ad7d2bb && K[63] == 0xeb86d391
    ensures S[56] == 6 && S[57] == 10 && S[58] == 15 && S[59] == 21 && S[60] == 6 && S[61] == 10 && S[62] == 15 && S[63] == 21
  {
  }

  lemma Values56()
    ensures Mix(56, Words(0x06cc5e8a, 0x3bfa2c27, 0x7d632dd0, 0x5b0d97aa)) == 0xc29941a7
    ensures Turned(0x3bfa2c27, 0x06cc5e8a, 0xc29941a7, 0x6fa87e4f, 0x00000000, 6) == 0x7f81cc35
    ensures Mix(57, Words(0x5b0d97aa, 0x7f81cc35, 0x3bfa2c27, 0x7d632dd0)) == 0xc467f218
    ensures Turned(0x7f81cc35, 0x5b0d97aa, 0xc467f218, 0xfe2ce6e0, 0x00000000, 10) == 0x094454ab
    ensures Mix(58, Words(0x7d632dd0, 0x094454ab, 0x7f81cc35, 0x3bfa2c27)) == 0xb2c41bce
    ensures Turned(0x094454ab, 0x7d632dd0, 0xb2c41bce, 0xa3014314, 0x00000000, 15) == 0x4f9dbe3f
    ensures Mix(59, Words(0x3bfa2c27, 0x4f9dbe3f, 0x094454ab, 0x7f81cc35)) == 0xc6bbeb54
    ensures Turned(0x4f9dbe3f, 0x3bfa2c27, 0xc6bbeb54, 0x4e0811a1, 0x00000000, 21) == 0x7327d604
    ensures Mix(60, Words(0x7f81cc35, 0x7327d604, 0x4f9dbe3f, 0x094454ab)) == 0xb822416b
    ensures Turned(0x7327d604, 0x7f81cc35, 0xb822416b, 0xf7537e82, 0x00000000, 6) == 0x310ade8f
    ensures Mix(61, Words(0x094454ab, 0x310ade8f, 0x7327d604, 0x4f9dbe3f)) == 0xc24d09cb
    ensures Turned(0x310ade8f, 0x094454ab, 0xc24d09cb, 0xbd3af235, 0x00000000, 10) == 0x624d8cb2
    ensures Mix(62, Words(0x4f9dbe3f, 0x624d8cb2, 0x310ade8f, 0x7327d604)) == 0xdfd77374
    ensures Turned(0x624d8cb2, 0x4f9dbe3f, 0xdfd77374, 0x2ad7d2bb, 0x00000000, 15) == 0xe484b9d8
    ensures Mix(63, Words(0x7327d604, 0xe484b9d8, 0x624d8cb2, 0x310ade8f)) == 0x8cb8354a
    ensures Turned(0xe484b9d8, 0x7327d604, 0x8cb8354a, 0xeb86d391, 0x00000000, 21) == 0xc08226b3
  {
  }

  lemma Steps64(block: seq<Byte>)
    requires IsAbc(block)
    ensures |block| == 64 && Steps(START, block, 64) == Words(0x310ade8f, 0xc08226b3, 0xe484b9d8, 0x624d8cb2)
  {
    hide WordAt, Steps, IsAbc, K, S, Mix, Turned;
    WordsOfAbc(block);
    Table56();
    Values56();
    Steps56(block);
    Turn(block, 56, Words(0x06cc5e8a, 0x3bfa2c27, 0x7d632dd0, 0x5b0d97aa), 0xc29941a7, 0x6fa87e4f, 6, 0x00000000, 0x7f81cc35);
    Turn(block, 57, Words(0x5b0d97aa, 0x7f81cc35, 0x3bfa2c27, 0x7d632dd0), 0xc467f218, 0xfe2ce6e0, 10, 0x00000000, 0x094454ab);
    Turn(block, 58, Words(0x7d632dd0, 0x094454ab, 0x7f81cc35, 0x3bfa2c27), 0xb2c41bce, 0xa3014314, 15, 0x00000000, 0x4f9dbe3f);
    Turn(block, 59, Words(0x3bfa2c27, 0x4f9dbe3f, 0x094454ab, 0x7f81cc35), 0xc6bbeb54, 0x4e0811a1, 21, 0x00000000, 0x7327d604);
    Turn(block, 60, Words(0x7f81cc35, 0x7327d604, 0x4f9dbe3f, 0x094454ab), 0xb822416b, 0xf7537e82, 6, 0x00000000, 0x310ade8f);
    Turn(block, 61, Words(0x094454ab, 0x310ade8f, 0x7327d604, 0x4f9dbe3f), 0xc24d09cb, 0xbd3af235, 10, 0x00000000, 0x624d8cb2);
    Turn(block, 62, Words(0x4f9dbe3f, 0x624d8cb2, 0x310ade8f, 0x7327d604), 0xdfd77374, 0x2ad7d2bb, 15, 0x00000000, 0xe484b9d8);
    Turn(block, 63, Words(0x7327d604, 0xe484b9d8, 0x624d8cb2, 0x310ade8f), 0x8cb8354a, 0xeb86d391, 21, 0x00000000, 0xc08226b3);
  }

  lemma CompressedAbc(block: seq<Byte>)
    requires IsAbc(block)
    ensures |block| == 64 && Compress(START, block) == Words(0x98500190, 0xb04fd23c, 0x7d3f96d6, 0x727fe128)
  {
    hide Steps;
    Steps64(block);
  }

  lemma SpelledOut(ws: seq<Word>)
    requires |ws| == 4
    ensures Spell(ws) == StoreLittle(ws[0]) + StoreLittle(ws[1]) + StoreLittle(ws[2]) + StoreLittle(ws[3])
  {
    hide StoreLittle;
    forall i | 0 <= i < 4 ensures Spell(ws[..i + 1]) == Spell(ws[..i]) + StoreLittle(ws[i]) {
      assert ws[..i + 1][..i] == ws[..i];
    }
    assert ws[..0] == [] && ws[..4] == ws;
    assert Spell(ws[..1]) == StoreLittle(ws[0]);
  }

  /** The digest of "abc" is the one that the standard publishes. */
  lemma HashOfAbc()
    ensures Hash(ABC) ==
            [0x90, 0x01, 0x50, 0x98, 0x3c, 0xd2, 0x4f, 0xb0, 0xd6, 0x96, 0x3f, 0x7d, 0x28, 0xe1, 0x7f, 0x72]
  {
    hide Pad, Compress, Spell, IsAbc;
    var block := Pad(ABC);
    AbcIsPadded();
    CompressedAbc(block);
    OneBlock(Compress, START, block);
    SpelledOut(Listed(Words(0x98500190, 0xb04fd23c, 0x7d3f96d6, 0x727fe128)));
  }
}
