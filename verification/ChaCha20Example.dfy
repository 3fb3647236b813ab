/** The example of section 2.3.2 of RFC 8439, worked through by the model: key 00 to 1f, counter 1. */
module ChaCha20Example {
  import opened Bytes
  import opened ChaCha20

  const KEY: seq<Byte> :=
    [0x00, 0x01, 0x02, 0x03, 0x04, 0x05, 0x06, 0x07] + [0x08, 0x09, 0x0a, 0x0b, 0x0c, 0x0d, 0x0e, 0x0f] +
    [0x10, 0x11, 0x12, 0x13, 0x14, 0x15, 0x16, 0x17] + [0x18, 0x19, 0x1a, 0x1b, 0x1c, 0x1d, 0x1e, 0x1f]

  const NONCE: seq<Byte> := [0x00, 0x00, 0x00, 0x09, 0x00, 0x00, 0x00, 0x4a, 0x00, 0x00, 0x00, 0x00]

  lemma Sizes()
    ensures |KEY| == 32 && |NONCE| == 12
  {
  }

  lemma QuarterIs(x: Sixteen, i: nat, j: nat, k: nat, l: nat, q: Four)
    requires Places(i, j, k, l) && Quarter(Four(x[i], x[j], x[k], x[l])) == q
    ensures forall m :: 0 <= m < 16 ==>
              QuarterAt(x, i, j, k, l)[m] == (if m == i then q.a else if m == j then q.b else if m == k then q.c else if m == l then q.d else x[m])
  {
    hide Quarter;
  }

  lemma ColumnsAre(x: Sixteen, y1: Sixteen, y2: Sixteen, y3: Sixteen, y: Sixteen, p0: Four, p1: Four, p2: Four, p3: Four)
    requires Quarter(Four(x[0], x[4], x[8], x[12])) == p0 && Quarter(Four(x[1], x[5], x[9], x[13])) == p1
    requires Quarter(Four(x[2], x[6], x[10], x[14])) == p2 && Quarter(Four(x[3], x[7], x[11], x[15])) == p3
    requires y1 == QuarterAt(x, 0, 4, 8, 12) && y2 == QuarterAt(y1, 1, 5, 9, 13)
    requires y3 == QuarterAt(y2, 2, 6, 10, 14) && y == QuarterAt(y3, 3, 7, 11, 15)
    ensures y[0] == p0.a && y[1] == p1.a && y[2] == p2.a && y[3] == p3.a
    ensures y[4] == p0.b && y[5] == p1.b && y[6] == p2.b && y[7] == p3.b
    ensures y[8] == p0.c && y[9] == p1.c && y[10] == p2.c && y[11] == p3.c
    ensures y[12] == p0.d && y[13] == p1.d && y[14] == p2.d && y[15] == p3.d
  {
    hide Quarter, QuarterAt;
    QuarterIs(x, 0, 4, 8, 12, p0);
    QuarterIs(y1, 1, 5, 9, 13, p1);
    QuarterIs(y2, 2, 6, 10, 14, p2);
    QuarterIs(y3, 3, 7, 11, 15, p3);
  }

  lemma DiagonalsAre(x: Sixteen, y1: Sixteen, y2: Sixteen, y3: Sixteen, y: Sixteen, q0: Four, q1: Four, q2: Four, q3: Four)
    requires Quarter(Four(x[0], x[5], x[10], x[15])) == q0 && Quarter(Four(x[1], x[6], x[11], x[12])) == q1
    requires Quarter(Four(x[2], x[7], x[8], x[13])) == q2 && Quarter(Four(x[3], x[4], x[9], x[14])) == q3
    requires y1 == QuarterAt(x, 0, 5, 10, 15) && y2 == QuarterAt(y1, 1, 6, 11, 12)
    requires y3 == QuarterAt(y2, 2, 7, 8, 13) && y == QuarterAt(y3, 3, 4, 9, 14)
    ensures y[0] == q0.a && y[1] == q1.a && y[2] == q2.a && y[3] == q3.a
    ensures y[4] == q3.b && y[5] == q0.b && y[6] == q1.b && y[7] == q2.b
    ensures y[8] == q2.c && y[9] == q3.c && y[10] == q0.c && y[11] == q1.c
    ensures y[12] == q1.d && y[13] == q2.d && y[14] == q3.d && y[15] == q0.d
  {
    hide Quarter, QuarterAt;
    QuarterIs(x, 0, 5, 10, 15, q0);
    QuarterIs(y1, 1, 6, 11, 12, q1);
    QuarterIs(y2, 2, 7, 8, 13, q2);
    QuarterIs(y3, 3, 4, 9, 14, q3);
  }

  /** A double round, from its eight quarter rounds. */
  lemma DoubleIs(x: Sixteen, p0: Four, p1: Four, p2: Four, p3: Four, q0: Four, q1: Four, q2: Four, q3: Four)
    requires Quarter(Four(x[0], x[4], x[8], x[12])) == p0 && Quarter(Four(x[1], x[5], x[9], x[13])) == p1
    requires Quarter(Four(x[2], x[6], x[10], x[14])) == p2 && Quarter(Four(x[3], x[7], x[11], x[15])) == p3
    requires Quarter(Four(p0.a, p1.b, p2.c, p3.d)) == q0 && Quarter(Four(p1.a, p2.b, p3.c, p0.d)) == q1
    requires Quarter(Four(p2.a, p3.b, p0.c, p1.d)) == q2 && Quarter(Four(p3.a, p0.b, p1.c, p2.d)) == q3
    ensures DoubleRound(x) == [q0.a, q1.a, q2.a, q3.a, q3.b, q0.b, q1.b, q2.b, q2.c, q3.c, q0.c, q1.c, q1.d, q2.d, q3.d, q0.d]
  {
    hide Quarter, QuarterAt;
    var y1 := QuarterAt(x, 0, 4, 8, 12);
    var y2 := QuarterAt(y1, 1, 5, 9, 13);
    var y3 := QuarterAt(y2, 2, 6, 10, 14);
    var y := QuarterAt(y3, 3, 7, 11, 15);
    ColumnsAre(x, y1, y2, y3, y, p0, p1, p2, p3);
    var z1 := QuarterAt(y, 0, 5, 10, 15);
    var z2 := QuarterAt(z1, 1, 6, 11, 12);
    var z3 := QuarterAt(z2, 2, 7, 8, 13);
    DiagonalsAre(y, z1, z2, z3, QuarterAt(z3, 3, 4, 9, 14), q0, q1, q2, q3);
    Displayed(DoubleRound(x));
  }

  lemma Displayed(y: Sixteen)
    ensures y == [y[0], y[1], y[2], y[3], y[4], y[5], y[6], y[7], y[8], y[9], y[10], y[11], y[12], y[13], y[14], y[15]]
  {
  }

  lemma Quarters0()
    ensures Quarter(Four(0x61707865, 0x03020100, 0x13121110, 0x00000001)) == Four(0xabbaa25c, 0x3a465196, 0x6b3ca454, 0xdec62ed2)
    ensures Quarter(Four(0x3320646e, 0x07060504, 0x17161514, 0x09000000)) == Four(0x1efa51ea, 0x1c7e64f6, 0x08eb14b1, 0x8862cc77)
    ensures Quarter(Four(0x79622d32, 0x0b0a0908, 0x1b1a1918, 0x4a000000)) == Four(0x7354fbdf, 0xb12fb628, 0xbf8a9ac9, 0x6e35b345)
    ensures Quarter(Four(0x6b206574, 0x0f0e0d0c, 0x1f1e1d1c, 0x00000000)) == Four(0x83d2dc69, 0xf05b6976, 0xe444df3b, 0x52a647f1)
    ensures Quarter(Four(0xabbaa25c, 0x1c7e64f6, 0xbf8a9ac9, 0x52a647f1)) == Four(0xcd52e917, 0x5c2e187a, 0xf1a1bdf5, 0xf173888d)
    ensures Quarter(Four(0x1efa51ea, 0xb12fb628, 0xe444df3b, 0xdec62ed2)) == Four(0x85ab03b4, 0xc95eb461, 0x761246ca, 0x6b0d58a3)
    ensures Quarter(Four(0x7354fbdf, 0xf05b6976, 0x6b3ca454, 0x8862cc77)) == Four(0xb3457395, 0x316c801a, 0x7bf7d740, 0x6798471a)
    ensures Quarter(Four(0x83d2dc69, 0x3a465196, 0x08eb14b1, 0x6e35b345)) == Four(0xf96de7dd, 0xc4b7cd22, 0x7eddd644, 0xd737f167)
  {
  }

  lemma Round0()
    ensures DoubleRound([0x61707865, 0x3320646e, 0x79622d32, 0x6b206574, 0x03020100, 0x07060504, 0x0b0a0908, 0x0f0e0d0c,
                         0x13121110, 0x17161514, 0x1b1a1918, 0x1f1e1d1c, 0x00000001, 0x09000000, 0x4a000000, 0x00000000]) ==
            [0xcd52e917, 0x85ab03b4, 0xb3457395, 0xf96de7dd, 0xc4b7cd22, 0x5c2e187a, 0xc95eb461, 0x316c801a,
             0x7bf7d740, 0x7eddd644, 0xf1a1bdf5, 0x761246ca, 0x6b0d58a3, 0x6798471a, 0xd737f167, 0xf173888d]
  {
    hide Quarter, DoubleRound;
    Quarters0();
    DoubleIs([0x61707865, 0x3320646e, 0x79622d32, 0x6b206574, 0x03020100, 0x07060504, 0x0b0a0908, 0x0f0e0d0c,
              0x13121110, 0x17161514, 0x1b1a1918, 0x1f1e1d1c, 0x00000001, 0x09000000, 0x4a000000, 0x00000000],
             Four(0xabbaa25c, 0x3a465196, 0x6b3ca454, 0xdec62ed2), Four(0x1efa51ea, 0x1c7e64f6, 0x08eb14b1, 0x8862cc77),
             Four(0x7354fbdf, 0xb12fb628, 0xbf8a9ac9, 0x6e35b345), Four(0x83d2dc69, 0xf05b6976, 0xe444df3b, 0x52a647f1),
             Four(0xcd52e917, 0x5c2e187a, 0xf1a1bdf5, 0xf173888d), Four(0x85ab03b4, 0xc95eb461, 0x761246ca, 0x6b0d58a3),
             Four(0xb3457395, 0x316c801a, 0x7bf7d740, 0x6798471a), Four(0xf96de7dd, 0xc4b7cd22, 0x7eddd644, 0xd737f167));
  }

  lemma Quarters1()
    ensures Quarter(Four(0xcd52e917, 0xc4b7cd22, 0x7bf7d740, 0x6b0d58a3)) == Four(0xe3e1111b, 0xd65b5b5b, 0xe67aec54, 0x7be81c0d)
    ensures Quarter(Four(0x85ab03b4, 0x5c2e187a, 0x7eddd644, 0x6798471a)) == Four(0xa6291491, 0xf56af099, 0xf7a52d82, 0x1d92d0fd)
    ensures Quarter(Four(0xb3457395, 0xc95eb461, 0xf1a1bdf5, 0xd737f167)) == Four(0x5a82b80c, 0x4ccc8103, 0xdb470914, 0x13139f8c)
    ensures Quarter(Four(0xf96de7dd, 0x316c801a, 0x761246ca, 0xf173888d)) == Four(0x4500fd45, 0xc94d29e2, 0xdfb40f1d, 0x7a26ecaa)
    ensures Quarter(Four(0xe3e1111b, 0xf56af099, 0xdb470914, 0x7a26ecaa)) == Four(0xcf1a7584, 0x7974b81c, 0xcd3c9aa0, 0x04d6ee22)
    ensures Quarter(Four(0xa6291491, 0x4ccc8103, 0xdfb40f1d, 0x7be81c0d)) == Four(0x048927ec, 0x378dcfb4, 0x79fc89c7, 0x10aef18d)
    ensures Quarter(Four(0x5a82b80c, 0xc94d29e2, 0xe67aec54, 0x1d92d0fd)) == Four(0x54051fda, 0xcd47fd0e, 0x2dafb216, 0x16218765)
    ensures Quarter(Four(0x4500fd45, 0xd65b5b5b, 0xf7a52d82, 0x13139f8c)) == Four(0xc244ff28, 0x901d2f40, 0x27c89cd6, 0x68f76705)
  {
  }

  lemma Round1()
    ensures DoubleRound([0xcd52e917, 0x85ab03b4, 0xb3457395, 0xf96de7dd, 0xc4b7cd22, 0x5c2e187a, 0xc95eb461, 0x316c801a,
                         0x7bf7d740, 0x7eddd644, 0xf1a1bdf5, 0x761246ca, 0x6b0d58a3, 0x6798471a, 0xd737f167, 0xf173888d]) ==
            [0xcf1a7584, 0x048927ec, 0x54051fda, 0xc244ff28, 0x901d2f40, 0x7974b81c, 0x378dcfb4, 0xcd47fd0e,
             0x2dafb216, 0x27c89cd6, 0xcd3c9aa0, 0x79fc89c7, 0x10aef18d, 0x16218765, 0x68f76705, 0x04d6ee22]
  {
    hide Quarter, DoubleRound;
    Quarters1();
    DoubleIs([0xcd52e917, 0x85ab03b4, 0xb3457395, 0xf96de7dd, 0xc4b7cd22, 0x5c2e187a, 0xc95eb461, 0x316c801a,
              0x7bf7d740, 0x7eddd644, 0xf1a1bdf5, 0x761246ca, 0x6b0d58a3, 0x6798471a, 0xd737f167, 0xf173888d],
             Four(0xe3e1111b, 0xd65b5b5b, 0xe67aec54, 0x7be81c0d), Four(0xa6291491, 0xf56af099, 0xf7a52d82, 0x1d92d0fd),
             Four(0x5a82b80c, 0x4ccc8103, 0xdb470914, 0x13139f8c), Four(0x4500fd45, 0xc94d29e2, 0xdfb40f1d, 0x7a26ecaa),
             Four(0xcf1a7584, 0x7974b81c, 0xcd3c9aa0, 0x04d6ee22), Four(0x048927ec, 0x378dcfb4, 0x79fc89c7, 0x10aef18d),
             Four(0x54051fda, 0xcd47fd0e, 0x2dafb216, 0x16218765), Four(0xc244ff28, 0x901d2f40, 0x27c89cd6, 0x68f76705));
  }

  lemma Quarters2()
    ensures Quarter(Four(0xcf1a7584, 0x901d2f40, 0x2dafb216, 0x10aef18d)) == Four(0xa22695f2, 0x1ece4458, 0xf2d36da6, 0x6fda6bf7)
    ensures Quarter(Four(0x048927ec, 0x7974b81c, 0x27c89cd6, 0x16218765)) == Four(0xa908cf6c, 0xe82b726f, 0xf4dab980, 0x65a4b0ce)
    ensures Quarter(Four(0x54051fda, 0x378dcfb4, 0xcd3c9aa0, 0x68f76705)) == Four(0xe6ae05b2, 0x5a21ab90, 0x7baf5573, 0x25e6d76e)
    ensures Quarter(Four(0xc244ff28, 0xcd47fd0e, 0x79fc89c7, 0x04d6ee22)) == Four(0xfe0ff04b, 0x87698c64, 0xa78c270d, 0x1b7b11ec)
    ensures Quarter(Four(0xa22695f2, 0xe82b726f, 0x7baf5573, 0x1b7b11ec)) == Four(0x03a14032, 0xa09b33dd, 0xc20e01b6, 0x2cd11b1a)
    ensures Quarter(Four(0xa908cf6c, 0x5a21ab90, 0xa78c270d, 0x6fda6bf7)) == Four(0x66b15927, 0xa5daaf88, 0x72cd6b74, 0xba35d777)
    ensures Quarter(Four(0xe6ae05b2, 0x87698c64, 0xf2d36da6, 0x65a4b0ce)) == Four(0x9d6b6b42, 0x2fd91a73, 0xc90c6b18, 0xb360f1bf)
    ensures Quarter(Four(0xfe0ff04b, 0x1ece4458, 0xf4dab980, 0x25e6d76e)) == Four(0xb84c4109, 0xa7143ae0, 0x5a202413, 0x8178315b)
  {
  }

  lemma Round2()
    ensures DoubleRound([0xcf1a7584, 0x048927ec, 0x54051fda, 0xc244ff28, 0x901d2f40, 0x7974b81c, 0x378dcfb4, 0xcd47fd0e,
                         0x2dafb216, 0x27c89cd6, 0xcd3c9aa0, 0x79fc89c7, 0x10aef18d, 0x16218765, 0x68f76705, 0x04d6ee22]) ==
            [0x03a14032, 0x66b15927, 0x9d6b6b42, 0xb84c4109, 0xa7143ae0, 0xa09b33dd, 0xa5daaf88, 0x2fd91a73,
             0xc90c6b18, 0x5a202413, 0xc20e01b6, 0x72cd6b74, 0xba35d777, 0xb360f1bf, 0x8178315b, 0x2cd11b1a]
  {
    hide Quarter, DoubleRound;
    Quarters2();
    DoubleIs([0xcf1a7584, 0x048927ec, 0x54051fda, 0xc244ff28, 0x901d2f40, 0x7974b81c, 0x378dcfb4, 0xcd47fd0e,
              0x2dafb216, 0x27c89cd6, 0xcd3c9aa0, 0x79fc89c7, 0x10aef18d, 0x16218765, 0x68f76705, 0x04d6ee22],
             Four(0xa22695f2, 0x1ece4458, 0xf2d36da6, 0x6fda6bf7), Four(0xa908cf6c, 0xe82b726f, 0xf4dab980, 0x65a4b0ce),
             Four(0xe6ae05b2, 0x5a21ab90, 0x7baf5573, 0x25e6d76e), Four(0xfe0ff04b, 0x87698c64, 0xa78c270d, 0x1b7b11ec),
             Four(0x03a14032, 0xa09b33dd, 0xc20e01b6, 0x2cd11b1a), Four(0x66b15927, 0xa5daaf88, 0x72cd6b74, 0xba35d777),
             Four(0x9d6b6b42, 0x2fd91a73, 0xc90c6b18, 0xb360f1bf), Four(0xb84c4109, 0xa7143ae0, 0x5a202413, 0x8178315b));
  }

  lemma Quarters3()
    ensures Quarter(Four(0x03a14032, 0xa7143ae0, 0xc90c6b18, 0xba35d777)) == Four(0xfecd0838, 0xcedf6624, 0x1d8a33ea, 0xa818b852)
    ensures Quarter(Four(0x66b15927, 0xa09b33dd, 0x5a202413, 0xb360f1bf)) == Four(0x160ab468, 0xb11de6c4, 0x87dc1ca9, 0xb100446a)
    ensures Quarter(Four(0x9d6b6b42, 0xa5daaf88, 0xc20e01b6, 0x8178315b)) == Four(0x9a0ddf4e, 0xbd7810ef, 0x89bd34a5, 0x9c1d70b1)
    ensures Quarter(Four(0xb84c4109, 0x2fd91a73, 0x72cd6b74, 0x2cd11b1a)) == Four(0xbac7154a, 0xd22b5643, 0x5505ef62, 0xa1d1befa)
    ensures Quarter(Four(0xfecd0838, 0xb11de6c4, 0x89bd34a5, 0xa1d1befa)) == Four(0x9a2d3589, 0x5e5993f7, 0x04fef5aa, 0x2b3bb2ca)
    ensures Quarter(Four(0x160ab468, 0xbd7810ef, 0x5505ef62, 0xa818b852)) == Four(0x0b23fc4e, 0x9904c2e7, 0xf8933f72, 0x2687d476)
    ensures Quarter(Four(0x9a0ddf4e, 0xd22b5643, 0x1d8a33ea, 0xb100446a)) == Four(0x40af3b6b, 0x0d334718, 0xe46c6354, 0x54e65231)
    ensures Quarter(Four(0xbac7154a, 0xcedf6624, 0x87dc1ca9, 0x9c1d70b1)) == Four(0xceea8144, 0x0a1bffc6, 0xc9503229, 0x3594ffc5)
  {
  }

  lemma Round3()
    ensures DoubleRound([0x03a14032, 0x66b15927, 0x9d6b6b42, 0xb84c4109, 0xa7143ae0, 0xa09b33dd, 0xa5daaf88, 0x2fd91a73,
                         0xc90c6b18, 0x5a202413, 0xc20e01b6, 0x72cd6b74, 0xba35d777, 0xb360f1bf, 0x8178315b, 0x2cd11b1a]) ==
            [0x9a2d3589, 0x0b23fc4e, 0x40af3b6b, 0xceea8144, 0x0a1bffc6, 0x5e5993f7, 0x9904c2e7, 0x0d334718,
             0xe46c6354, 0xc9503229, 0x04fef5aa, 0xf8933f72, 0x2687d476, 0x54e65231, 0x3594ffc5, 0x2b3bb2ca]
  {
    hide Quarter, DoubleRound;
    Quarters3();
    DoubleIs([0x03a14032, 0x66b15927, 0x9d6b6b42, 0xb84c4109, 0xa7143ae0, 0xa09b33dd, 0xa5daaf88, 0x2fd91a73,
              0xc90c6b18, 0x5a202413, 0xc20e01b6, 0x72cd6b74, 0xba35d777, 0xb360f1bf, 0x8178315b, 0x2cd11b1a],
             Four(0xfecd0838, 0xcedf6624, 0x1d8a33ea, 0xa818b852), Four(0x160ab468, 0xb11de6c4, 0x87dc1ca9, 0xb100446a),
             Four(0x9a0ddf4e, 0xbd7810ef, 0x89bd34a5, 0x9c1d70b1), Four(0xbac7154a, 0xd22b5643, 0x5505ef62, 0xa1d1befa),
             Four(0x9a2d3589, 0x5e5993f7, 0x04fef5aa, 0x2b3bb2ca), Four(0x0b23fc4e, 0x9904c2e7, 0xf8933f72, 0x2687d476),
             Four(0x40af3b6b, 0x0d334718, 0xe46c6354, 0x54e65231), Four(0xceea8144, 0x0a1bffc6, 0xc9503229, 0x3594ffc5));
  }

  lemma Quarters4()
    ensures Quarter(Four(0x9a2d3589, 0x0a1bffc6, 0xe46c6354, 0x2687d476)) == Four(0x85e7824a, 0x1c133ea1, 0xa3a66a86, 0xde008464)
    ensures Quarter(Four(0x0b23fc4e, 0x5e5993f7, 0xc9503229, 0x54e65231)) == Four(0x4940cd9e, 0xbba40b0f, 0xc0b4754f, 0x34f0058b)
    ensures Quarter(Four(0x40af3b6b, 0x9904c2e7, 0x04fef5aa, 0x3594ffc5)) == Four(0xfbe7684b, 0x9413992a, 0x771b4ecb, 0x70846cfa)
    ensures Quarter(Four(0xceea8144, 0x0d334718, 0xf8933f72, 0x2b3bb2ca)) == Four(0x7335d03d, 0xa4ab2040, 0x165151a1, 0xa3271b09)
    ensures Quarter(Four(0x85e7824a, 0xbba40b0f, 0x771b4ecb, 0xa3271b09)) == Four(0xc53318c5, 0x6088d379, 0x71669aca, 0x63fa6953)
    ensures Quarter(Four(0x4940cd9e, 0x9413992a, 0x165151a1, 0xde008464)) == Four(0xca325d96, 0xc0f0e9bd, 0x975c171d, 0x9e5ec228)
    ensures Quarter(Four(0xfbe7684b, 0xa4ab2040, 0xa3a66a86, 0x34f0058b)) == Four(0x7e7d11cb, 0xe310cdb9, 0xae2ca8db, 0x7d85a9f3)
    ensures Quarter(Four(0x7335d03d, 0x1c133ea1, 0xc0b4754f, 0x70846cfa)) == Four(0x3404e2ca, 0x26d7cf73, 0x42f67c72, 0x201d0756)
  {
  }

  lemma Round4()
    ensures DoubleRound([0x9a2d3589, 0x0b23fc4e, 0x40af3b6b, 0xceea8144, 0x0a1bffc6, 0x5e5993f7, 0x9904c2e7, 0x0d334718,
                         0xe46c6354, 0xc9503229, 0x04fef5aa, 0xf8933f72, 0x2687d476, 0x54e65231, 0x3594ffc5, 0x2b3bb2ca]) ==
            [0xc53318c5, 0xca325d96, 0x7e7d11cb, 0x3404e2ca, 0x26d7cf73, 0x6088d379, 0xc0f0e9bd, 0xe310cdb9,
             0xae2ca8db, 0x42f67c72, 0x71669aca, 0x975c171d, 0x9e5ec228, 0x7d85a9f3, 0x201d0756, 0x63fa6953]
  {
    hide Quarter, DoubleRound;
    Quarters4();
    DoubleIs([0x9a2d3589, 0x0b23fc4e, 0x40af3b6b, 0xceea8144, 0x0a1bffc6, 0x5e5993f7, 0x9904c2e7, 0x0d334718,
              0xe46c6354, 0xc9503229, 0x04fef5aa, 0xf8933f72, 0x2687d476, 0x54e65231, 0x3594ffc5, 0x2b3bb2ca],
             Four(0x85e7824a, 0x1c133ea1, 0xa3a66a86, 0xde008464), Four(0x4940cd9e, 0xbba40b0f, 0xc0b4754f, 0x34f0058b),
             Four(0xfbe7684b, 0x9413992a, 0x771b4ecb, 0x70846cfa), Four(0x7335d03d, 0xa4ab2040, 0x165151a1, 0xa3271b09),
             Four(0xc53318c5, 0x6088d379, 0x71669aca, 0x63fa6953), Four(0xca325d96, 0xc0f0e9bd, 0x975c171d, 0x9e5ec228),
             Four(0x7e7d11cb, 0xe310cdb9, 0xae2ca8db, 0x7d85a9f3), Four(0x3404e2ca, 0x26d7cf73, 0x42f67c72, 0x201d0756));
  }

  lemma Quarters5()
    ensures Quarter(Four(0xc53318c5, 0x26d7cf73, 0xae2ca8db, 0x9e5ec228)) == Four(0x9950b826, 0x2121065a, 0x19078de2, 0x40ca72b3)
    ensures Quarter(Four(0xca325d96, 0x6088d379, 0x42f67c72, 0x7d85a9f3)) == Four(0xcac7ccc6, 0xc12bdadb, 0x178ecc02, 0x3b9bf852)
    ensures Quarter(Four(0x7e7d11cb, 0xc0f0e9bd, 0x71669aca, 0x201d0756)) == Four(0x84a67673, 0xcae3acd1, 0xe6adbdb2, 0x78690378)
    ensures Quarter(Four(0x3404e2ca, 0xe310cdb9, 0x975c171d, 0x63fa6953)) == Four(0xdb3109a6, 0x594616cb, 0x52a9d50e, 0xe17d4902)
    ensures Quarter(Four(0x9950b826, 0xc12bdadb, 0xe6adbdb2, 0xe17d4902)) == Four(0x04a3131a, 0xbf8a4465, 0x61599491, 0xa0a81bde)
    ensures Quarter(Four(0xcac7ccc6, 0xcae3acd1, 0x52a9d50e, 0x40ca72b3)) == Four(0x66176309, 0xf77dd720, 0x918512dc, 0x33b6686d)
    ensures Quarter(Four(0x84a67673, 0x594616cb, 0x19078de2, 0x3b9bf852)) == Four(0x0415bab1, 0xfc0bdc90, 0x07d13aca, 0x795cc671)
    ensures Quarter(Four(0xdb3109a6, 0x2121065a, 0x178ecc02, 0x78690378)) == Four(0x61b880a2, 0x36cc86c7, 0xeb0be9af, 0xc0049972)
  {
  }

  lemma Round5()
    ensures DoubleRound([0xc53318c5, 0xca325d96, 0x7e7d11cb, 0x3404e2ca, 0x26d7cf73, 0x6088d379, 0xc0f0e9bd, 0xe310cdb9,
                         0xae2ca8db, 0x42f67c72, 0x71669aca, 0x975c171d, 0x9e5ec228, 0x7d85a9f3, 0x201d0756, 0x63fa6953]) ==
            [0x04a3131a, 0x66176309, 0x0415bab1, 0x61b880a2, 0x36cc86c7, 0xbf8a4465, 0xf77dd720, 0xfc0bdc90,
             0x07d13aca, 0xeb0be9af, 0x61599491, 0x918512dc, 0x33b6686d, 0x795cc671, 0xc0049972, 0xa0a81bde]
  {
    hide Quarter, DoubleRound;
    Quarters5();
    DoubleIs([0xc53318c5, 0xca325d96, 0x7e7d11cb, 0x3404e2ca, 0x26d7cf73, 0x6088d379, 0xc0f0e9bd, 0xe310cdb9,
              0xae2ca8db, 0x42f67c72, 0x71669aca, 0x975c171d, 0x9e5ec228, 0x7d85a9f3, 0x201d0756, 0x63fa6953],
             Four(0x9950b826, 0x2121065a, 0x19078de2, 0x40ca72b3), Four(0xcac7ccc6, 0xc12bdadb, 0x178ecc02, 0x3b9bf852),
             Four(0x84a67673, 0xcae3acd1, 0xe6adbdb2, 0x78690378), Four(0xdb3109a6, 0x594616cb, 0x52a9d50e, 0xe17d4902),
             Four(0x04a3131a, 0xbf8a4465, 0x61599491, 0xa0a81bde), Four(0x66176309, 0xf77dd720, 0x918512dc, 0x33b6686d),
             Four(0x0415bab1, 0xfc0bdc90, 0x07d13aca, 0x795cc671), Four(0x61b880a2, 0x36cc86c7, 0xeb0be9af, 0xc0049972));
  }

  lemma Quarters6()
    ensures Quarter(Four(0x04a3131a, 0x36cc86c7, 0x07d13aca, 0x33b6686d)) == Four(0x57c5e6da, 0x8e85d82f, 0x434b4749, 0x49ee03a6)
    ensures Quarter(Four(0x66176309, 0xbf8a4465, 0xeb0be9af, 0x795cc671)) == Four(0x35ce46a8, 0xb4819d06, 0x1d459c00, 0xd11a5554)
    ensures Quarter(Four(0x0415bab1, 0xf77dd720, 0x61599491, 0xc0049972)) == Four(0x0c041bb9, 0xb63be200, 0x111cfe2c, 0xa7202e04)
    ensures Quarter(Four(0x61b880a2, 0xfc0bdc90, 0x918512dc, 0xa0a81bde)) == Four(0xfa91df79, 0xacd221e4, 0x55942604, 0x7d2215bc)
    ensures Quarter(Four(0x57c5e6da, 0xb4819d06, 0x111cfe2c, 0x7d2215bc)) == Four(0x9b70f51f, 0x6a4c50ae, 0xd3fde99e, 0x2c847a0d)
    ensures Quarter(Four(0x35ce46a8, 0xb63be200, 0x55942604, 0x49ee03a6)) == Four(0x7ea8ac11, 0x19212a5a, 0x26acc13d, 0xa609f555)
    ensures Quarter(Four(0x0c041bb9, 0xacd221e4, 0x434b4749, 0xd11a5554)) == Four(0x21e54da9, 0x9b032958, 0xd839165e, 0x2c246549)
    ensures Quarter(Four(0xfa91df79, 0x8e85d82f, 0x1d459c00, 0xa7202e04)) == Four(0xca393b2f, 0x93b08686, 0x4c06e28a, 0x95151853)
  {
  }

  lemma Round6()
    ensures DoubleRound([0x04a3131a, 0x66176309, 0x0415bab1, 0x61b880a2, 0x36cc86c7, 0xbf8a4465, 0xf77dd720, 0xfc0bdc90,
                         0x07d13aca, 0xeb0be9af, 0x61599491, 0x918512dc, 0x33b6686d, 0x795cc671, 0xc0049972, 0xa0a81bde]) ==
            [0x9b70f51f, 0x7ea8ac11, 0x21e54da9, 0xca393b2f, 0x93b08686, 0x6a4c50ae, 0x19212a5a, 0x9b032958,
             0xd839165e, 0x4c06e28a, 0xd3fde99e, 0x26acc13d, 0xa609f555, 0x2c246549, 0x95151853, 0x2c847a0d]
  {
    hide Quarter, DoubleRound;
    Quarters6();
    DoubleIs([0x04a3131a, 0x66176309, 0x0415bab1, 0x61b880a2, 0x36cc86c7, 0xbf8a4465, 0xf77dd720, 0xfc0bdc90,
              0x07d13aca, 0xeb0be9af, 0x61599491, 0x918512dc, 0x33b6686d, 0x795cc671, 0xc0049972, 0xa0a81bde],
             Four(0x57c5e6da, 0x8e85d82f, 0x434b4749, 0x49ee03a6), Four(0x35ce46a8, 0xb4819d06, 0x1d459c00, 0xd11a5554),
             Four(0x0c041bb9, 0xb63be200, 0x111cfe2c, 0xa7202e04), Four(0xfa91df79, 0xacd221e4, 0x55942604, 0x7d2215bc),
             Four(0x9b70f51f, 0x6a4c50ae, 0xd3fde99e, 0x2c847a0d), Four(0x7ea8ac11, 0x19212a5a, 0x26acc13d, 0xa609f555),
             Four(0x21e54da9, 0x9b032958, 0xd839165e, 0x2c246549), Four(0xca393b2f, 0x93b08686, 0x4c06e28a, 0x95151853));
  }

  lemma Quarters7()
    ensures Quarter(Four(0x9b70f51f, 0x93b08686, 0xd839165e, 0xa609f555)) == Four(0xc0b18aee, 0xdeb54e9c, 0xa82d65d4, 0x4103c64e)
    ensures Quarter(Four(0x7ea8ac11, 0x6a4c50ae, 0x4c06e28a, 0x2c246549)) == Four(0x087445ba, 0x802c883b, 0x687f11eb, 0x82816a91)
    ensures Quarter(Four(0x21e54da9, 0x19212a5a, 0xd3fde99e, 0x95151853)) == Four(0x36e52ad9, 0x06e86889, 0xe9d36207, 0xb584ca56)
    ensures Quarter(Four(0xca393b2f, 0x9b032958, 0x26acc13d, 0x2c847a0d)) == Four(0xa777426a, 0x3c002680, 0x4242ddae, 0xfd0bd2b9)
    ensures Quarter(Four(0xc0b18aee, 0x802c883b, 0xe9d36207, 0xfd0bd2b9)) == Four(0xca5c85dd, 0x712aa9ff, 0x779c27e7, 0xcc38080b)
    ensures Quarter(Four(0x087445ba, 0x06e86889, 0x4242ddae, 0x4103c64e)) == Four(0x93a4f90e, 0x279a61e8, 0x54077e08, 0xa9b751fb)
    ensures Quarter(Four(0x36e52ad9, 0x3c002680, 0xa82d65d4, 0x82816a91)) == Four(0xd9f0df58, 0x970f72bd, 0x1c25931a, 0x382f3ce2)
    ensures Quarter(Four(0xa777426a, 0xdeb54e9c, 0x687f11eb, 0xb584ca56)) == Four(0x26dd82dd, 0x982563f8, 0x5180bb10, 0x8db1757d)
  {
  }

  lemma Round7()
    ensures DoubleRound([0x9b70f51f, 0x7ea8ac11, 0x21e54da9, 0xca393b2f, 0x93b08686, 0x6a4c50ae, 0x19212a5a, 0x9b032958,
                         0xd839165e, 0x4c06e28a, 0xd3fde99e, 0x26acc13d, 0xa609f555, 0x2c246549, 0x95151853, 0x2c847a0d]) ==
            [0xca5c85dd, 0x93a4f90e, 0xd9f0df58, 0x26dd82dd, 0x982563f8, 0x712aa9ff, 0x279a61e8, 0x970f72bd,
             0x1c25931a, 0x5180bb10, 0x779c27e7, 0x54077e08, 0xa9b751fb, 0x382f3ce2, 0x8db1757d, 0xcc38080b]
  {
    hide Quarter, DoubleRound;
    Quarters7();
    DoubleIs([0x9b70f51f, 0x7ea8ac11, 0x21e54da9, 0xca393b2f, 0x93b08686, 0x6a4c50ae, 0x19212a5a, 0x9b032958,
              0xd839165e, 0x4c06e28a, 0xd3fde99e, 0x26acc13d, 0xa609f555, 0x2c246549, 0x95151853, 0x2c847a0d],
             Four(0xc0b18aee, 0xdeb54e9c, 0xa82d65d4, 0x4103c64e), Four(0x087445ba, 0x802c883b, 0x687f11eb, 0x82816a91),
             Four(0x36e52ad9, 0x06e86889, 0xe9d36207, 0xb584ca56), Four(0xa777426a, 0x3c002680, 0x4242ddae, 0xfd0bd2b9),
             Four(0xca5c85dd, 0x712aa9ff, 0x779c27e7, 0xcc38080b), Four(0x93a4f90e, 0x279a61e8, 0x54077e08, 0xa9b751fb),
             Four(0xd9f0df58, 0x970f72bd, 0x1c25931a, 0x382f3ce2), Four(0x26dd82dd, 0x982563f8, 0x5180bb10, 0x8db1757d));
  }

  lemma Quarters8()
    ensures Quarter(Four(0xca5c85dd, 0x982563f8, 0x1c25931a, 0xa9b751fb)) == Four(0x765c6e9c, 0x9046ecaa, 0x46fa091e, 0x72a5aace)
    ensures Quarter(Four(0x93a4f90e, 0x712aa9ff, 0x5180bb10, 0x382f3ce2)) == Four(0x5ab09b11, 0x7b88d882, 0x5117e9b5, 0x5fa7f1c5)
    ensures Quarter(Four(0xd9f0df58, 0x279a61e8, 0x779c27e7, 0x8db1757d)) == Four(0x3ee7da04, 0xb9b577dd, 0x862ff22b, 0xda563e0a)
    ensures Quarter(Four(0x26dd82dd, 0x970f72bd, 0x54077e08, 0xcc38080b)) == Four(0x37c31203, 0x156de7ed, 0xa3fcc7a6, 0x5263d7ca)
    ensures Quarter(Four(0x765c6e9c, 0x7b88d882, 0x862ff22b, 0x5263d7ca)) == Four(0xb6b87de6, 0x98e18fa3, 0x83e2f5d7, 0x6cde6026)
    ensures Quarter(Four(0x5ab09b11, 0xb9b577dd, 0xa3fcc7a6, 0x72a5aace)) == Four(0x9a016148, 0x5ffbe8fc, 0x7d24b98b, 0x21078b22)
    ensures Quarter(Four(0x3ee7da04, 0x156de7ed, 0x46fa091e, 0x5fa7f1c5)) == Four(0x93859815, 0xf7154b8b, 0x28c1fcb3, 0xb193e7a3)
    ensures Quarter(Four(0x37c31203, 0x9046ecaa, 0x5117e9b5, 0xda563e0a)) == Four(0x4915e6cc, 0xdc33c122, 0xc4b38f9d, 0xb2f49389)
  {
  }

  lemma Round8()
    ensures DoubleRound([0xca5c85dd, 0x93a4f90e, 0xd9f0df58, 0x26dd82dd, 0x982563f8, 0x712aa9ff, 0x279a61e8, 0x970f72bd,
                         0x1c25931a, 0x5180bb10, 0x779c27e7, 0x54077e08, 0xa9b751fb, 0x382f3ce2, 0x8db1757d, 0xcc38080b]) ==
            [0xb6b87de6, 0x9a016148, 0x93859815, 0x4915e6cc, 0xdc33c122, 0x98e18fa3, 0x5ffbe8fc, 0xf7154b8b,
             0x28c1fcb3, 0xc4b38f9d, 0x83e2f5d7, 0x7d24b98b, 0x21078b22, 0xb193e7a3, 0xb2f49389, 0x6cde6026]
  {
    hide Quarter, DoubleRound;
    Quarters8();
    DoubleIs([0xca5c85dd, 0x93a4f90e, 0xd9f0df58, 0x26dd82dd, 0x982563f8, 0x712aa9ff, 0x279a61e8, 0x970f72bd,
              0x1c25931a, 0x5180bb10, 0x779c27e7, 0x54077e08, 0xa9b751fb, 0x382f3ce2, 0x8db1757d, 0xcc38080b],
             Four(0x765c6e9c, 0x9046ecaa, 0x46fa091e, 0x72a5aace), Four(0x5ab09b11, 0x7b88d882, 0x5117e9b5, 0x5fa7f1c5),
             Four(0x3ee7da04, 0xb9b577dd, 0x862ff22b, 0xda563e0a), Four(0x37c31203, 0x156de7ed, 0xa3fcc7a6, 0x5263d7ca),
             Four(0xb6b87de6, 0x98e18fa3, 0x83e2f5d7, 0x6cde6026), Four(0x9a016148, 0x5ffbe8fc, 0x7d24b98b, 0x21078b22),
             Four(0x93859815, 0xf7154b8b, 0x28c1fcb3, 0xb193e7a3), Four(0x4915e6cc, 0xdc33c122, 0xc4b38f9d, 0xb2f49389));
  }

  lemma Quarters9()
    ensures Quarter(Four(0xb6b87de6, 0xdc33c122, 0x28c1fcb3, 0x21078b22)) == Four(0x8a07ff15, 0x913768fe, 0x0a39aedc, 0x2d4cfe3e)
    ensures Quarter(Four(0x9a016148, 0x98e18fa3, 0xc4b38f9d, 0xb193e7a3)) == Four(0x0cadc51c, 0x442a0c0c, 0xc1428029, 0xe5466d1b)
    ensures Quarter(Four(0x93859815, 0x5ffbe8fc, 0x83e2f5d7, 0xb2f49389)) == Four(0x017c8da9, 0x598fe3bb, 0x7b48135f, 0xe4ccdc13)
    ensures Quarter(Four(0x4915e6cc, 0xf7154b8b, 0x7d24b98b, 0x6cde6026)) == Four(0x4afbe5df, 0x47d18828, 0x5a5f1098, 0x8ac92a18)
    ensures Quarter(Four(0x8a07ff15, 0x442a0c0c, 0x7b48135f, 0x8ac92a18)) == Four(0x837778ab, 0xfc62bb2f, 0xeabda8fc, 0x4e3c50a2)
    ensures Quarter(Four(0x0cadc51c, 0x598fe3bb, 0x5a5f1098, 0x2d4cfe3e)) == Four(0xe238d763, 0x8fa018fc, 0x82e46ebd, 0xd19c12b4)
    ensures Quarter(Four(0x017c8da9, 0x47d18828, 0x0a39aedc, 0xe5466d1b)) == Four(0xa67ae21e, 0x3f5ec7b7, 0x335271c2, 0xb04e16de)
    ensures Quarter(Four(0x4afbe5df, 0x913768fe, 0xc1428029, 0xe4ccdc13)) == Four(0x5950bb2f, 0xc4f2d0c7, 0xf29489f3, 0x9e83d0cb)
  {
  }

  lemma Round9()
    ensures DoubleRound([0xb6b87de6, 0x9a016148, 0x93859815, 0x4915e6cc, 0xdc33c122, 0x98e18fa3, 0x5ffbe8fc, 0xf7154b8b,
                         0x28c1fcb3, 0xc4b38f9d, 0x83e2f5d7, 0x7d24b98b, 0x21078b22, 0xb193e7a3, 0xb2f49389, 0x6cde6026]) ==
            [0x837778ab, 0xe238d763, 0xa67ae21e, 0x5950bb2f, 0xc4f2d0c7, 0xfc62bb2f, 0x8fa018fc, 0x3f5ec7b7,
             0x335271c2, 0xf29489f3, 0xeabda8fc, 0x82e46ebd, 0xd19c12b4, 0xb04e16de, 0x9e83d0cb, 0x4e3c50a2]
  {
    hide Quarter, DoubleRound;
    Quarters9();
    DoubleIs([0xb6b87de6, 0x9a016148, 0x93859815, 0x4915e6cc, 0xdc33c122, 0x98e18fa3, 0x5ffbe8fc, 0xf7154b8b,
              0x28c1fcb3, 0xc4b38f9d, 0x83e2f5d7, 0x7d24b98b, 0x21078b22, 0xb193e7a3, 0xb2f49389, 0x6cde6026],
             Four(0x8a07ff15, 0x913768fe, 0x0a39aedc, 0x2d4cfe3e), Four(0x0cadc51c, 0x442a0c0c, 0xc1428029, 0xe5466d1b),
             Four(0x017c8da9, 0x598fe3bb, 0x7b48135f, 0xe4ccdc13), Four(0x4afbe5df, 0x47d18828, 0x5a5f1098, 0x8ac92a18),
             Four(0x837778ab, 0xfc62bb2f, 0xeabda8fc, 0x4e3c50a2), Four(0xe238d763, 0x8fa018fc, 0x82e46ebd, 0xd19c12b4),
             Four(0xa67ae21e, 0x3f5ec7b7, 0x335271c2, 0xb04e16de), Four(0x5950bb2f, 0xc4f2d0c7, 0xf29489f3, 0x9e83d0cb));
  }

  lemma InitialIs()
    ensures Initial(KEY, 1, NONCE) ==
            [0x61707865, 0x3320646e, 0x79622d32, 0x6b206574, 0x03020100, 0x07060504, 0x0b0a0908, 0x0f0e0d0c,
             0x13121110, 0x17161514, 0x1b1a1918, 0x1f1e1d1c, 0x00000001, 0x09000000, 0x4a000000, 0x00000000]
  {
    hide At, KEY, NONCE;
    Sizes();
    KeyWords0(); KeyWords16(); NonceWords();
  }

  lemma KeyWords0()
    ensures |KEY| == 32 && At(KEY, 0) == 0x03020100 && At(KEY, 4) == 0x07060504 && At(KEY, 8) == 0x0b0a0908 && At(KEY, 12) == 0x0f0e0d0c
  {
  }

  lemma KeyWords16()
    ensures |KEY| == 32 && At(KEY, 16) == 0x13121110 && At(KEY, 20) == 0x17161514 && At(KEY, 24) == 0x1b1a1918 && At(KEY, 28) == 0x1f1e1d1c
  {
  }

  lemma NonceWords()
    ensures At(NONCE, 0) == 0x09000000 && At(NONCE, 4) == 0x4a000000 && At(NONCE, 8) == 0x00000000
  {
  }

  lemma RoundsAre()
    ensures DoubleRounds(Initial(KEY, 1, NONCE), 10) ==
            [0x837778ab, 0xe238d763, 0xa67ae21e, 0x5950bb2f, 0xc4f2d0c7, 0xfc62bb2f, 0x8fa018fc, 0x3f5ec7b7,
             0x335271c2, 0xf29489f3, 0xeabda8fc, 0x82e46ebd, 0xd19c12b4, 0xb04e16de, 0x9e83d0cb, 0x4e3c50a2]
  {
    hide DoubleRound, Initial, KEY, NONCE;
    Sizes();
    InitialIs();
    var x := Initial(KEY, 1, NONCE);
    forall n | 0 <= n < 10 ensures DoubleRounds(x, n + 1) == DoubleRound(DoubleRounds(x, n)) {}
    assert DoubleRounds(x, 0) == x;
    hide DoubleRounds;
    Round0();    Round1();    Round2();    Round3();    Round4();
    Round5();    Round6();    Round7();    Round8();    Round9();
  }

  lemma SumsAre()
    ensures Plus(0x837778ab, 0x61707865) == 0xe4e7f110 && Plus(0xe238d763, 0x3320646e) == 0x15593bd1
    ensures Plus(0xa67ae21e, 0x79622d32) == 0x1fdd0f50 && Plus(0x5950bb2f, 0x6b206574) == 0xc47120a3
    ensures Plus(0xc4f2d0c7, 0x03020100) == 0xc7f4d1c7 && Plus(0xfc62bb2f, 0x07060504) == 0x0368c033
    ensures Plus(0x8fa018fc, 0x0b0a0908) == 0x9aaa2204 && Plus(0x3f5ec7b7, 0x0f0e0d0c) == 0x4e6cd4c3
    ensures Plus(0x335271c2, 0x13121110) == 0x466482d2 && Plus(0xf29489f3, 0x17161514) == 0x09aa9f07
    ensures Plus(0xeabda8fc, 0x1b1a1918) == 0x05d7c214 && Plus(0x82e46ebd, 0x1f1e1d1c) == 0xa2028bd9
    ensures Plus(0xd19c12b4, 0x00000001) == 0xd19c12b5 && Plus(0xb04e16de, 0x09000000) == 0xb94e16de
    ensures Plus(0x9e83d0cb, 0x4a000000) == 0xe883d0cb && Plus(0x4e3c50a2, 0x00000000) == 0x4e3c50a2
  {
  }

  lemma BlockIs()
    ensures Block(Initial(KEY, 1, NONCE)) ==
            [0xe4e7f110, 0x15593bd1, 0x1fdd0f50, 0xc47120a3, 0xc7f4d1c7, 0x0368c033, 0x9aaa2204, 0x4e6cd4c3,
             0x466482d2, 0x09aa9f07, 0x05d7c214, 0xa2028bd9, 0xd19c12b5, 0xb94e16de, 0xe883d0cb, 0x4e3c50a2]
  {
    hide DoubleRounds, Initial, KEY, NONCE, Plus;
    Sizes();
    InitialIs();
    RoundsAre();
    SumsAre();
    Displayed(Block(Initial(KEY, 1, NONCE)));
  }

  lemma SerializedOut(ws: seq<Word>)
    requires |ws| == 16
    ensures Serialized(ws) == StoreLittle(ws[0]) + StoreLittle(ws[1]) + StoreLittle(ws[2]) + StoreLittle(ws[3])
                              + StoreLittle(ws[4]) + StoreLittle(ws[5]) + StoreLittle(ws[6]) + StoreLittle(ws[7])
                              + StoreLittle(ws[8]) + StoreLittle(ws[9]) + StoreLittle(ws[10]) + StoreLittle(ws[11])
                              + StoreLittle(ws[12]) + StoreLittle(ws[13]) + StoreLittle(ws[14]) + StoreLittle(ws[15])
  {
    hide StoreLittle;
    forall i | 0 <= i < 16 ensures Serialized(ws[..i + 1]) == Serialized(ws[..i]) + StoreLittle(ws[i]) {
      assert ws[..i + 1][..i] == ws[..i];
    }
    hide Serialized;
    assert ws[..16] == ws;
    assert Serialized(ws[..1]) == StoreLittle(ws[0]) by { FirstSerialized(ws); }
  }

  lemma FirstSerialized(ws: seq<Word>)
    requires ws != []
    ensures Serialized(ws[..1]) == StoreLittle(ws[0])
  {
    assert ws[..1][..0] == [];
  }

  /** The keystream block is the one that the standard publishes. */
  lemma KeyBlockIs()
    ensures KeyBlock(KEY, 1, NONCE) ==
            [0x10, 0xf1, 0xe7, 0xe4] + [0xd1, 0x3b, 0x59, 0x15] + [0x50, 0x0f, 0xdd, 0x1f] + [0xa3, 0x20, 0x71, 0xc4] +
            [0xc7, 0xd1, 0xf4, 0xc7] + [0x33, 0xc0, 0x68, 0x03] + [0x04, 0x22, 0xaa, 0x9a] + [0xc3, 0xd4, 0x6c, 0x4e] +
            [0xd2, 0x82, 0x64, 0x46] + [0x07, 0x9f, 0xaa, 0x09] + [0x14, 0xc2, 0xd7, 0x05] + [0xd9, 0x8b, 0x02, 0xa2] +
            [0xb5, 0x12, 0x9c, 0xd1] + [0xde, 0x16, 0x4e, 0xb9] + [0xcb, 0xd0, 0x83, 0xe8] + [0xa2, 0x50, 0x3c, 0x4e]
  {
    hide Block, Initial, KEY, NONCE, Serialized;
    Sizes();
    BlockIs();
    var ws := Block(Initial(KEY, 1, NONCE));
    SerializedOut(ws);
    StoredWords0(); StoredWords8();
  }

  lemma StoredWords0()
    ensures StoreLittle(0xe4e7f110) == [0x10, 0xf1, 0xe7, 0xe4]
    ensures StoreLittle(0x15593bd1) == [0xd1, 0x3b, 0x59, 0x15]
    ensures StoreLittle(0x1fdd0f50) == [0x50, 0x0f, 0xdd, 0x1f]
    ensures StoreLittle(0xc47120a3) == [0xa3, 0x20, 0x71, 0xc4]
    ensures StoreLittle(0xc7f4d1c7) == [0xc7, 0xd1, 0xf4, 0xc7]
    ensures StoreLittle(0x0368c033) == [0x33, 0xc0, 0x68, 0x03]
    ensures StoreLittle(0x9aaa2204) == [0x04, 0x22, 0xaa, 0x9a]
    ensures StoreLittle(0x4e6cd4c3) == [0xc3, 0xd4, 0x6c, 0x4e]
  {
  }

  lemma StoredWords8()
    ensures StoreLittle(0x466482d2) == [0xd2, 0x82, 0x64, 0x46]
    ensures StoreLittle(0x09aa9f07) == [0x07, 0x9f, 0xaa, 0x09]
    ensures StoreLittle(0x05d7c214) == [0x14, 0xc2, 0xd7, 0x05]
    ensures StoreLittle(0xa2028bd9) == [0xd9, 0x8b, 0x02, 0xa2]
    ensures StoreLittle(0xd19c12b5) == [0xb5, 0x12, 0x9c, 0xd1]
    ensures StoreLittle(0xb94e16de) == [0xde, 0x16, 0x4e, 0xb9]
    ensures StoreLittle(0xe883d0cb) == [0xcb, 0xd0, 0x83, 0xe8]
    ensures StoreLittle(0x4e3c50a2) == [0xa2, 0x50, 0x3c, 0x4e]
  {
  }
}
