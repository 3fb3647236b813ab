/** The example of FIPS 180-4 for a message of one block, "abc", worked through by the model: what the constants, the
    schedule and the rounds compute is the published digest. */
module Sha256Example {
  import opened Bytes
  import opened Streaming
  import opened Sha256

  const ABC: seq<Byte> := [0x61, 0x62, 0x63]

  /** The padded message: its three bytes, 0x80, zeros, and its length in bits. */
  ghost predicate IsAbc(block: seq<Byte>) {
    && |block| == 64 && block[0] == 0x61 && block[1] == 0x62 && block[2] == 0x63 && block[3] == 0x80
    && (forall i :: 4 <= i < 63 ==> block[i] == 0) && block[63] == 0x18
  }

  lemma LengthOfAbc()
    ensures forall k :: 0 <= k < 8 ==> LengthBig(24)[k] == if k == 7 then 0x18 else 0
  {
    forall k: nat | 0 < k < 8 ensures ByteOf(24, k) == 0 { NothingAbove(24, k); }
  }

  lemma AbcIsPadded()
    ensures |Pad(ABC)| == 64 && IsAbc(Pad(ABC))
  {
    hide LengthBig;
    ZerosAreZero(52);
    LengthOfAbc();
    assert ZeroCount(3) == 52;
  }

  // -------------------------------------------------------------------------
  // The message schedule

  lemma FirstWords(block: seq<Byte>)
    requires IsAbc(block)
    ensures Schedule(block, 0) == 0x61626380 && Schedule(block, 15) == 0x18
    ensures forall t :: 1 <= t < 15 ==> Schedule(block, t) == 0
  {
  }

  lemma Words16(block: seq<Byte>)
    requires IsAbc(block)
    ensures Schedule(block, 16) == 0x61626380 && Schedule(block, 17) == 0x000f0000
    ensures Schedule(block, 18) == 0x7da86405 && Schedule(block, 19) == 0x600003c6
    ensures Schedule(block, 20) == 0x3e9d7b78 && Schedule(block, 21) == 0x0183fc00
    ensures Schedule(block, 22) == 0x12dcbfdb && Schedule(block, 23) == 0xe2e2c38e
  {
    hide IsAbc, LoadBig;
    FirstWords(block);
  }

  lemma Words24(block: seq<Byte>)
    requires IsAbc(block)
    ensures Schedule(block, 24) == 0xc8215c1a && Schedule(block, 25) == 0xb73679a2
    ensures Schedule(block, 26) == 0xe5bc3909 && Schedule(block, 27) == 0x32663c5b
    ensures Schedule(block, 28) == 0x9d209d67 && Schedule(block, 29) == 0xec8726cb
    ensures Schedule(block, 30) == 0x702138a4 && Schedule(block, 31) == 0xd3b7973b
  {
    hide IsAbc, LoadBig;
    FirstWords(block);
    Words16(block);
  }

  lemma Words32(block: seq<Byte>)
    requires IsAbc(block)
    ensures Schedule(block, 32) == 0x93f5997f && Schedule(block, 33) == 0x3b68ba73
    ensures Schedule(block, 34) == 0xaff4ffc1 && Schedule(block, 35) == 0xf10a5c62
    ensures Schedule(block, 36) == 0x0a8b3996 && Schedule(block, 37) == 0x72af830a
    ensures Schedule(block, 38) == 0x9409e33e && Schedule(block, 39) == 0x24641522
  {
    hide IsAbc, LoadBig;
    Words16(block);
    Words24(block);
  }

  lemma Words40(block: seq<Byte>)
    requires IsAbc(block)
    ensures Schedule(block, 40) == 0x9f47bf94 && Schedule(block, 41) == 0xf0a64f5a
    ensures Schedule(block, 42) == 0x3e246a79 && Schedule(block, 43) == 0x27333ba3
    ensures Schedule(block, 44) == 0x0c4763f2 && Schedule(block, 45) == 0x840abf27
    ensures Schedule(block, 46) == 0x7a290d5d && Schedule(block, 47) == 0x065c43da
  {
    hide IsAbc, LoadBig;
    Words24(block);
    Words32(block);
  }

  lemma Words48(block: seq<Byte>)
    requires IsAbc(block)
    ensures Schedule(block, 48) == 0xfb3e89cb && Schedule(block, 49) == 0xcc7617db
    ensures Schedule(block, 50) == 0xb9e66c34 && Schedule(block, 51) == 0xa9993667
    ensures Schedule(block, 52) == 0x84badedd && Schedule(block, 53) == 0xc21462bc
    ensures Schedule(block, 54) == 0x1487472c && Schedule(block, 55) == 0xb20f7a99
  {
    hide IsAbc, LoadBig;
    Words32(block);
    Words40(block);
  }

  lemma Words56(block: seq<Byte>)
    requires IsAbc(block)
    ensures Schedule(block, 56) == 0xef57b9cd && Schedule(block, 57) == 0xebe6b238
    ensures Schedule(block, 58) == 0x9fe3095e && Schedule(block, 59) == 0x78bc8d4b
    ensures Schedule(block, 60) == 0xa43fcf15 && Schedule(block, 61) == 0x668b2ff8
    ensures Schedule(block, 62) == 0xeeaba2cc && Schedule(block, 63) == 0x12b1edeb
  {
    hide IsAbc, LoadBig;
    Words40(block);
    Words48(block);
  }

  // -------------------------------------------------------------------------
  // The rounds

  lemma Turn(block: seq<Byte>, t: nat, v: Words, k: Word, w: Word, next: Words)
    requires |block| == 64 && t < 64 && Rounds(START, block, t) == v && K[t] == k && Schedule(block, t) == w
    requires Round(v, k, w) == next
    ensures Rounds(START, block, t + 1) == next
  {
    hide Round, Schedule, K;
  }

  lemma Rounds4(block: seq<Byte>)
    requires IsAbc(block)
    ensures |block| == 64 && Rounds(START, block, 4) == Words(0xd550f666, 0xc8c347a7, 0x5a6ad9ad, 0x5d6aebcd, 0x24e00850, 0xf92939eb, 0x78ce7989, 0xfa2a4622)
  {
    hide Schedule, Rounds;
    FirstWords(block);
    assert Rounds(START, block, 0) == START by { NoRounds(block); }
    var v1 := Words(0x5d6aebcd, 0x6a09e667, 0xbb67ae85, 0x3c6ef372, 0xfa2a4622, 0x510e527f, 0x9b05688c, 0x1f83d9ab);
    Turn(block, 0, START, 0x428a2f98, 0x61626380, v1);
    var v2 := Words(0x5a6ad9ad, 0x5d6aebcd, 0x6a09e667, 0xbb67ae85, 0x78ce7989, 0xfa2a4622, 0x510e527f, 0x9b05688c);
    Turn(block, 1, v1, 0x71374491, 0x00000000, v2);
    var v3 := Words(0xc8c347a7, 0x5a6ad9ad, 0x5d6aebcd, 0x6a09e667, 0xf92939eb, 0x78ce7989, 0xfa2a4622, 0x510e527f);
    Turn(block, 2, v2, 0xb5c0fbcf, 0x00000000, v3);
    var v4 := Words(0xd550f666, 0xc8c347a7, 0x5a6ad9ad, 0x5d6aebcd, 0x24e00850, 0xf92939eb, 0x78ce7989, 0xfa2a4622);
    Turn(block, 3, v3, 0xe9b5dba5, 0x00000000, v4);
  }

  lemma NoRounds(block: seq<Byte>)
    requires |block| == 64
    ensures Rounds(START, block, 0) == START
  {
  }

  lemma Rounds8(block: seq<Byte>)
    requires IsAbc(block)
    ensures |block| == 64 && Rounds(START, block, 8) == Words(0x85a07b5f, 0xe5030380, 0x2b4209f5, 0x04409a6a, 0x0c657a79, 0x9b27a401, 0x714260ad, 0x43ada245)
  {
    hide Schedule, Rounds;
    FirstWords(block);
    Rounds4(block);
    var v5 := Words(0x04409a6a, 0xd550f666, 0xc8c347a7, 0x5a6ad9ad, 0x43ada245, 0x24e00850, 0xf92939eb, 0x78ce7989);
    Turn(block, 4, Words(0xd550f666, 0xc8c347a7, 0x5a6ad9ad, 0x5d6aebcd, 0x24e00850, 0xf92939eb, 0x78ce7989, 0xfa2a4622), 0x3956c25b, 0x00000000, v5);
    var v6 := Words(0x2b4209f5, 0x04409a6a, 0xd550f666, 0xc8c347a7, 0x714260ad, 0x43ada245, 0x24e00850, 0xf92939eb);
    Turn(block, 5, v5, 0x59f111f1, 0x00000000, v6);
    var v7 := Words(0xe5030380, 0x2b4209f5, 0x04409a6a, 0xd550f666, 0x9b27a401, 0x714260ad, 0x43ada245, 0x24e00850);
    Turn(block, 6, v6, 0x923f82a4, 0x00000000, v7);
    var v8 := Words(0x85a07b5f, 0xe5030380, 0x2b4209f5, 0x04409a6a, 0x0c657a79, 0x9b27a401, 0x714260ad, 0x43ada245);
    Turn(block, 7, v7, 0xab1c5ed5, 0x00000000, v8);
  }

  lemma Rounds12(block: seq<Byte>)
    requires IsAbc(block)
    ensures |block| == 64 && Rounds(START, block, 12) == Words(0xf71fc5a9, 0x4798a3f4, 0x8c87346b, 0x8e04ecb9, 0x816fd6e9, 0x436b23e8, 0x1cc92596, 0x32ca2d8c)
  {
    hide Schedule, Rounds;
    FirstWords(block);
    Rounds8(block);
    var v9 := Words(0x8e04ecb9, 0x85a07b5f, 0xe5030380, 0x2b4209f5, 0x32ca2d8c, 0x0c657a79, 0x9b27a401, 0x714260ad);
    Turn(block, 8, Words(0x85a07b5f, 0xe5030380, 0x2b4209f5, 0x04409a6a, 0x0c657a79, 0x9b27a401, 0x714260ad, 0x43ada245), 0xd807aa98, 0x00000000, v9);
    var v10 := Words(0x8c87346b, 0x8e04ecb9, 0x85a07b5f, 0xe5030380, 0x1cc92596, 0x32ca2d8c, 0x0c657a79, 0x9b27a401);
    Turn(block, 9, v9, 0x12835b01, 0x00000000, v10);
    var v11 := Words(0x4798a3f4, 0x8c87346b, 0x8e04ecb9, 0x85a07b5f, 0x436b23e8, 0x1cc92596, 0x32ca2d8c, 0x0c657a79);
    Turn(block, 10, v10, 0x243185be, 0x00000000, v11);
    var v12 := Words(0xf71fc5a9, 0x4798a3f4, 0x8c87346b, 0x8e04ecb9, 0x816fd6e9, 0x436b23e8, 0x1cc92596, 0x32ca2d8c);
    Turn(block, 11, v11, 0x550c7dc3, 0x00000000, v12);
  }

  lemma Rounds16(block: seq<Byte>)
    requires IsAbc(block)
    ensures |block| == 64 && Rounds(START, block, 16) == Words(0xb0fa238e, 0xc0645fde, 0xd932eb16, 0x87912990, 0x07590dcd, 0x0b92f20c, 0x745a48de, 0x1e578218)
  {
    hide Schedule, Rounds;
    FirstWords(block);
    Rounds12(block);
    var v13 := Words(0x87912990, 0xf71fc5a9, 0x4798a3f4, 0x8c87346b, 0x1e578218, 0x816fd6e9, 0x436b23e8, 0x1cc92596);
    Turn(block, 12, Words(0xf71fc5a9, 0x4798a3f4, 0x8c87346b, 0x8e04ecb9, 0x816fd6e9, 0x436b23e8, 0x1cc92596, 0x32ca2d8c), 0x72be5d74, 0x00000000, v13);
    var v14 := Words(0xd932eb16, 0x87912990, 0xf71fc5a9, 0x4798a3f4, 0x745a48de, 0x1e578218, 0x816fd6e9, 0x436b23e8);
    Turn(block, 13, v13, 0x80deb1fe, 0x00000000, v14);
    var v15 := Words(0xc0645fde, 0xd932eb16, 0x87912990, 0xf71fc5a9, 0x0b92f20c, 0x745a48de, 0x1e578218, 0x816fd6e9);
    Turn(block, 14, v14, 0x9bdc06a7, 0x00000000, v15);
    var v16 := Words(0xb0fa238e, 0xc0645fde, 0xd932eb16, 0x87912990, 0x07590dcd, 0x0b92f20c, 0x745a48de, 0x1e578218);
    Turn(block, 15, v15, 0xc19bf174, 0x00000018, v16);
  }

  lemma Rounds20(block: seq<Byte>)
    requires IsAbc(block)
    ensures |block| == 64 && Rounds(START, block, 20) == Words(0xe1f20c33, 0xfe777bbf, 0xc2fbd9d1, 0x21da9a9b, 0xb0638179, 0xcc899961, 0x846ee454, 0x8034229c)
  {
    hide Schedule, Rounds;
    Words16(block);
    Rounds16(block);
    var v17 := Words(0x21da9a9b, 0xb0fa238e, 0xc0645fde, 0xd932eb16, 0x8034229c, 0x07590dcd, 0x0b92f20c, 0x745a48de);
    Turn(block, 16, Words(0xb0fa238e, 0xc0645fde, 0xd932eb16, 0x87912990, 0x07590dcd, 0x0b92f20c, 0x745a48de, 0x1e578218), 0xe49b69c1, 0x61626380, v17);
    var v18 := Words(0xc2fbd9d1, 0x21da9a9b, 0xb0fa238e, 0xc0645fde, 0x846ee454, 0x8034229c, 0x07590dcd, 0x0b92f20c);
    Turn(block, 17, v17, 0xefbe4786, 0x000f0000, v18);
    var v19 := Words(0xfe777bbf, 0xc2fbd9d1, 0x21da9a9b, 0xb0fa238e, 0xcc899961, 0x846ee454, 0x8034229c, 0x07590dcd);
    Turn(block, 18, v18, 0x0fc19dc6, 0x7da86405, v19);
    var v20 := Words(0xe1f20c33, 0xfe777bbf, 0xc2fbd9d1, 0x21da9a9b, 0xb0638179, 0xcc899961, 0x846ee454, 0x8034229c);
    Turn(block, 19, v19, 0x240ca1cc, 0x600003c6, v20);
  }

  lemma Rounds24(block: seq<Byte>)
    requires IsAbc(block)
    ensures |block| == 64 && Rounds(START, block, 24) == Words(0xc5d53d8d, 0xa7a3623f, 0xc2606d6d, 0x9dc68b63, 0xaa47c347, 0x49f5114a, 0xe1257970, 0x8ada8930)
  {
    hide Schedule, Rounds;
    Words16(block);
    Rounds20(block);
    var v21 := Words(0x9dc68b63, 0xe1f20c33, 0xfe777bbf, 0xc2fbd9d1, 0x8ada8930, 0xb0638179, 0xcc899961, 0x846ee454);
    Turn(block, 20, Words(0xe1f20c33, 0xfe777bbf, 0xc2fbd9d1, 0x21da9a9b, 0xb0638179, 0xcc899961, 0x846ee454, 0x8034229c), 0x2de92c6f, 0x3e9d7b78, v21);
    var v22 := Words(0xc2606d6d, 0x9dc68b63, 0xe1f20c33, 0xfe777bbf, 0xe1257970, 0x8ada8930, 0xb0638179, 0xcc899961);
    Turn(block, 21, v21, 0x4a7484aa, 0x0183fc00, v22);
    var v23 := Words(0xa7a3623f, 0xc2606d6d, 0x9dc68b63, 0xe1f20c33, 0x49f5114a, 0xe1257970, 0x8ada8930, 0xb0638179);
    Turn(block, 22, v22, 0x5cb0a9dc, 0x12dcbfdb, v23);
    var v24 := Words(0xc5d53d8d, 0xa7a3623f, 0xc2606d6d, 0x9dc68b63, 0xaa47c347, 0x49f5114a, 0xe1257970, 0x8ada8930);
    Turn(block, 23, v23, 0x76f988da, 0xe2e2c38e, v24);
  }

  lemma Rounds28(block: seq<Byte>)
    requires IsAbc(block)
    ensures |block| == 64 && Rounds(START, block, 28) == Words(0x77d37528, 0xb62ec4bc, 0xcde8037d, 0x1c2c2838, 0xedffbff8, 0xc74c6516, 0x14383d8e, 0x2823ef91)
  {
    hide Schedule, Rounds;
    Words24(block);
    Rounds24(block);
    var v25 := Words(0x1c2c2838, 0xc5d53d8d, 0xa7a3623f, 0xc2606d6d, 0x2823ef91, 0xaa47c347, 0x49f5114a, 0xe1257970);
    Turn(block, 24, Words(0xc5d53d8d, 0xa7a3623f, 0xc2606d6d, 0x9dc68b63, 0xaa47c347, 0x49f5114a, 0xe1257970, 0x8ada8930), 0x983e5152, 0xc8215c1a, v25);
    var v26 := Words(0xcde8037d, 0x1c2c2838, 0xc5d53d8d, 0xa7a3623f, 0x14383d8e, 0x2823ef91, 0xaa47c347, 0x49f5114a);
    Turn(block, 25, v25, 0xa831c66d, 0xb73679a2, v26);
    var v27 := Words(0xb62ec4bc, 0xcde8037d, 0x1c2c2838, 0xc5d53d8d, 0xc74c6516, 0x14383d8e, 0x2823ef91, 0xaa47c347);
    Turn(block, 26, v26, 0xb00327c8, 0xe5bc3909, v27);
    var v28 := Words(0x77d37528, 0xb62ec4bc, 0xcde8037d, 0x1c2c2838, 0xedffbff8, 0xc74c6516, 0x14383d8e, 0x2823ef91);
    Turn(block, 27, v27, 0xbf597fc7, 0x32663c5b, v28);
  }

  lemma Rounds32(block: seq<Byte>)
    requires IsAbc(block)
    ensures |block| == 64 && Rounds(START, block, 32) == Words(0x73b33bf5, 0xea992a22, 0xa0060b30, 0x363482c9, 0xba591112, 0x0109ab3a, 0xade79437, 0x6112a3b7)
  {
    hide Schedule, Rounds;
    Words24(block);
    Rounds28(block);
    var v29 := Words(0x363482c9, 0x77d37528, 0xb62ec4bc, 0xcde8037d, 0x6112a3b7, 0xedffbff8, 0xc74c6516, 0x14383d8e);
    Turn(block, 28, Words(0x77d37528, 0xb62ec4bc, 0xcde8037d, 0x1c2c2838, 0xedffbff8, 0xc74c6516, 0x14383d8e, 0x2823ef91), 0xc6e00bf3, 0x9d209d67, v29);
    var v30 := Words(0xa0060b30, 0x363482c9, 0x77d37528, 0xb62ec4bc, 0xade79437, 0x6112a3b7, 0xedffbff8, 0xc74c6516);
    Turn(block, 29, v29, 0xd5a79147, 0xec8726cb, v30);
    var v31 := Words(0xea992a22, 0xa0060b30, 0x363482c9, 0x77d37528, 0x0109ab3a, 0xade79437, 0x6112a3b7, 0xedffbff8);
    Turn(block, 30, v30, 0x06ca6351, 0x702138a4, v31);
    var v32 := Words(0x73b33bf5, 0xea992a22, 0xa0060b30, 0x363482c9, 0xba591112, 0x0109ab3a, 0xade79437, 0x6112a3b7);
    Turn(block, 31, v31, 0x14292967, 0xd3b7973b, v32);
  }

  lemma Rounds36(block: seq<Byte>)
    requires IsAbc(block)
    ensures |block| == 64 && Rounds(START, block, 36) == Words(0x65a0cfe4, 0xa9a7738c, 0xfe604df5, 0x98e12507, 0xf4b002d6, 0x085f3833, 0x59249dd3, 0x9cd9f5f6)
  {
    hide Schedule, Rounds;
    Words32(block);
    Rounds32(block);
    var v33 := Words(0x98e12507, 0x73b33bf5, 0xea992a22, 0xa0060b30, 0x9cd9f5f6, 0xba591112, 0x0109ab3a, 0xade79437);
    Turn(block, 32, Words(0x73b33bf5, 0xea992a22, 0xa0060b30, 0x363482c9, 0xba591112, 0x0109ab3a, 0xade79437, 0x6112a3b7), 0x27b70a85, 0x93f5997f, v33);
    var v34 := Words(0xfe604df5, 0x98e12507, 0x73b33bf5, 0xea992a22, 0x59249dd3, 0x9cd9f5f6, 0xba591112, 0x0109ab3a);
    Turn(block, 33, v33, 0x2e1b2138, 0x3b68ba73, v34);
    var v35 := Words(0xa9a7738c, 0xfe604df5, 0x98e12507, 0x73b33bf5, 0x085f3833, 0x59249dd3, 0x9cd9f5f6, 0xba591112);
    Turn(block, 34, v34, 0x4d2c6dfc, 0xaff4ffc1, v35);
    var v36 := Words(0x65a0cfe4, 0xa9a7738c, 0xfe604df5, 0x98e12507, 0xf4b002d6, 0x085f3833, 0x59249dd3, 0x9cd9f5f6);
    Turn(block, 35, v35, 0x53380d13, 0xf10a5c62, v36);
  }

  lemma Rounds40(block: seq<Byte>)
    requires IsAbc(block)
    ensures |block| == 64 && Rounds(START, block, 40) == Words(0x79ea687a, 0x6dc57a8a, 0x34df1604, 0x41a65cb1, 0x1efbc0a0, 0xf0781bc8, 0xa507a53d, 0x0772a26b)
  {
    hide Schedule, Rounds;
    Words32(block);
    Rounds36(block);
    var v37 := Words(0x41a65cb1, 0x65a0cfe4, 0xa9a7738c, 0xfe604df5, 0x0772a26b, 0xf4b002d6, 0x085f3833, 0x59249dd3);
    Turn(block, 36, Words(0x65a0cfe4, 0xa9a7738c, 0xfe604df5, 0x98e12507, 0xf4b002d6, 0x085f3833, 0x59249dd3, 0x9cd9f5f6), 0x650a7354, 0x0a8b3996, v37);
    var v38 := Words(0x34df1604, 0x41a65cb1, 0x65a0cfe4, 0xa9a7738c, 0xa507a53d, 0x0772a26b, 0xf4b002d6, 0x085f3833);
    Turn(block, 37, v37, 0x766a0abb, 0x72af830a, v38);
    var v39 := Words(0x6dc57a8a, 0x34df1604, 0x41a65cb1, 0x65a0cfe4, 0xf0781bc8, 0xa507a53d, 0x0772a26b, 0xf4b002d6);
    Turn(block, 38, v38, 0x81c2c92e, 0x9409e33e, v39);
    var v40 := Words(0x79ea687a, 0x6dc57a8a, 0x34df1604, 0x41a65cb1, 0x1efbc0a0, 0xf0781bc8, 0xa507a53d, 0x0772a26b);
    Turn(block, 39, v39, 0x92722c85, 0x24641522, v40);
  }

  lemma Rounds44(block: seq<Byte>)
    requires IsAbc(block)
    ensures |block| == 64 && Rounds(START, block, 44) == Words(0x9d4baf93, 0x17aa0dfe, 0xdf46652f, 0xd6670766, 0xfda24c2e, 0xdecd4715, 0x838b2711, 0x26352d63)
  {
    hide Schedule, Rounds;
    Words40(block);
    Rounds40(block);
    var v41 := Words(0xd6670766, 0x79ea687a, 0x6dc57a8a, 0x34df1604, 0x26352d63, 0x1efbc0a0, 0xf0781bc8, 0xa507a53d);
    Turn(block, 40, Words(0x79ea687a, 0x6dc57a8a, 0x34df1604, 0x41a65cb1, 0x1efbc0a0, 0xf0781bc8, 0xa507a53d, 0x0772a26b), 0xa2bfe8a1, 0x9f47bf94, v41);
    var v42 := Words(0xdf46652f, 0xd6670766, 0x79ea687a, 0x6dc57a8a, 0x838b2711, 0x26352d63, 0x1efbc0a0, 0xf0781bc8);
    Turn(block, 41, v41, 0xa81a664b, 0xf0a64f5a, v42);
    var v43 := Words(0x17aa0dfe, 0xdf46652f, 0xd6670766, 0x79ea687a, 0xdecd4715, 0x838b2711, 0x26352d63, 0x1efbc0a0);
    Turn(block, 42, v42, 0xc24b8b70, 0x3e246a79, v43);
    var v44 := Words(0x9d4baf93, 0x17aa0dfe, 0xdf46652f, 0xd6670766, 0xfda24c2e, 0xdecd4715, 0x838b2711, 0x26352d63);
    Turn(block, 43, v43, 0xc76c51a3, 0x27333ba3, v44);
  }

  lemma Rounds48(block: seq<Byte>)
    requires IsAbc(block)
    ensures |block| == 64 && Rounds(START, block, 48) == Words(0x4172328d, 0xa14c14b0, 0x72ab4b91, 0x26628815, 0xfecf0bc6, 0xd57b94a9, 0xb7755da1, 0xa80f11f0)
  {
    hide Schedule, Rounds;
    Words40(block);
    Rounds44(block);
    var v45 := Words(0x26628815, 0x9d4baf93, 0x17aa0dfe, 0xdf46652f, 0xa80f11f0, 0xfda24c2e, 0xdecd4715, 0x838b2711);
    Turn(block, 44, Words(0x9d4baf93, 0x17aa0dfe, 0xdf46652f, 0xd6670766, 0xfda24c2e, 0xdecd4715, 0x838b2711, 0x26352d63), 0xd192e819, 0x0c4763f2, v45);
    var v46 := Words(0x72ab4b91, 0x26628815, 0x9d4baf93, 0x17aa0dfe, 0xb7755da1, 0xa80f11f0, 0xfda24c2e, 0xdecd4715);
    Turn(block, 45, v45, 0xd6990624, 0x840abf27, v46);
    var v47 := Words(0xa14c14b0, 0x72ab4b91, 0x26628815, 0x9d4baf93, 0xd57b94a9, 0xb7755da1, 0xa80f11f0, 0xfda24c2e);
    Turn(block, 46, v46, 0xf40e3585, 0x7a290d5d, v47);
    var v48 := Words(0x4172328d, 0xa14c14b0, 0x72ab4b91, 0x26628815, 0xfecf0bc6, 0xd57b94a9, 0xb7755da1, 0xa80f11f0);
    Turn(block, 47, v47, 0x106aa070, 0x065c43da, v48);
  }

  lemma Rounds52(block: seq<Byte>)
    requires IsAbc(block)
    ensures |block| == 64 && Rounds(START, block, 52) == Words(0x886e7a22, 0x7a0508a1, 0xf11bfaa8, 0x05757ceb, 0x49231c1e, 0x52f1ccf7, 0x6e5c390c, 0xbd714038)
  {
    hide Schedule, Rounds;
    Words48(block);
    Rounds48(block);
    var v49 := Words(0x05757ceb, 0x4172328d, 0xa14c14b0, 0x72ab4b91, 0xbd714038, 0xfecf0bc6, 0xd57b94a9, 0xb7755da1);
    Turn(block, 48, Words(0x4172328d, 0xa14c14b0, 0x72ab4b91, 0x26628815, 0xfecf0bc6, 0xd57b94a9, 0xb7755da1, 0xa80f11f0), 0x19a4c116, 0xfb3e89cb, v49);
    var v50 := Words(0xf11bfaa8, 0x05757ceb, 0x4172328d, 0xa14c14b0, 0x6e5c390c, 0xbd714038, 0xfecf0bc6, 0xd57b94a9);
    Turn(block, 49, v49, 0x1e376c08, 0xcc7617db, v50);
    var v51 := Words(0x7a0508a1, 0xf11bfaa8, 0x05757ceb, 0x4172328d, 0x52f1ccf7, 0x6e5c390c, 0xbd714038, 0xfecf0bc6);
    Turn(block, 50, v50, 0x2748774c, 0xb9e66c34, v51);
    var v52 := Words(0x886e7a22, 0x7a0508a1, 0xf11bfaa8, 0x05757ceb, 0x49231c1e, 0x52f1ccf7, 0x6e5c390c, 0xbd714038);
    Turn(block, 51, v51, 0x34b0bcb5, 0xa9993667, v52);
  }

  lemma Rounds56(block: seq<Byte>)
    requires IsAbc(block)
    ensures |block| == 64 && Rounds(START, block, 56) == Words(0x38cc9913, 0x3ec45cdb, 0xf5702fdb, 0x101fd28f, 0x54cb266b, 0xe50e1b4f, 0x9f4787c3, 0x529e7d00)
  {
    hide Schedule, Rounds;
    Words48(block);
    Rounds52(block);
    var v53 := Words(0x101fd28f, 0x886e7a22, 0x7a0508a1, 0xf11bfaa8, 0x529e7d00, 0x49231c1e, 0x52f1ccf7, 0x6e5c390c);
    Turn(block, 52, Words(0x886e7a22, 0x7a0508a1, 0xf11bfaa8, 0x05757ceb, 0x49231c1e, 0x52f1ccf7, 0x6e5c390c, 0xbd714038), 0x391c0cb3, 0x84badedd, v53);
    var v54 := Words(0xf5702fdb, 0x101fd28f, 0x886e7a22, 0x7a0508a1, 0x9f4787c3, 0x529e7d00, 0x49231c1e, 0x52f1ccf7);
    Turn(block, 53, v53, 0x4ed8aa4a, 0xc21462bc, v54);
    var v55 := Words(0x3ec45cdb, 0xf5702fdb, 0x101fd28f, 0x886e7a22, 0xe50e1b4f, 0x9f4787c3, 0x529e7d00, 0x49231c1e);
    Turn(block, 54, v54, 0x5b9cca4f, 0x1487472c, v55);
    var v56 := Words(0x38cc9913, 0x3ec45cdb, 0xf5702fdb, 0x101fd28f, 0x54cb266b, 0xe50e1b4f, 0x9f4787c3, 0x529e7d00);
    Turn(block, 55, v55, 0x682e6ff3, 0xb20f7a99, v56);
  }

  lemma Rounds60(block: seq<Byte>)
    requires IsAbc(block)
    ensures |block| == 64 && Rounds(START, block, 60) == Words(0xb6ae8fff, 0xffb70472, 0xc062d46f, 0xfcd1887b, 0xb21bad3d, 0x6d83bfc6, 0x7e44008e, 0x9b5e906c)
  {
    hide Schedule, Rounds;
    Words56(block);
    Rounds56(block);
    var v57 := Words(0xfcd1887b, 0x38cc9913, 0x3ec45cdb, 0xf5702fdb, 0x9b5e906c, 0x54cb266b, 0xe50e1b4f, 0x9f4787c3);
    Turn(block, 56, Words(0x38cc9913, 0x3ec45cdb, 0xf5702fdb, 0x101fd28f, 0x54cb266b, 0xe50e1b4f, 0x9f4787c3, 0x529e7d00), 0x748f82ee, 0xef57b9cd, v57);
    var v58 := Words(0xc062d46f, 0xfcd1887b, 0x38cc9913, 0x3ec45cdb, 0x7e44008e, 0x9b5e906c, 0x54cb266b, 0xe50e1b4f);
    Turn(block, 57, v57, 0x78a5636f, 0xebe6b238, v58);
    var v59 := Words(0xffb70472, 0xc062d46f, 0xfcd1887b, 0x38cc9913, 0x6d83bfc6, 0x7e44008e, 0x9b5e906c, 0x54cb266b);
    Turn(block, 58, v58, 0x84c87814, 0x9fe3095e, v59);
    var v60 := Words(0xb6ae8fff, 0xffb70472, 0xc062d46f, 0xfcd1887b, 0xb21bad3d, 0x6d83bfc6, 0x7e44008e, 0x9b5e906c);
    Turn(block, 59, v59, 0x8cc70208, 0x78bc8d4b, v60);
  }

  lemma Rounds64(block: seq<Byte>)
    requires IsAbc(block)
    ensures |block| == 64 && Rounds(START, block, 64) == Words(0x506e3058, 0xd39a2165, 0x04d24d6c, 0xb85e2ce9, 0x5ef50f24, 0xfb121210, 0x948d25b6, 0x961f4894)
  {
    hide Schedule, Rounds;
    Words56(block);
    Rounds60(block);
    var v61 := Words(0xb85e2ce9, 0xb6ae8fff, 0xffb70472, 0xc062d46f, 0x961f4894, 0xb21bad3d, 0x6d83bfc6, 0x7e44008e);
    Turn(block, 60, Words(0xb6ae8fff, 0xffb70472, 0xc062d46f, 0xfcd1887b, 0xb21bad3d, 0x6d83bfc6, 0x7e44008e, 0x9b5e906c), 0x90befffa, 0xa43fcf15, v61);
    var v62 := Words(0x04d24d6c, 0xb85e2ce9, 0xb6ae8fff, 0xffb70472, 0x948d25b6, 0x961f4894, 0xb21bad3d, 0x6d83bfc6);
    Turn(block, 61, v61, 0xa4506ceb, 0x668b2ff8, v62);
    var v63 := Words(0xd39a2165, 0x04d24d6c, 0xb85e2ce9, 0xb6ae8fff, 0xfb121210, 0x948d25b6, 0x961f4894, 0xb21bad3d);
    Turn(block, 62, v62, 0xbef9a3f7, 0xeeaba2cc, v63);
    var v64 := Words(0x506e3058, 0xd39a2165, 0x04d24d6c, 0xb85e2ce9, 0x5ef50f24, 0xfb121210, 0x948d25b6, 0x961f4894);
    Turn(block, 63, v63, 0xc67178f2, 0x12b1edeb, v64);
  }

  lemma CompressedAbc(block: seq<Byte>)
    requires IsAbc(block)
    ensures |block| == 64 && Compress(START, block) == Words(0xba7816bf, 0x8f01cfea, 0x414140de, 0x5dae2223, 0xb00361a3, 0x96177a9c, 0xb410ff61, 0xf20015ad)
  {
    hide Rounds;
    Rounds64(block);
  }

  lemma SpelledAbc()
    ensures Spell(Listed(Words(0xba7816bf, 0x8f01cfea, 0x414140de, 0x5dae2223, 0xb00361a3, 0x96177a9c, 0xb410ff61, 0xf20015ad))) ==
            [0xba, 0x78, 0x16, 0xbf, 0x8f, 0x01, 0xcf, 0xea, 0x41, 0x41, 0x40, 0xde, 0x5d, 0xae, 0x22, 0x23,
             0xb0, 0x03, 0x61, 0xa3, 0x96, 0x17, 0x7a, 0x9c, 0xb4, 0x10, 0xff, 0x61, 0xf2, 0x00, 0x15, 0xad]
  {
    var ws: seq<Word> := [0xba7816bf, 0x8f01cfea, 0x414140de, 0x5dae2223, 0xb00361a3, 0x96177a9c, 0xb410ff61, 0xf20015ad];
    SpelledOut(ws);
  }

  lemma SpelledOut(ws: seq<Word>)
    requires |ws| == 8
    ensures Spell(ws) == StoreBig(ws[0]) + StoreBig(ws[1]) + StoreBig(ws[2]) + StoreBig(ws[3])
                         + StoreBig(ws[4]) + StoreBig(ws[5]) + StoreBig(ws[6]) + StoreBig(ws[7])
  {
    hide StoreBig;
    forall i | 0 <= i < 8 ensures Spell(ws[..i + 1]) == Spell(ws[..i]) + StoreBig(ws[i]) {
      assert ws[..i + 1][..i] == ws[..i];
    }
    assert ws[..0] == [] && ws[..8] == ws;
    assert Spell(ws[..1]) == StoreBig(ws[0]);
  }

  /** The digest of "abc" is the one that the standard publishes. */
  lemma HashOfAbc()
    ensures Hash(ABC) ==
            [0xba, 0x78, 0x16, 0xbf, 0x8f, 0x01, 0xcf, 0xea, 0x41, 0x41, 0x40, 0xde, 0x5d, 0xae, 0x22, 0x23,
             0xb0, 0x03, 0x61, 0xa3, 0x96, 0x17, 0x7a, 0x9c, 0xb4, 0x10, 0xff, 0x61, 0xf2, 0x00, 0x15, 0xad]
  {
    hide Pad, Compress, Spell, IsAbc;
    var block := Pad(ABC);
    AbcIsPadded();
    CompressedAbc(block);
    OneBlock(Compress, START, block);
    SpelledAbc();
  }
}
