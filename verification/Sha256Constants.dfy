/** Where the constants of SHA-256 come from (sections 4.2.2 and 5.3.3 of FIPS 180-4): the first 32 bits behind the
    point of the cube roots of the first 64 primes, and of the square roots of the first eight. */
module Sha256Constants {
  import opened Bytes
  import opened Sha256

  // -------------------------------------------------------------------------
  // Primes

  ghost predicate Prime(n: nat) {
    n >= 2 && forall d :: 2 <= d < n ==> n % d != 0
  }

  /** Below 324 it is enough to try the primes up to 17. */
  predicate Small(n: nat) {
    n in {2, 3, 5, 7, 11, 13, 17}
    || (n >= 2 && n % 2 != 0 && n % 3 != 0 && n % 5 != 0 && n % 7 != 0 && n % 11 != 0 && n % 13 != 0 && n % 17 != 0)
  }

  /** None of the numbers from lo on and below hi. */
  predicate NoneIn(lo: nat, hi: nat)
    decreases hi - lo
  {
    lo >= hi || (!Small(lo) && NoneIn(lo + 1, hi))
  }

  ghost function PrimesBelow(n: nat): nat {
    if n == 0 then 0 else PrimesBelow(n - 1) + if Prime(n - 1) then 1 else 0
  }

  /** Counting from 0. */
  ghost predicate IsPrime(p: nat, t: nat) {
    Prime(p) && PrimesBelow(p) == t
  }

  lemma ProductIsMultiple(n: nat, d: nat, b: nat)
    requires d >= 1 && n == d * b
    ensures n % d == 0
  {
    var q := n / d;
    assert n == d * q + n % d;
    assert d * (b - q) == n % d;
    if b - q >= 1 { Grows(d, d, b - q, 1); } else if b - q <= -1 { Grows(d, d, q - b, 1); }
  }

  lemma Grows(x: int, y: int, u: int, v: int)
    requires x >= y >= 0 && u >= v >= 0
    ensures x * u >= y * v
  {
    assert x * u - y * v == (x - y) * u + y * (u - v);
  }

  /** A divisor of at least d, where nothing below d divides and d * d is larger, would have a partner below d. */
  lemma NoPartner(n: nat, d: nat, k: nat)
    requires 2 <= d <= k < n < d * d && forall j :: 2 <= j < d ==> n % j != 0
    ensures n % k != 0
  {
    var q := n / k;
    assert n == k * q + n % k;
    if q >= d {
      Grows(k, d, q, d);
    } else if n == q * k {
      if q >= 2 { ProductIsMultiple(n, q, k); }
    }
  }

  lemma SmallIsPrime(n: nat)
    requires n < 324
    ensures Small(n) <==> Prime(n)
  {
    if n in {2, 3, 5, 7, 11, 13, 17} {
      assert Prime(n);
    } else if n >= 2 && Small(n) {
      NothingBelow18(n);
      forall k | 2 <= k < n ensures n % k != 0 {
        if k >= 18 { NoPartner(n, 18, k); }
      }
    } else if n >= 2 {
      var d :| d in {2, 3, 5, 7, 11, 13, 17} && n % d == 0;
      AtLeast(n, d);
      assert d < n;
    }
  }

  lemma AtLeast(n: nat, d: nat)
    requires d >= 1
    ensures n < d ==> n % d == n
  {
  }

  /** The other numbers up to 17 are multiples of those. */
  lemma NothingBelow18(n: nat)
    requires n % 2 != 0 && n % 3 != 0 && n % 5 != 0 && n % 7 != 0 && n % 11 != 0 && n % 13 != 0 && n % 17 != 0
    ensures forall k :: 2 <= k < 18 ==> n % k != 0
  {
    forall k | 2 <= k < 18 ensures n % k != 0 {
      if k in {4, 6, 8, 10, 12, 14, 16} {
        if n % k == 0 { DividesOn(n, k, 2); }
      } else if k in {9, 15} {
        if n % k == 0 { DividesOn(n, k, 3); }
      }
    }
  }

  lemma DividesOn(n: nat, k: nat, d: nat)
    requires k >= 1 && d >= 1 && n % k == 0 && k % d == 0
    ensures n % d == 0
  {
    var q, r := n / k, k / d;
    assert n == (d * r) * q == d * (r * q);
    ProductIsMultiple(n, d, r * q);
  }

  lemma {:induction false} NothingCounted(lo: nat, hi: nat)
    requires lo <= hi <= 324 && NoneIn(lo, hi)
    ensures PrimesBelow(hi) == PrimesBelow(lo)
    decreases hi - lo
  {
    hide Small, Prime;
    if lo < hi {
      SmallIsPrime(lo);
      NothingCounted(lo + 1, hi);
    }
  }

  lemma Next(p: nat, q: nat, t: nat)
    requires IsPrime(p, t) && p < q < 324 && Small(q) && NoneIn(p + 1, q)
    ensures IsPrime(q, t + 1)
  {
    hide Small, Prime;
    SmallIsPrime(q);
    NothingCounted(p + 1, q);
  }

  lemma FirstPrime()
    ensures IsPrime(2, 0)
  {
    assert PrimesBelow(1) == PrimesBelow(0) && PrimesBelow(2) == PrimesBelow(1);
  }

  // -------------------------------------------------------------------------
  // Roots

  /** w holds the 32 bits behind the point of the cube root of p: n is that root times 2^32, cut to an integer. */
  ghost predicate CubeRootBits(p: nat, w: Word) {
    exists n: nat :: IsCubeRoot(n, p) && n % 0x1_0000_0000 == w as nat
  }

  predicate IsCubeRoot(n: nat, p: nat) {
    n * n * n <= p * 0x1_0000_0000_0000_0000_0000_0000 < (n + 1) * (n + 1) * (n + 1)
  }

  ghost predicate SquareRootBits(p: nat, w: Word) {
    exists n: nat :: IsSquareRoot(n, p) && n % 0x1_0000_0000 == w as nat
  }

  predicate IsSquareRoot(n: nat, p: nat) {
    n * n <= p * 0x1_0000_0000_0000_0000 < (n + 1) * (n + 1)
  }

  lemma Cube(t: nat, p: nat, n: nat)
    requires t < 64 && IsPrime(p, t) && IsCubeRoot(n, p) && n % 0x1_0000_0000 == K[t] as nat
    ensures Constant(t)
  {
  }

  /** The t-th constant comes from the t-th prime. */
  ghost predicate Constant(t: nat)
    requires t < 64
  {
    exists p: nat :: IsPrime(p, t) && CubeRootBits(p, K[t])
  }

  lemma Constants0()
    ensures IsPrime(7, 3) && Constant(0) && Constant(1) && Constant(2) && Constant(3)
  {
    hide IsPrime, Constant;
    FirstPrime();
    Cube(0, 2, 0x1_428a2f98);
    assert NoneIn(3, 3);
    Next(2, 3, 0);
    Cube(1, 3, 0x1_71374491);
    assert NoneIn(4, 5);
    Next(3, 5, 1);
    Cube(2, 5, 0x1_b5c0fbcf);
    assert NoneIn(6, 7);
    Next(5, 7, 2);
    Cube(3, 7, 0x1_e9b5dba5);
  }

  lemma Constants4()
    ensures IsPrime(19, 7) && Constant(4) && Constant(5) && Constant(6) && Constant(7)
  {
    hide IsPrime, Constant;
    Constants0();
    assert NoneIn(8, 11);
    Next(7, 11, 3);
    Cube(4, 11, 0x2_3956c25b);
    assert NoneIn(12, 13);
    Next(11, 13, 4);
    Cube(5, 13, 0x2_59f111f1);
    assert NoneIn(14, 17);
    Next(13, 17, 5);
    Cube(6, 17, 0x2_923f82a4);
    assert NoneIn(18, 19);
    Next(17, 19, 6);
    Cube(7, 19, 0x2_ab1c5ed5);
  }

  lemma Constants8()
    ensures IsPrime(37, 11) && Constant(8) && Constant(9) && Constant(10) && Constant(11)
  {
    hide IsPrime, Constant;
    Constants4();
    assert NoneIn(20, 23);
    Next(19, 23, 7);
    Cube(8, 23, 0x2_d807aa98);
    assert NoneIn(24, 29);
    Next(23, 29, 8);
    Cube(9, 29, 0x3_12835b01);
    assert NoneIn(30, 31);
    Next(29, 31, 9);
    Cube(10, 31, 0x3_243185be);
    assert NoneIn(32, 37);
    Next(31, 37, 10);
    Cube(11, 37, 0x3_550c7dc3);
  }

  lemma Constants12()
    ensures IsPrime(53, 15) && Constant(12) && Constant(13) && Constant(14) && Constant(15)
  {
    hide IsPrime, Constant;
    Constants8();
    assert NoneIn(38, 41);
    Next(37, 41, 11);
    Cube(12, 41, 0x3_72be5d74);
    assert NoneIn(42, 43);
    Next(41, 43, 12);
    Cube(13, 43, 0x3_80deb1fe);
    assert NoneIn(44, 47);
    Next(43, 47, 13);
    Cube(14, 47, 0x3_9bdc06a7);
    assert NoneIn(48, 53);
    Next(47, 53, 14);
    Cube(15, 53, 0x3_c19bf174);
  }

  lemma Constants16()
    ensures IsPrime(71, 19) && Constant(16) && Constant(17) && Constant(18) && Constant(19)
  {
    hide IsPrime, Constant;
    Constants12();
    assert NoneIn(54, 59);
    Next(53, 59, 15);
    Cube(16, 59, 0x3_e49b69c1);
    assert NoneIn(60, 61);
    Next(59, 61, 16);
    Cube(17, 61, 0x3_efbe4786);
    assert NoneIn(62, 67);
    Next(61, 67, 17);
    Cube(18, 67, 0x4_0fc19dc6);
    assert NoneIn(68, 71);
    Next(67, 71, 18);
    Cube(19, 71, 0x4_240ca1cc);
  }

  lemma Constants20()
    ensures IsPrime(89, 23) && Constant(20) && Constant(21) && Constant(22) && Constant(23)
  {
    hide IsPrime, Constant;
    Constants16();
    assert NoneIn(72, 73);
    Next(71, 73, 19);
    Cube(20, 73, 0x4_2de92c6f);
    assert NoneIn(74, 79);
    Next(73, 79, 20);
    Cube(21, 79, 0x4_4a7484aa);
    assert NoneIn(80, 83);
    Next(79, 83, 21);
    Cube(22, 83, 0x4_5cb0a9dc);
    assert NoneIn(84, 89);
    Next(83, 89, 22);
    Cube(23, 89, 0x4_76f988da);
  }

  lemma Constants24()
    ensures IsPrime(107, 27) && Constant(24) && Constant(25) && Constant(26) && Constant(27)
  {
    hide IsPrime, Constant;
    Constants20();
    assert NoneIn(90, 97);
    Next(89, 97, 23);
    Cube(24, 97, 0x4_983e5152);
    assert NoneIn(98, 101);
    Next(97, 101, 24);
    Cube(25, 101, 0x4_a831c66d);
    assert NoneIn(102, 103);
    Next(101, 103, 25);
    Cube(26, 103, 0x4_b00327c8);
    assert NoneIn(104, 107);
    Next(103, 107, 26);
    Cube(27, 107, 0x4_bf597fc7);
  }

  lemma Constants28()
    ensures IsPrime(131, 31) && Constant(28) && Constant(29) && Constant(30) && Constant(31)
  {
    hide IsPrime, Constant;
    Constants24();
    assert NoneIn(108, 109);
    Next(107, 109, 27);
    Cube(28, 109, 0x4_c6e00bf3);
    assert NoneIn(110, 113);
    Next(109, 113, 28);
    Cube(29, 113, 0x4_d5a79147);
    assert NoneIn(114, 127);
    Next(113, 127, 29);
    Cube(30, 127, 0x5_06ca6351);
    assert NoneIn(128, 131);
    Next(127, 131, 30);
    Cube(31, 131, 0x5_14292967);
  }

  lemma Constants32()
    ensures IsPrime(151, 35) && Constant(32) && Constant(33) && Constant(34) && Constant(35)
  {
    hide IsPrime, Constant;
    Constants28();
    assert NoneIn(132, 137);
    Next(131, 137, 31);
    Cube(32, 137, 0x5_27b70a85);
    assert NoneIn(138, 139);
    Next(137, 139, 32);
    Cube(33, 139, 0x5_2e1b2138);
    assert NoneIn(140, 149);
    Next(139, 149, 33);
    Cube(34, 149, 0x5_4d2c6dfc);
    assert NoneIn(150, 151);
    Next(149, 151, 34);
    Cube(35, 151, 0x5_53380d13);
  }

  lemma Constants36()
    ensures IsPrime(173, 39) && Constant(36) && Constant(37) && Constant(38) && Constant(39)
  {
    hide IsPrime, Constant;
    Constants32();
    assert NoneIn(152, 157);
    Next(151, 157, 35);
    Cube(36, 157, 0x5_650a7354);
    assert NoneIn(158, 163);
    Next(157, 163, 36);
    Cube(37, 163, 0x5_766a0abb);
    assert NoneIn(164, 167);
    Next(163, 167, 37);
    Cube(38, 167, 0x5_81c2c92e);
    assert NoneIn(168, 173);
    Next(167, 173, 38);
    Cube(39, 173, 0x5_92722c85);
  }

  lemma Constants40()
    ensures IsPrime(193, 43) && Constant(40) && Constant(41) && Constant(42) && Constant(43)
  {
    hide IsPrime, Constant;
    Constants36();
    assert NoneIn(174, 179);
    Next(173, 179, 39);
    Cube(40, 179, 0x5_a2bfe8a1);
    assert NoneIn(180, 181);
    Next(179, 181, 40);
    Cube(41, 181, 0x5_a81a664b);
    assert NoneIn(182, 191);
    Next(181, 191, 41);
    Cube(42, 191, 0x5_c24b8b70);
    assert NoneIn(192, 193);
    Next(191, 193, 42);
    Cube(43, 193, 0x5_c76c51a3);
  }

  lemma Constants44()
    ensures IsPrime(223, 47) && Constant(44) && Constant(45) && Constant(46) && Constant(47)
  {
    hide IsPrime, Constant;
    Constants40();
    assert NoneIn(194, 197);
    Next(193, 197, 43);
    Cube(44, 197, 0x5_d192e819);
    assert NoneIn(198, 199);
    Next(197, 199, 44);
    Cube(45, 199, 0x5_d6990624);
    assert NoneIn(200, 211);
    Next(199, 211, 45);
    Cube(46, 211, 0x5_f40e3585);
    assert NoneIn(212, 223);
    Next(211, 223, 46);
    Cube(47, 223, 0x6_106aa070);
  }

  lemma Constants48()
    ensures IsPrime(239, 51) && Constant(48) && Constant(49) && Constant(50) && Constant(51)
  {
    hide IsPrime, Constant;
    Constants44();
    assert NoneIn(224, 227);
    Next(223, 227, 47);
    Cube(48, 227, 0x6_19a4c116);
    assert NoneIn(228, 229);
    Next(227, 229, 48);
    Cube(49, 229, 0x6_1e376c08);
    assert NoneIn(230, 233);
    Next(229, 233, 49);
    Cube(50, 233, 0x6_2748774c);
    assert NoneIn(234, 239);
    Next(233, 239, 50);
    Cube(51, 239, 0x6_34b0bcb5);
  }

  lemma Constants52()
    ensures IsPrime(263, 55) && Constant(52) && Constant(53) && Constant(54) && Constant(55)
  {
    hide IsPrime, Constant;
    Constants48();
    assert NoneIn(240, 241);
    Next(239, 241, 51);
    Cube(52, 241, 0x6_391c0cb3);
    assert NoneIn(242, 251);
    Next(241, 251, 52);
    Cube(53, 251, 0x6_4ed8aa4a);
    assert NoneIn(252, 257);
    Next(251, 257, 53);
    Cube(54, 257, 0x6_5b9cca4f);
    assert NoneIn(258, 263);
    Next(257, 263, 54);
    Cube(55, 263, 0x6_682e6ff3);
  }

  lemma Constants56()
    ensures IsPrime(281, 59) && Constant(56) && Constant(57) && Constant(58) && Constant(59)
  {
    hide IsPrime, Constant;
    Constants52();
    assert NoneIn(264, 269);
    Next(263, 269, 55);
    Cube(56, 269, 0x6_748f82ee);
    assert NoneIn(270, 271);
    Next(269, 271, 56);
    Cube(57, 271, 0x6_78a5636f);
    assert NoneIn(272, 277);
    Next(271, 277, 57);
    Cube(58, 277, 0x6_84c87814);
    assert NoneIn(278, 281);
    Next(277, 281, 58);
    Cube(59, 281, 0x6_8cc70208);
  }

  lemma Constants60()
    ensures IsPrime(311, 63) && Constant(60) && Constant(61) && Constant(62) && Constant(63)
  {
    hide IsPrime, Constant;
    Constants56();
    assert NoneIn(282, 283);
    Next(281, 283, 59);
    Cube(60, 283, 0x6_90befffa);
    assert NoneIn(284, 293);
    Next(283, 293, 60);
    Cube(61, 293, 0x6_a4506ceb);
    assert NoneIn(294, 307);
    Next(293, 307, 61);
    Cube(62, 307, 0x6_bef9a3f7);
    assert NoneIn(308, 311);
    Next(307, 311, 62);
    Cube(63, 311, 0x6_c67178f2);
  }

  /** The constants of the 64 rounds. */
  lemma ConstantsAreCubeRoots(t: nat)
    requires t < 64
    ensures exists p: nat :: IsPrime(p, t) && CubeRootBits(p, K[t])
  {
    AllConstants();
    assert Constant(t);
  }

  lemma AllConstants()
    ensures forall t :: 0 <= t < 64 ==> Constant(t)
  {
    hide IsPrime, Constant;
    Constants0();    Constants4();    Constants8();    Constants12();
    Constants16();    Constants20();    Constants24();    Constants28();
    Constants32();    Constants36();    Constants40();    Constants44();
    Constants48();    Constants52();    Constants56();    Constants60();
  }

  lemma Square(p: nat, n: nat, w: Word)
    requires IsSquareRoot(n, p) && n % 0x1_0000_0000 == w as nat
    ensures SquareRootBits(p, w)
  {
  }

  /** The chaining value that the first block starts from: the first eight primes are 2 to 19. */
  lemma StartIsSquareRoots()
    ensures IsPrime(2, 0) && IsPrime(3, 1) && IsPrime(5, 2) && IsPrime(7, 3)
    ensures IsPrime(11, 4) && IsPrime(13, 5) && IsPrime(17, 6) && IsPrime(19, 7)
    ensures SquareRootBits(2, START.a) && SquareRootBits(3, START.b) && SquareRootBits(5, START.c) && SquareRootBits(7, START.d)
    ensures SquareRootBits(11, START.e) && SquareRootBits(13, START.f) && SquareRootBits(17, START.g) && SquareRootBits(19, START.h)
  {
    hide IsPrime, SquareRootBits;
    FirstPrime(); Next(2, 3, 0); Next(3, 5, 1); Next(5, 7, 2);
    assert NoneIn(8, 11) && NoneIn(14, 17);
    Next(7, 11, 3); Next(11, 13, 4); Next(13, 17, 5); Next(17, 19, 6);
    Square(2, 0x1_6a09e667, START.a);
    Square(3, 0x1_bb67ae85, START.b);
    Square(5, 0x2_3c6ef372, START.c);
    Square(7, 0x2_a54ff53a, START.d);
    Square(11, 0x3_510e527f, START.e);
    Square(13, 0x3_9b05688c, START.f);
    Square(17, 0x4_1f83d9ab, START.g);
    Square(19, 0x4_5be0cd19, START.h);
  }
}
