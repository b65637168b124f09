/** What the hash is made of, in other words than the program's: the logical functions bit by bit, the constants as
    fractions of roots. */
module Sha256Standard {
  import opened Bytes
  import opened Sha256
  import opened Tables

  // The functions of section 4.1.2.

  /** One place to the right; the bit that falls out comes back on the left. */
  function Once(x: word): word {
    (x >> 1) | (x << 31)
  }

  function Rotate(x: word, n: nat): word {
    if n == 0 then x else Once(Rotate(x, n - 1))
  }

  lemma {:induction false} RotateTwice(x: word, m: nat, n: nat)
    ensures Rotate(Rotate(x, m), n) == Rotate(x, m + n)
  {
    if n > 0 {
      RotateTwice(x, m, n - 1);
    }
  }

  lemma TwoPlaces(x: word)
    ensures Rotate(x, 1) == (x >> 1) | (x << 31) && Rotate(x, 2) == (x >> 2) | (x << 30)
  {
  }

  lemma FourPlaces(x: word)
    ensures Rotate(x, 4) == (x >> 4) | (x << 28)
  {
    TwoPlaces(x);
    TwoPlaces(Rotate(x, 2));
    RotateTwice(x, 2, 2);
  }

  lemma EightPlaces(x: word)
    ensures Rotate(x, 8) == (x >> 8) | (x << 24)
  {
    FourPlaces(x);
    FourPlaces(Rotate(x, 4));
    RotateTwice(x, 4, 4);
  }

  lemma SixteenPlaces(x: word)
    ensures Rotate(x, 16) == (x >> 16) | (x << 16)
  {
    EightPlaces(x);
    EightPlaces(Rotate(x, 8));
    RotateTwice(x, 8, 8);
  }

  lemma Places6(x: word)
    ensures Rotate(x, 6) == (x >> 6) | (x << 26)
  {
    FourPlaces(x);
    TwoPlaces(Rotate(x, 4));
    RotateTwice(x, 4, 2);
  }

  lemma Places7(x: word)
    ensures Rotate(x, 7) == (x >> 7) | (x << 25)
  {
    Places6(x);
    TwoPlaces(Rotate(x, 6));
    RotateTwice(x, 6, 1);
  }

  lemma Places11(x: word)
    ensures Rotate(x, 11) == (x >> 11) | (x << 21)
  {
    EightPlaces(x);
    TwoPlaces(Rotate(x, 8));
    RotateTwice(x, 8, 2);
    TwoPlaces(Rotate(x, 10));
    RotateTwice(x, 10, 1);
  }

  lemma Places13(x: word)
    ensures Rotate(x, 13) == (x >> 13) | (x << 19)
  {
    EightPlaces(x);
    FourPlaces(Rotate(x, 8));
    RotateTwice(x, 8, 4);
    TwoPlaces(Rotate(x, 12));
    RotateTwice(x, 12, 1);
  }

  lemma Places17(x: word)
    ensures Rotate(x, 17) == (x >> 17) | (x << 15)
  {
    SixteenPlaces(x);
    TwoPlaces(Rotate(x, 16));
    RotateTwice(x, 16, 1);
  }

  lemma Places18(x: word)
    ensures Rotate(x, 18) == (x >> 18) | (x << 14)
  {
    SixteenPlaces(x);
    TwoPlaces(Rotate(x, 16));
    RotateTwice(x, 16, 2);
  }

  lemma Places19(x: word)
    ensures Rotate(x, 19) == (x >> 19) | (x << 13)
  {
    SixteenPlaces(x);
    TwoPlaces(Rotate(x, 16));
    RotateTwice(x, 16, 2);
    TwoPlaces(Rotate(x, 18));
    RotateTwice(x, 18, 1);
  }

  lemma Places22(x: word)
    ensures Rotate(x, 22) == (x >> 22) | (x << 10)
  {
    SixteenPlaces(x);
    FourPlaces(Rotate(x, 16));
    RotateTwice(x, 16, 4);
    TwoPlaces(Rotate(x, 20));
    RotateTwice(x, 20, 2);
  }

  lemma Places25(x: word)
    ensures Rotate(x, 25) == (x >> 25) | (x << 7)
  {
    SixteenPlaces(x);
    EightPlaces(Rotate(x, 16));
    RotateTwice(x, 16, 8);
    TwoPlaces(Rotate(x, 24));
    RotateTwice(x, 24, 1);
  }

  lemma BigSum0(x: word)
    ensures BigSigma0(x) == Xor3(Rotate(x, 2), Rotate(x, 13), Rotate(x, 22))
  {
    TwoPlaces(x);
    Places13(x);
    Places22(x);
  }

  lemma BigSum1(x: word)
    ensures BigSigma1(x) == Xor3(Rotate(x, 6), Rotate(x, 11), Rotate(x, 25))
  {
    Places6(x);
    Places11(x);
    Places25(x);
  }

  lemma SmallSum0(x: word)
    ensures SmallSigma0(x) == Xor3(Rotate(x, 7), Rotate(x, 18), x >> 3)
  {
    Places7(x);
    Places18(x);
  }

  lemma SmallSum1(x: word)
    ensures SmallSigma1(x) == Xor3(Rotate(x, 17), Rotate(x, 19), x >> 10)
  {
    Places17(x);
    Places19(x);
  }

  /** `c` has the bits of `y` where `x` has ones, and those of `z` where it has zeros. */
  ghost predicate Chosen(x: word, y: word, z: word, c: word) {
    c & x == y & x && c & !x == z & !x
  }

  lemma ChoosesOnes(x: word, y: word, z: word)
    ensures Ch(x, y, z) & x == y & x
  {
  }

  lemma ChoosesZeros(x: word, y: word, z: word)
    ensures Ch(x, y, z) & !x == z & !x
  {
  }

  lemma ChoosesBits(x: word, y: word, z: word)
    ensures Chosen(x, y, z, Ch(x, y, z))
  {
    ChoosesOnes(x, y, z);
    ChoosesZeros(x, y, z);
  }

  lemma ChosenIsOne(x: word, y: word, z: word, c: word)
    requires Chosen(x, y, z, c)
    ensures c == Ch(x, y, z)
  {
    assert c == (c & x) ^ (c & !x);
  }

  /** `c` has ones where both words have ones, and zeros where both have zeros. */
  ghost predicate Agrees(x: word, y: word, c: word) {
    x & y & c == x & y && !x & !y & c == 0
  }

  lemma MajorityAgrees(x: word, y: word, z: word)
    ensures Agrees(x, y, Maj(x, y, z))
  {
  }

  lemma MajorityTurns(x: word, y: word, z: word)
    ensures Maj(x, y, z) == Maj(x, z, y) == Maj(y, z, x)
  {
  }

  lemma MajorityIsOne(x: word, y: word, z: word, c: word)
    requires Agrees(x, y, c) && Agrees(x, z, c) && Agrees(y, z, c)
    ensures c == Maj(x, y, z)
  {
  }

  /** A round of section 6.2.2, whichever words the chosen bits and the majority are. */
  lemma RoundIs(v: Vars, k: word, w: word, choice: word, majority: word)
    requires Chosen(v.e, v.f, v.g, choice)
    requires Agrees(v.a, v.b, majority) && Agrees(v.a, v.c, majority) && Agrees(v.b, v.c, majority)
    ensures
      var sum1 := Xor3(Rotate(v.e, 6), Rotate(v.e, 11), Rotate(v.e, 25));
      var sum0 := Xor3(Rotate(v.a, 2), Rotate(v.a, 13), Rotate(v.a, 22));
      Round(v, k, w) == Mix(v, sum1, choice, sum0, majority, k, w)
  {
    ChosenIsOne(v.e, v.f, v.g, choice);
    MajorityIsOne(v.a, v.b, v.c, majority);
    BigSum1(v.e);
    BigSum0(v.a);
  }

  // The constants of sections 4.2.2 and 5.3.3.

  const P0: seq<int> := [2, 3, 5, 7, 11, 13, 17, 19]
  const P1: seq<int> := [23, 29, 31, 37, 41, 43, 47, 53]
  const P2: seq<int> := [59, 61, 67, 71, 73, 79, 83, 89]
  const P3: seq<int> := [97, 101, 103, 107, 109, 113, 127, 131]
  const P4: seq<int> := [137, 139, 149, 151, 157, 163, 167, 173]
  const P5: seq<int> := [179, 181, 191, 193, 197, 199, 211, 223]
  const P6: seq<int> := [227, 229, 233, 239, 241, 251, 257, 263]
  const P7: seq<int> := [269, 271, 277, 281, 283, 293, 307, 311]

  /** `k` are the first 32 bits behind the point of the root of `p`, whose whole part is `n`. */
  ghost predicate CubeRootWith(p: int, n: int, k: int) {
    var r := n * 0x1_0000_0000 + k;
    0 <= k < 0x1_0000_0000 && r * r * r <= p * 0x1_0000_0000_0000_0000_0000_0000 < (r + 1) * (r + 1) * (r + 1)
  }

  ghost predicate CubeRoot(p: int, k: int) {
    exists n :: CubeRootWith(p, n, k)
  }

  ghost predicate SquareRootWith(p: int, n: int, k: int) {
    var r := n * 0x1_0000_0000 + k;
    0 <= k < 0x1_0000_0000 && r * r <= p * 0x1_0000_0000_0000_0000 < (r + 1) * (r + 1)
  }

  ghost predicate SquareRoot(p: int, k: int) {
    exists n :: SquareRootWith(p, n, k)
  }

  lemma IsCubeRoot(p: int, n: int, k: int, r: int)
    requires r == n * 0x1_0000_0000 + k && 0 <= k < 0x1_0000_0000
    requires r * r * r <= p * 0x1_0000_0000_0000_0000_0000_0000 < (r + 1) * (r + 1) * (r + 1)
    ensures CubeRoot(p, k)
  {
    assert CubeRootWith(p, n, k);
  }

  lemma IsSquareRoot(p: int, n: int, k: int, r: int)
    requires r == n * 0x1_0000_0000 + k && 0 <= k < 0x1_0000_0000
    requires r * r <= p * 0x1_0000_0000_0000_0000 < (r + 1) * (r + 1)
    ensures SquareRoot(p, k)
  {
    assert SquareRootWith(p, n, k);
  }

  /** The initial hash value is made of the square roots of the first eight of these primes. */
  lemma InitialHash(i: nat)
    requires i < 8
    ensures SquareRoot(P0[i], H0[i] as int)
  {
    match i
    case 0 => IsSquareRoot(2, 1, 0x6a09e667, 6074000999);
    case 1 => IsSquareRoot(3, 1, 0xbb67ae85, 7439101573);
    case 2 => IsSquareRoot(5, 2, 0x3c6ef372, 9603838834);
    case 3 => IsSquareRoot(7, 2, 0xa54ff53a, 11363415354);
    case 4 => IsSquareRoot(11, 3, 0x510e527f, 14244795007);
    case 5 => IsSquareRoot(13, 3, 0x9b05688c, 15485724812);
    case 6 => IsSquareRoot(17, 4, 0x1f83d9ab, 17708603819);
    case _ => IsSquareRoot(19, 4, 0x5be0cd19, 18721328409);
  }

  lemma RootsOf0(i: nat)
    requires i < 8
    ensures CubeRoot(P0[i], K0[i] as int)
  {
    match i
    case 0 => IsCubeRoot(2, 1, 0x428a2f98, 5411319704);
    case 1 => IsCubeRoot(3, 1, 0x71374491, 6194414737);
    case 2 => IsCubeRoot(5, 1, 0xb5c0fbcf, 7344290767);
    case 3 => IsCubeRoot(7, 1, 0xe9b5dba5, 8215976869);
    case 4 => IsCubeRoot(11, 2, 0x3956c25b, 9551921755);
    case 5 => IsCubeRoot(13, 2, 0x59f111f1, 10098905585);
    case 6 => IsCubeRoot(17, 2, 0x923f82a4, 11043570340);
    case _ => IsCubeRoot(19, 2, 0xab1c5ed5, 11460697813);
  }

  lemma RootsOf1(i: nat)
    requires i < 8
    ensures CubeRoot(P1[i], K1[i] as int)
  {
    match i
    case 0 => IsCubeRoot(23, 2, 0xd807aa98, 12214315672);
    case 1 => IsCubeRoot(29, 3, 0x12835b01, 13195500289);
    case 2 => IsCubeRoot(31, 3, 0x243185be, 13492127166);
    case 3 => IsCubeRoot(37, 3, 0x550c7dc3, 14311783875);
    case 4 => IsCubeRoot(41, 3, 0x72be5d74, 14809980276);
    case 5 => IsCubeRoot(43, 3, 0x80deb1fe, 15046980094);
    case 6 => IsCubeRoot(47, 3, 0x9bdc06a7, 15499789991);
    case _ => IsCubeRoot(53, 3, 0xc19bf174, 16133124468);
  }

  lemma RootsOf2(i: nat)
    requires i < 8
    ensures CubeRoot(P2[i], K2[i] as int)
  {
    match i
    case 0 => IsCubeRoot(59, 3, 0xe49b69c1, 16720292289);
    case 1 => IsCubeRoot(61, 3, 0xefbe4786, 16907126662);
    case 2 => IsCubeRoot(67, 4, 0x0fc19dc6, 17444216262);
    case 3 => IsCubeRoot(71, 4, 0x240ca1cc, 17784676812);
    case 4 => IsCubeRoot(73, 4, 0x2de92c6f, 17950125167);
    case 5 => IsCubeRoot(79, 4, 0x4a7484aa, 18429019306);
    case 6 => IsCubeRoot(83, 4, 0x5cb0a9dc, 18734950876);
    case _ => IsCubeRoot(89, 4, 0x76f988da, 19175934170);
  }

  lemma RootsOf3(i: nat)
    requires i < 8
    ensures CubeRoot(P3[i], K3[i] as int)
  {
    match i
    case 0 => IsCubeRoot(97, 4, 0x983e5152, 19734090066);
    case 1 => IsCubeRoot(101, 4, 0xa831c66d, 20001703533);
    case 2 => IsCubeRoot(103, 4, 0xb00327c8, 20132865992);
    case 3 => IsCubeRoot(107, 4, 0xbf597fc7, 20390182855);
    case 4 => IsCubeRoot(109, 4, 0xc6e00bf3, 20516441075);
    case 5 => IsCubeRoot(113, 4, 0xd5a79147, 20764397895);
    case 6 => IsCubeRoot(127, 5, 0x06ca6351, 21588763473);
    case _ => IsCubeRoot(131, 5, 0x14292967, 21813078375);
  }

  lemma RootsOf4(i: nat)
    requires i < 8
    ensures CubeRoot(P4[i], K4[i] as int)
  {
    match i
    case 0 => IsCubeRoot(137, 5, 0x27b70a85, 22141143685);
    case 1 => IsCubeRoot(139, 5, 0x2e1b2138, 22248366392);
    case 2 => IsCubeRoot(149, 5, 0x4d2c6dfc, 22769593852);
    case 3 => IsCubeRoot(151, 5, 0x53380d13, 22871018771);
    case 4 => IsCubeRoot(157, 5, 0x650a7354, 23170020180);
    case 5 => IsCubeRoot(163, 5, 0x766a0abb, 23461497531);
    case 6 => IsCubeRoot(167, 5, 0x81c2c92e, 23651862830);
    case _ => IsCubeRoot(173, 5, 0x92722c85, 23931792517);
  }

  lemma RootsOf5(i: nat)
    requires i < 8
    ensures CubeRoot(P5[i], K5[i] as int)
  {
    match i
    case 0 => IsCubeRoot(179, 5, 0xa2bfe8a1, 24205322401);
    case 1 => IsCubeRoot(181, 5, 0xa81a664b, 24295138891);
    case 2 => IsCubeRoot(191, 5, 0xc24b8b70, 24734567280);
    case 3 => IsCubeRoot(193, 5, 0xc76c51a3, 24820601251);
    case 4 => IsCubeRoot(197, 5, 0xd192e819, 24990902297);
    case 5 => IsCubeRoot(199, 5, 0xd6990624, 25075189284);
    case 6 => IsCubeRoot(211, 5, 0xf40e3585, 25569408389);
    case _ => IsCubeRoot(223, 6, 0x106aa070, 26045227120);
  }

  lemma RootsOf6(i: nat)
    requires i < 8
    ensures CubeRoot(P6[i], K6[i] as int)
  {
    match i
    case 0 => IsCubeRoot(227, 6, 0x19a4c116, 26200031510);
    case 1 => IsCubeRoot(229, 6, 0x1e376c08, 26276752392);
    case 2 => IsCubeRoot(233, 6, 0x2748774c, 26428864332);
    case 3 => IsCubeRoot(239, 6, 0x34b0bcb5, 26653801653);
    case 4 => IsCubeRoot(241, 6, 0x391c0cb3, 26727943347);
    case 5 => IsCubeRoot(251, 6, 0x4ed8aa4a, 27092625994);
    case 6 => IsCubeRoot(257, 6, 0x5b9cca4f, 27306805839);
    case _ => IsCubeRoot(263, 6, 0x682e6ff3, 27517677555);
  }

  lemma RootsOf7(i: nat)
    requires i < 8
    ensures CubeRoot(P7[i], K7[i] as int)
  {
    match i
    case 0 => IsCubeRoot(269, 6, 0x748f82ee, 27725365998);
    case 1 => IsCubeRoot(271, 6, 0x78a5636f, 27793908591);
    case 2 => IsCubeRoot(277, 6, 0x84c87814, 27997534228);
    case 3 => IsCubeRoot(281, 6, 0x8cc70208, 28131656200);
    case 4 => IsCubeRoot(283, 6, 0x90befffa, 28198240250);
    case 5 => IsCubeRoot(293, 6, 0xa4506ceb, 28526537963);
    case 6 => IsCubeRoot(307, 6, 0xbef9a3f7, 28973835255);
    case _ => IsCubeRoot(311, 6, 0xc67178f2, 29099129074);
  }

  /** The constants of the rounds are made of the cube roots of these primes, eight in a row. */
  lemma RoundConstants(r: nat, i: nat)
    requires r < 8 && i < 8
    ensures CubeRoot([P0, P1, P2, P3, P4, P5, P6, P7][r][i], [K0, K1, K2, K3, K4, K5, K6, K7][r][i] as int)
    ensures K[8 * r + i] == [K0, K1, K2, K3, K4, K5, K6, K7][r][i]
  {
    RowOf([K0, K1, K2, K3, K4, K5, K6, K7], r, i);
    match r
    case 0 => RootsOf0(i);
    case 1 => RootsOf1(i);
    case 2 => RootsOf2(i);
    case 3 => RootsOf3(i);
    case 4 => RootsOf4(i);
    case 5 => RootsOf5(i);
    case 6 => RootsOf6(i);
    case _ => RootsOf7(i);
  }
}
