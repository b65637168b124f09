/** The worked example of FIPS 180-4 for the message "abc": its message schedule, its rounds and its digest. */
module Sha256Example {
  import opened Bytes
  import opened Sha256
  import opened Tables

  const ABC: seq<byte> := [0x61, 0x62, 0x63]

  /** Its message schedule. */
  const W0: seq<word> :=
    [0x61626380, 0x00000000, 0x00000000, 0x00000000, 0x00000000, 0x00000000, 0x00000000, 0x00000000]
  const W1: seq<word> :=
    [0x00000000, 0x00000000, 0x00000000, 0x00000000, 0x00000000, 0x00000000, 0x00000000, 0x00000018]
  const W2: seq<word> :=
    [0x61626380, 0x000f0000, 0x7da86405, 0x600003c6, 0x3e9d7b78, 0x0183fc00, 0x12dcbfdb, 0xe2e2c38e]
  const W3: seq<word> :=
    [0xc8215c1a, 0xb73679a2, 0xe5bc3909, 0x32663c5b, 0x9d209d67, 0xec8726cb, 0x702138a4, 0xd3b7973b]
  const W4: seq<word> :=
    [0x93f5997f, 0x3b68ba73, 0xaff4ffc1, 0xf10a5c62, 0x0a8b3996, 0x72af830a, 0x9409e33e, 0x24641522]
  const W5: seq<word> :=
    [0x9f47bf94, 0xf0a64f5a, 0x3e246a79, 0x27333ba3, 0x0c4763f2, 0x840abf27, 0x7a290d5d, 0x065c43da]
  const W6: seq<word> :=
    [0xfb3e89cb, 0xcc7617db, 0xb9e66c34, 0xa9993667, 0x84badedd, 0xc21462bc, 0x1487472c, 0xb20f7a99]
  const W7: seq<word> :=
    [0xef57b9cd, 0xebe6b238, 0x9fe3095e, 0x78bc8d4b, 0xa43fcf15, 0x668b2ff8, 0xeeaba2cc, 0x12b1edeb]
  lemma Words2(i: nat)
    requires i < 8
    ensures Continues(Expand, W0, W1, W2, i)
  {
    match i
    case 0 => case 1 => case 2 => case 3 => case 4 => case 5 => case 6 => case _ =>
  }

  lemma Words3(i: nat)
    requires i < 8
    ensures Continues(Expand, W1, W2, W3, i)
  {
    match i
    case 0 => case 1 => case 2 => case 3 => case 4 => case 5 => case 6 => case _ =>
  }

  lemma Words4(i: nat)
    requires i < 8
    ensures Continues(Expand, W2, W3, W4, i)
  {
    match i
    case 0 => case 1 => case 2 => case 3 => case 4 => case 5 => case 6 => case _ =>
  }

  lemma Words5(i: nat)
    requires i < 8
    ensures Continues(Expand, W3, W4, W5, i)
  {
    match i
    case 0 => case 1 => case 2 => case 3 => case 4 => case 5 => case 6 => case _ =>
  }

  lemma Words6(i: nat)
    requires i < 8
    ensures Continues(Expand, W4, W5, W6, i)
  {
    match i
    case 0 => case 1 => case 2 => case 3 => case 4 => case 5 => case 6 => case _ =>
  }

  lemma Words7(i: nat)
    requires i < 8
    ensures Continues(Expand, W5, W6, W7, i)
  {
    match i
    case 0 => case 1 => case 2 => case 3 => case 4 => case 5 => case 6 => case _ =>
  }

  const TRACE0: seq<Vars> := [
    Vars(0x6a09e667, 0xbb67ae85, 0x3c6ef372, 0xa54ff53a, 0x510e527f, 0x9b05688c, 0x1f83d9ab, 0x5be0cd19),
    Vars(0x5d6aebcd, 0x6a09e667, 0xbb67ae85, 0x3c6ef372, 0xfa2a4622, 0x510e527f, 0x9b05688c, 0x1f83d9ab),
    Vars(0x5a6ad9ad, 0x5d6aebcd, 0x6a09e667, 0xbb67ae85, 0x78ce7989, 0xfa2a4622, 0x510e527f, 0x9b05688c),
    Vars(0xc8c347a7, 0x5a6ad9ad, 0x5d6aebcd, 0x6a09e667, 0xf92939eb, 0x78ce7989, 0xfa2a4622, 0x510e527f),
    Vars(0xd550f666, 0xc8c347a7, 0x5a6ad9ad, 0x5d6aebcd, 0x24e00850, 0xf92939eb, 0x78ce7989, 0xfa2a4622),
    Vars(0x04409a6a, 0xd550f666, 0xc8c347a7, 0x5a6ad9ad, 0x43ada245, 0x24e00850, 0xf92939eb, 0x78ce7989),
    Vars(0x2b4209f5, 0x04409a6a, 0xd550f666, 0xc8c347a7, 0x714260ad, 0x43ada245, 0x24e00850, 0xf92939eb),
    Vars(0xe5030380, 0x2b4209f5, 0x04409a6a, 0xd550f666, 0x9b27a401, 0x714260ad, 0x43ada245, 0x24e00850),
    Vars(0x85a07b5f, 0xe5030380, 0x2b4209f5, 0x04409a6a, 0x0c657a79, 0x9b27a401, 0x714260ad, 0x43ada245)
  ]

  lemma Rounds0(i: nat)
    requires i < 8
    ensures Round(TRACE0[i], K0[i], W0[i]) == TRACE0[i + 1]
  {
    match i
    case 0 => case 1 => case 2 => case 3 => case 4 => case 5 => case 6 => case _ =>
  }

  const TRACE1: seq<Vars> := [
    Vars(0x85a07b5f, 0xe5030380, 0x2b4209f5, 0x04409a6a, 0x0c657a79, 0x9b27a401, 0x714260ad, 0x43ada245),
    Vars(0x8e04ecb9, 0x85a07b5f, 0xe5030380, 0x2b4209f5, 0x32ca2d8c, 0x0c657a79, 0x9b27a401, 0x714260ad),
    Vars(0x8c87346b, 0x8e04ecb9, 0x85a07b5f, 0xe5030380, 0x1cc92596, 0x32ca2d8c, 0x0c657a79, 0x9b27a401),
    Vars(0x4798a3f4, 0x8c87346b, 0x8e04ecb9, 0x85a07b5f, 0x436b23e8, 0x1cc92596, 0x32ca2d8c, 0x0c657a79),
    Vars(0xf71fc5a9, 0x4798a3f4, 0x8c87346b, 0x8e04ecb9, 0x816fd6e9, 0x436b23e8, 0x1cc92596, 0x32ca2d8c),
    Vars(0x87912990, 0xf71fc5a9, 0x4798a3f4, 0x8c87346b, 0x1e578218, 0x816fd6e9, 0x436b23e8, 0x1cc92596),
    Vars(0xd932eb16, 0x87912990, 0xf71fc5a9, 0x4798a3f4, 0x745a48de, 0x1e578218, 0x816fd6e9, 0x436b23e8),
    Vars(0xc0645fde, 0xd932eb16, 0x87912990, 0xf71fc5a9, 0x0b92f20c, 0x745a48de, 0x1e578218, 0x816fd6e9),
    Vars(0xb0fa238e, 0xc0645fde, 0xd932eb16, 0x87912990, 0x07590dcd, 0x0b92f20c, 0x745a48de, 0x1e578218)
  ]

  lemma Rounds1(i: nat)
    requires i < 8
    ensures Round(TRACE1[i], K1[i], W1[i]) == TRACE1[i + 1]
  {
    match i
    case 0 => case 1 => case 2 => case 3 => case 4 => case 5 => case 6 => case _ =>
  }

  const TRACE2: seq<Vars> := [
    Vars(0xb0fa238e, 0xc0645fde, 0xd932eb16, 0x87912990, 0x07590dcd, 0x0b92f20c, 0x745a48de, 0x1e578218),
    Vars(0x21da9a9b, 0xb0fa238e, 0xc0645fde, 0xd932eb16, 0x8034229c, 0x07590dcd, 0x0b92f20c, 0x745a48de),
    Vars(0xc2fbd9d1, 0x21da9a9b, 0xb0fa238e, 0xc0645fde, 0x846ee454, 0x8034229c, 0x07590dcd, 0x0b92f20c),
    Vars(0xfe777bbf, 0xc2fbd9d1, 0x21da9a9b, 0xb0fa238e, 0xcc899961, 0x846ee454, 0x8034229c, 0x07590dcd),
    Vars(0xe1f20c33, 0xfe777bbf, 0xc2fbd9d1, 0x21da9a9b, 0xb0638179, 0xcc899961, 0x846ee454, 0x8034229c),
    Vars(0x9dc68b63, 0xe1f20c33, 0xfe777bbf, 0xc2fbd9d1, 0x8ada8930, 0xb0638179, 0xcc899961, 0x846ee454),
    Vars(0xc2606d6d, 0x9dc68b63, 0xe1f20c33, 0xfe777bbf, 0xe1257970, 0x8ada8930, 0xb0638179, 0xcc899961),
    Vars(0xa7a3623f, 0xc2606d6d, 0x9dc68b63, 0xe1f20c33, 0x49f5114a, 0xe1257970, 0x8ada8930, 0xb0638179),
    Vars(0xc5d53d8d, 0xa7a3623f, 0xc2606d6d, 0x9dc68b63, 0xaa47c347, 0x49f5114a, 0xe1257970, 0x8ada8930)
  ]

  lemma Rounds2(i: nat)
    requires i < 8
    ensures Round(TRACE2[i], K2[i], W2[i]) == TRACE2[i + 1]
  {
    match i
    case 0 => case 1 => case 2 => case 3 => case 4 => case 5 => case 6 => case _ =>
  }

  const TRACE3: seq<Vars> := [
    Vars(0xc5d53d8d, 0xa7a3623f, 0xc2606d6d, 0x9dc68b63, 0xaa47c347, 0x49f5114a, 0xe1257970, 0x8ada8930),
    Vars(0x1c2c2838, 0xc5d53d8d, 0xa7a3623f, 0xc2606d6d, 0x2823ef91, 0xaa47c347, 0x49f5114a, 0xe1257970),
    Vars(0xcde8037d, 0x1c2c2838, 0xc5d53d8d, 0xa7a3623f, 0x14383d8e, 0x2823ef91, 0xaa47c347, 0x49f5114a),
    Vars(0xb62ec4bc, 0xcde8037d, 0x1c2c2838, 0xc5d53d8d, 0xc74c6516, 0x14383d8e, 0x2823ef91, 0xaa47c347),
    Vars(0x77d37528, 0xb62ec4bc, 0xcde8037d, 0x1c2c2838, 0xedffbff8, 0xc74c6516, 0x14383d8e, 0x2823ef91),
    Vars(0x363482c9, 0x77d37528, 0xb62ec4bc, 0xcde8037d, 0x6112a3b7, 0xedffbff8, 0xc74c6516, 0x14383d8e),
    Vars(0xa0060b30, 0x363482c9, 0x77d37528, 0xb62ec4bc, 0xade79437, 0x6112a3b7, 0xedffbff8, 0xc74c6516),
    Vars(0xea992a22, 0xa0060b30, 0x363482c9, 0x77d37528, 0x0109ab3a, 0xade79437, 0x6112a3b7, 0xedffbff8),
    Vars(0x73b33bf5, 0xea992a22, 0xa0060b30, 0x363482c9, 0xba591112, 0x0109ab3a, 0xade79437, 0x6112a3b7)
  ]

  lemma Rounds3(i: nat)
    requires i < 8
    ensures Round(TRACE3[i], K3[i], W3[i]) == TRACE3[i + 1]
  {
    match i
    case 0 => case 1 => case 2 => case 3 => case 4 => case 5 => case 6 => case _ =>
  }

  const TRACE4: seq<Vars> := [
    Vars(0x73b33bf5, 0xea992a22, 0xa0060b30, 0x363482c9, 0xba591112, 0x0109ab3a, 0xade79437, 0x6112a3b7),
    Vars(0x98e12507, 0x73b33bf5, 0xea992a22, 0xa0060b30, 0x9cd9f5f6, 0xba591112, 0x0109ab3a, 0xade79437),
    Vars(0xfe604df5, 0x98e12507, 0x73b33bf5, 0xea992a22, 0x59249dd3, 0x9cd9f5f6, 0xba591112, 0x0109ab3a),
    Vars(0xa9a7738c, 0xfe604df5, 0x98e12507, 0x73b33bf5, 0x085f3833, 0x59249dd3, 0x9cd9f5f6, 0xba591112),
    Vars(0x65a0cfe4, 0xa9a7738c, 0xfe604df5, 0x98e12507, 0xf4b002d6, 0x085f3833, 0x59249dd3, 0x9cd9f5f6),
    Vars(0x41a65cb1, 0x65a0cfe4, 0xa9a7738c, 0xfe604df5, 0x0772a26b, 0xf4b002d6, 0x085f3833, 0x59249dd3),
    Vars(0x34df1604, 0x41a65cb1, 0x65a0cfe4, 0xa9a7738c, 0xa507a53d, 0x0772a26b, 0xf4b002d6, 0x085f3833),
    Vars(0x6dc57a8a, 0x34df1604, 0x41a65cb1, 0x65a0cfe4, 0xf0781bc8, 0xa507a53d, 0x0772a26b, 0xf4b002d6),
    Vars(0x79ea687a, 0x6dc57a8a, 0x34df1604, 0x41a65cb1, 0x1efbc0a0, 0xf0781bc8, 0xa507a53d, 0x0772a26b)
  ]

  lemma Rounds4(i: nat)
    requires i < 8
    ensures Round(TRACE4[i], K4[i], W4[i]) == TRACE4[i + 1]
  {
    match i
    case 0 => case 1 => case 2 => case 3 => case 4 => case 5 => case 6 => case _ =>
  }

  const TRACE5: seq<Vars> := [
    Vars(0x79ea687a, 0x6dc57a8a, 0x34df1604, 0x41a65cb1, 0x1efbc0a0, 0xf0781bc8, 0xa507a53d, 0x0772a26b),
    Vars(0xd6670766, 0x79ea687a, 0x6dc57a8a, 0x34df1604, 0x26352d63, 0x1efbc0a0, 0xf0781bc8, 0xa507a53d),
    Vars(0xdf46652f, 0xd6670766, 0x79ea687a, 0x6dc57a8a, 0x838b2711, 0x26352d63, 0x1efbc0a0, 0xf0781bc8),
    Vars(0x17aa0dfe, 0xdf46652f, 0xd6670766, 0x79ea687a, 0xdecd4715, 0x838b2711, 0x26352d63, 0x1efbc0a0),
    Vars(0x9d4baf93, 0x17aa0dfe, 0xdf46652f, 0xd6670766, 0xfda24c2e, 0xdecd4715, 0x838b2711, 0x26352d63),
    Vars(0x26628815, 0x9d4baf93, 0x17aa0dfe, 0xdf46652f, 0xa80f11f0, 0xfda24c2e, 0xdecd4715, 0x838b2711),
    Vars(0x72ab4b91, 0x26628815, 0x9d4baf93, 0x17aa0dfe, 0xb7755da1, 0xa80f11f0, 0xfda24c2e, 0xdecd4715),
    Vars(0xa14c14b0, 0x72ab4b91, 0x26628815, 0x9d4baf93, 0xd57b94a9, 0xb7755da1, 0xa80f11f0, 0xfda24c2e),
    Vars(0x4172328d, 0xa14c14b0, 0x72ab4b91, 0x26628815, 0xfecf0bc6, 0xd57b94a9, 0xb7755da1, 0xa80f11f0)
  ]

  lemma Rounds5(i: nat)
    requires i < 8
    ensures Round(TRACE5[i], K5[i], W5[i]) == TRACE5[i + 1]
  {
    match i
    case 0 => case 1 => case 2 => case 3 => case 4 => case 5 => case 6 => case _ =>
  }

  const TRACE6: seq<Vars> := [
    Vars(0x4172328d, 0xa14c14b0, 0x72ab4b91, 0x26628815, 0xfecf0bc6, 0xd57b94a9, 0xb7755da1, 0xa80f11f0),
    Vars(0x05757ceb, 0x4172328d, 0xa14c14b0, 0x72ab4b91, 0xbd714038, 0xfecf0bc6, 0xd57b94a9, 0xb7755da1),
    Vars(0xf11bfaa8, 0x05757ceb, 0x4172328d, 0xa14c14b0, 0x6e5c390c, 0xbd714038, 0xfecf0bc6, 0xd57b94a9),
    Vars(0x7a0508a1, 0xf11bfaa8, 0x05757ceb, 0x4172328d, 0x52f1ccf7, 0x6e5c390c, 0xbd714038, 0xfecf0bc6),
    Vars(0x886e7a22, 0x7a0508a1, 0xf11bfaa8, 0x05757ceb, 0x49231c1e, 0x52f1ccf7, 0x6e5c390c, 0xbd714038),
    Vars(0x101fd28f, 0x886e7a22, 0x7a0508a1, 0xf11bfaa8, 0x529e7d00, 0x49231c1e, 0x52f1ccf7, 0x6e5c390c),
    Vars(0xf5702fdb, 0x101fd28f, 0x886e7a22, 0x7a0508a1, 0x9f4787c3, 0x529e7d00, 0x49231c1e, 0x52f1ccf7),
    Vars(0x3ec45cdb, 0xf5702fdb, 0x101fd28f, 0x886e7a22, 0xe50e1b4f, 0x9f4787c3, 0x529e7d00, 0x49231c1e),
    Vars(0x38cc9913, 0x3ec45cdb, 0xf5702fdb, 0x101fd28f, 0x54cb266b, 0xe50e1b4f, 0x9f4787c3, 0x529e7d00)
  ]

  lemma Rounds6(i: nat)
    requires i < 8
    ensures Round(TRACE6[i], K6[i], W6[i]) == TRACE6[i + 1]
  {
    match i
    case 0 => case 1 => case 2 => case 3 => case 4 => case 5 => case 6 => case _ =>
  }

  const TRACE7: seq<Vars> := [
    Vars(0x38cc9913, 0x3ec45cdb, 0xf5702fdb, 0x101fd28f, 0x54cb266b, 0xe50e1b4f, 0x9f4787c3, 0x529e7d00),
    Vars(0xfcd1887b, 0x38cc9913, 0x3ec45cdb, 0xf5702fdb, 0x9b5e906c, 0x54cb266b, 0xe50e1b4f, 0x9f4787c3),
    Vars(0xc062d46f, 0xfcd1887b, 0x38cc9913, 0x3ec45cdb, 0x7e44008e, 0x9b5e906c, 0x54cb266b, 0xe50e1b4f),
    Vars(0xffb70472, 0xc062d46f, 0xfcd1887b, 0x38cc9913, 0x6d83bfc6, 0x7e44008e, 0x9b5e906c, 0x54cb266b),
    Vars(0xb6ae8fff, 0xffb70472, 0xc062d46f, 0xfcd1887b, 0xb21bad3d, 0x6d83bfc6, 0x7e44008e, 0x9b5e906c),
    Vars(0xb85e2ce9, 0xb6ae8fff, 0xffb70472, 0xc062d46f, 0x961f4894, 0xb21bad3d, 0x6d83bfc6, 0x7e44008e),
    Vars(0x04d24d6c, 0xb85e2ce9, 0xb6ae8fff, 0xffb70472, 0x948d25b6, 0x961f4894, 0xb21bad3d, 0x6d83bfc6),
    Vars(0xd39a2165, 0x04d24d6c, 0xb85e2ce9, 0xb6ae8fff, 0xfb121210, 0x948d25b6, 0x961f4894, 0xb21bad3d),
    Vars(0x506e3058, 0xd39a2165, 0x04d24d6c, 0xb85e2ce9, 0x5ef50f24, 0xfb121210, 0x948d25b6, 0x961f4894)
  ]

  lemma Rounds7(i: nat)
    requires i < 8
    ensures Round(TRACE7[i], K7[i], W7[i]) == TRACE7[i + 1]
  {
    match i
    case 0 => case 1 => case 2 => case 3 => case 4 => case 5 => case 6 => case _ =>
  }

  // From the rows to the digest.

  const KROWS: seq<seq<word>> := [K0, K1, K2, K3, K4, K5, K6, K7]
  const WROWS: seq<seq<word>> := [W0, W1, W2, W3, W4, W5, W6, W7]
  const TRACES: seq<seq<Vars>> := [TRACE0, TRACE1, TRACE2, TRACE3, TRACE4, TRACE5, TRACE6, TRACE7]

  lemma Traced0(ks: seq<seq<word>>, ws: seq<seq<word>>, vs: seq<seq<Vars>>, i: nat)
    requires IsTable(ks) && IsTable(ws) && |vs| == 8 && ks[0] == K0 && ws[0] == W0 && vs[0] == TRACE0 && i < 8
    ensures TracedAt(Round, ks, ws, vs, 0, i)
  {
    Rounds0(i);
  }

  lemma Traced1(ks: seq<seq<word>>, ws: seq<seq<word>>, vs: seq<seq<Vars>>, i: nat)
    requires IsTable(ks) && IsTable(ws) && |vs| == 8 && ks[1] == K1 && ws[1] == W1 && vs[1] == TRACE1 && i < 8
    ensures TracedAt(Round, ks, ws, vs, 1, i)
  {
    Rounds1(i);
  }

  lemma Traced2(ks: seq<seq<word>>, ws: seq<seq<word>>, vs: seq<seq<Vars>>, i: nat)
    requires IsTable(ks) && IsTable(ws) && |vs| == 8 && ks[2] == K2 && ws[2] == W2 && vs[2] == TRACE2 && i < 8
    ensures TracedAt(Round, ks, ws, vs, 2, i)
  {
    Rounds2(i);
  }

  lemma Traced3(ks: seq<seq<word>>, ws: seq<seq<word>>, vs: seq<seq<Vars>>, i: nat)
    requires IsTable(ks) && IsTable(ws) && |vs| == 8 && ks[3] == K3 && ws[3] == W3 && vs[3] == TRACE3 && i < 8
    ensures TracedAt(Round, ks, ws, vs, 3, i)
  {
    Rounds3(i);
  }

  lemma Traced4(ks: seq<seq<word>>, ws: seq<seq<word>>, vs: seq<seq<Vars>>, i: nat)
    requires IsTable(ks) && IsTable(ws) && |vs| == 8 && ks[4] == K4 && ws[4] == W4 && vs[4] == TRACE4 && i < 8
    ensures TracedAt(Round, ks, ws, vs, 4, i)
  {
    Rounds4(i);
  }

  lemma Traced5(ks: seq<seq<word>>, ws: seq<seq<word>>, vs: seq<seq<Vars>>, i: nat)
    requires IsTable(ks) && IsTable(ws) && |vs| == 8 && ks[5] == K5 && ws[5] == W5 && vs[5] == TRACE5 && i < 8
    ensures TracedAt(Round, ks, ws, vs, 5, i)
  {
    Rounds5(i);
  }

  lemma Traced6(ks: seq<seq<word>>, ws: seq<seq<word>>, vs: seq<seq<Vars>>, i: nat)
    requires IsTable(ks) && IsTable(ws) && |vs| == 8 && ks[6] == K6 && ws[6] == W6 && vs[6] == TRACE6 && i < 8
    ensures TracedAt(Round, ks, ws, vs, 6, i)
  {
    Rounds6(i);
  }

  lemma Traced7(ks: seq<seq<word>>, ws: seq<seq<word>>, vs: seq<seq<Vars>>, i: nat)
    requires IsTable(ks) && IsTable(ws) && |vs| == 8 && ks[7] == K7 && ws[7] == W7 && vs[7] == TRACE7 && i < 8
    ensures TracedAt(Round, ks, ws, vs, 7, i)
  {
    Rounds7(i);
  }

  // From the rows to the digest.

  lemma TracedAnywhere(ks: seq<seq<word>>, ws: seq<seq<word>>, vs: seq<seq<Vars>>, r: nat, i: nat)
    requires IsTable(ks) && IsTable(ws) && r < 8 && i < 8
    requires ks == [K0, K1, K2, K3, K4, K5, K6, K7] && ws == [W0, W1, W2, W3, W4, W5, W6, W7]
    requires vs == [TRACE0, TRACE1, TRACE2, TRACE3, TRACE4, TRACE5, TRACE6, TRACE7]
    ensures |vs[r]| == 9 && TracedAt(Round, ks, ws, vs, r, i)
  {
    match r
    case 0 => Traced0(ks, ws, vs, i);
    case 1 => Traced1(ks, ws, vs, i);
    case 2 => Traced2(ks, ws, vs, i);
    case 3 => Traced3(ks, ws, vs, i);
    case 4 => Traced4(ks, ws, vs, i);
    case 5 => Traced5(ks, ws, vs, i);
    case 6 => Traced6(ks, ws, vs, i);
    case _ => Traced7(ks, ws, vs, i);
  }

  lemma ExampleRounds()
    ensures Rounds(H0, Flat(WROWS), 64) == TRACE7[8]
  {
    forall r, i | 0 <= r < 8 && 0 <= i < 8 ensures |TRACES[r]| == 9 && TracedAt(Round, KROWS, WROWS, TRACES, r, i) {
      TracedAnywhere(KROWS, WROWS, TRACES, r, i);
    }
    FoldTo(Round, KROWS, WROWS, TRACES, 7, 8);
  }

  lemma GrownAnywhere(ws: seq<seq<word>>, r: nat, i: nat)
    requires IsTable(ws) && ws == [W0, W1, W2, W3, W4, W5, W6, W7] && 2 <= r < 8 && i < 8
    ensures GrownAt(Expand, ws, r, i)
  {
    match r
    case 2 => Words2(i);
    case 3 => Words3(i);
    case 4 => Words4(i);
    case 5 => Words5(i);
    case 6 => Words6(i);
    case _ => Words7(i);
  }

  lemma ExampleSchedule(block: seq<byte>)
    requires |block| == 64 && BlockWords(block) == W0 + W1
    ensures Schedule(block, 64) == Flat(WROWS)
  {
    forall r, i | 2 <= r < 8 && 0 <= i < 8 ensures GrownAt(Expand, WROWS, r, i) {
      GrownAnywhere(WROWS, r, i);
    }
    GrowAll(BlockWords(block), Expand, WROWS, Flat(WROWS));
  }

  const BLOCK: seq<byte> := ABC + [0x80] + Zeros(52) + [0, 0, 0, 0, 0, 0, 0, 24]

  lemma ExamplePadding()
    ensures Padded(ABC) == BLOCK && |BLOCK| == 64
  {
    assert BigEndian(0, 1) == [0];
    assert BigEndian(0, 3) == [0, 0, 0];
    assert BigEndian(0, 5) == [0, 0, 0, 0, 0];
    assert BigEndian(0, 7) == [0, 0, 0, 0, 0, 0, 0];
    assert BigEndian(24, 8) == BigEndian(0, 7) + [24];
  }

  lemma BlockBytes(j: nat)
    requires j < 64
    ensures |BLOCK| == 64 && BLOCK[j] == if j < 3 then ABC[j] else if j == 3 then 0x80 else if j < 63 then 0 else 24
  {
  }

  lemma ThreeWords()
    ensures Word(0x61, 0x62, 0x63, 0x80) == 0x61626380 && Word(0, 0, 0, 0) == 0 && Word(0, 0, 0, 24) == 0x18
  {
  }

  lemma FirstRows(t: nat)
    requires t < 16
    ensures (W0 + W1)[t] == if t == 0 then 0x61626380 else if t < 15 then 0 else 0x18
  {
  }

  lemma WordOf(b0: byte, b1: byte, b2: byte, b3: byte, w: word, t: nat)
    requires t < 16 && |BLOCK| == 64 && Word(b0, b1, b2, b3) == w && (W0 + W1)[t] == w
    requires BLOCK[4 * t] == b0 && BLOCK[4 * t + 1] == b1 && BLOCK[4 * t + 2] == b2 && BLOCK[4 * t + 3] == b3
    ensures WordAt(BLOCK, t) == (W0 + W1)[t]
  {
  }

  lemma ExampleWords(t: nat)
    requires t < 16
    ensures |BLOCK| == 64 && WordAt(BLOCK, t) == (W0 + W1)[t]
  {
    BlockBytes(4 * t);
    BlockBytes(4 * t + 1);
    BlockBytes(4 * t + 2);
    BlockBytes(4 * t + 3);
    ThreeWords();
    FirstRows(t);
    if t == 0 {
      WordOf(0x61, 0x62, 0x63, 0x80, 0x61626380, t);
    } else if t < 15 {
      WordOf(0, 0, 0, 0, 0, t);
    } else {
      WordOf(0, 0, 0, 24, 0x18, t);
    }
  }

  const DIGEST: seq<word> := [
    0xba7816bf, 0x8f01cfea, 0x414140de, 0x5dae2223,
    0xb00361a3, 0x96177a9c, 0xb410ff61, 0xf20015ad
  ]

  lemma ExampleSum()
    ensures AddAll(H0, TRACE7[8]) == DIGEST
  {
  }

  lemma Bytes0()
    ensures BigEndian(DIGEST[0] as int, 4) == [0xba, 0x78, 0x16, 0xbf]
  {
    assert DIGEST[0] as int == 0xba7816bf;
    assert BigEndian(0xba, 1) == [0xba];
    assert BigEndian(0xba78, 2) == [0xba, 0x78];
    assert BigEndian(0xba7816, 3) == [0xba, 0x78, 0x16];
  }

  lemma Bytes1()
    ensures BigEndian(DIGEST[1] as int, 4) == [0x8f, 0x01, 0xcf, 0xea]
  {
    assert DIGEST[1] as int == 0x8f01cfea;
    assert BigEndian(0x8f, 1) == [0x8f];
    assert BigEndian(0x8f01, 2) == [0x8f, 0x01];
    assert BigEndian(0x8f01cf, 3) == [0x8f, 0x01, 0xcf];
  }

  lemma Bytes2()
    ensures BigEndian(DIGEST[2] as int, 4) == [0x41, 0x41, 0x40, 0xde]
  {
    assert DIGEST[2] as int == 0x414140de;
    assert BigEndian(0x41, 1) == [0x41];
    assert BigEndian(0x4141, 2) == [0x41, 0x41];
    assert BigEndian(0x414140, 3) == [0x41, 0x41, 0x40];
  }

  lemma Bytes3()
    ensures BigEndian(DIGEST[3] as int, 4) == [0x5d, 0xae, 0x22, 0x23]
  {
    assert DIGEST[3] as int == 0x5dae2223;
    assert BigEndian(0x5d, 1) == [0x5d];
    assert BigEndian(0x5dae, 2) == [0x5d, 0xae];
    assert BigEndian(0x5dae22, 3) == [0x5d, 0xae, 0x22];
  }

  lemma Bytes4()
    ensures BigEndian(DIGEST[4] as int, 4) == [0xb0, 0x03, 0x61, 0xa3]
  {
    assert DIGEST[4] as int == 0xb00361a3;
    assert BigEndian(0xb0, 1) == [0xb0];
    assert BigEndian(0xb003, 2) == [0xb0, 0x03];
    assert BigEndian(0xb00361, 3) == [0xb0, 0x03, 0x61];
  }

  lemma Bytes5()
    ensures BigEndian(DIGEST[5] as int, 4) == [0x96, 0x17, 0x7a, 0x9c]
  {
    assert DIGEST[5] as int == 0x96177a9c;
    assert BigEndian(0x96, 1) == [0x96];
    assert BigEndian(0x9617, 2) == [0x96, 0x17];
    assert BigEndian(0x96177a, 3) == [0x96, 0x17, 0x7a];
  }

  lemma Bytes6()
    ensures BigEndian(DIGEST[6] as int, 4) == [0xb4, 0x10, 0xff, 0x61]
  {
    assert DIGEST[6] as int == 0xb410ff61;
    assert BigEndian(0xb4, 1) == [0xb4];
    assert BigEndian(0xb410, 2) == [0xb4, 0x10];
    assert BigEndian(0xb410ff, 3) == [0xb4, 0x10, 0xff];
  }

  lemma Bytes7()
    ensures BigEndian(DIGEST[7] as int, 4) == [0xf2, 0x00, 0x15, 0xad]
  {
    assert DIGEST[7] as int == 0xf20015ad;
    assert BigEndian(0xf2, 1) == [0xf2];
    assert BigEndian(0xf200, 2) == [0xf2, 0x00];
    assert BigEndian(0xf20015, 3) == [0xf2, 0x00, 0x15];
  }

  /** The digest of the example, word by word. */
  const ANSWER: seq<seq<byte>> := [
    [0xba, 0x78, 0x16, 0xbf], [0x8f, 0x01, 0xcf, 0xea], [0x41, 0x41, 0x40, 0xde], [0x5d, 0xae, 0x22, 0x23],
    [0xb0, 0x03, 0x61, 0xa3], [0x96, 0x17, 0x7a, 0x9c], [0xb4, 0x10, 0xff, 0x61], [0xf2, 0x00, 0x15, 0xad]
  ]

  lemma AnswerWord(k: nat)
    requires k < 8
    ensures BigEndian(DIGEST[k] as int, 4) == ANSWER[k]
  {
    match k
    case 0 => Bytes0();
    case 1 => Bytes1();
    case 2 => Bytes2();
    case 3 => Bytes3();
    case 4 => Bytes4();
    case 5 => Bytes5();
    case 6 => Bytes6();
    case _ => Bytes7();
  }

  lemma {:induction false} WordBytesAre(ws: seq<word>, bs: seq<seq<byte>>)
    requires |ws| == |bs| && forall i :: 0 <= i < |ws| ==> BigEndian(ws[i] as int, 4) == bs[i]
    ensures WordBytes(ws) == Concat(bs)
  {
    if ws != [] {
      WordBytesAre(ws[..|ws| - 1], bs[..|bs| - 1]);
    }
  }

  lemma ExampleCompress()
    ensures |BLOCK| == 64 && Compress(H0, BLOCK) == DIGEST
  {
    ExamplePadding();
    forall t | 0 <= t < 16 ensures BlockWords(BLOCK)[t] == (W0 + W1)[t] {
      ExampleWords(t);
    }
    ExampleSchedule(BLOCK);
    ExampleRounds();
    ExampleSum();
  }

  /** The digest of "abc" is the one the standard gives. */
  lemma ExampleDigest()
    ensures Hash(ABC) == Concat(ANSWER)
  {
    ExamplePadding();
    OneBlock(H0, BLOCK);
    ExampleCompress();
    forall k | 0 <= k < 8 ensures BigEndian(DIGEST[k] as int, 4) == ANSWER[k] {
      AnswerWord(k);
    }
    WordBytesAre(DIGEST, ANSWER);
  }
}
