/** Addresses of connection objects that the pool hashes to different workers. */
module ShardKeys {
  import ThreadPool

  function Differ(x: nat, y: nat): nat { if x == y then 0 else 1 }

  lemma XorDouble(a: nat, b: nat, x: nat, y: nat, c: nat, d: nat)
    requires x < 2 && y < 2 && c == 2 * a + x && d == 2 * b + y
    ensures ThreadPool.Xor(c, d) == 2 * ThreadPool.Xor(a, b) + Differ(x, y)
  {
    assert c / 2 == a && c % 2 == x && d / 2 == b && d % 2 == y;
  }

  /** The three low bits of an exclusive or. */
  lemma XorEight(a: nat, b: nat, x2: nat, x1: nat, x0: nat, y2: nat, y1: nat, y0: nat, x: nat, y: nat)
    requires x0 < 2 && x1 < 2 && x2 < 2 && y0 < 2 && y1 < 2 && y2 < 2
    requires x == 8 * a + 4 * x2 + 2 * x1 + x0 && y == 8 * b + 4 * y2 + 2 * y1 + y0
    ensures ThreadPool.Xor(x, y) == 8 * ThreadPool.Xor(a, b) + 4 * Differ(x2, y2) + 2 * Differ(x1, y1) + Differ(x0, y0)
  {
    var a1, b1 := 2 * a + x2, 2 * b + y2;
    var a2, b2 := 2 * a1 + x1, 2 * b1 + y1;
    XorDouble(a, b, x2, y2, a1, b1);
    XorDouble(a1, b1, x1, y1, a2, b2);
    XorDouble(a2, b2, x0, y0, x, y);
  }

  lemma ThreeBits(p: nat)
    requires p < 8
    ensures p == 4 * (p / 4) + 2 * (p / 2 % 2) + p % 2 && p / 4 < 2
  {
  }

  /** The exclusive or of two three-bit numbers. */
  function Xor3(p: nat, q: nat): nat {
    4 * Differ(p / 4, q / 4) + 2 * Differ(p / 2 % 2, q / 2 % 2) + Differ(p % 2, q % 2)
  }

  lemma XorLow(a: nat, p: nat, b: nat, q: nat, x: nat, y: nat)
    requires p < 8 && q < 8 && x == 8 * a + p && y == 8 * b + q
    ensures ThreadPool.Xor(x, y) == 8 * ThreadPool.Xor(a, b) + Xor3(p, q)
  {
    ThreeBits(p);
    ThreeBits(q);
    XorEight(a, b, p / 4, p / 2 % 2, p % 2, q / 4, q / 2 % 2, q % 2, x, y);
  }

  lemma XorZero(a: nat)
    ensures ThreadPool.Xor(a, 0) == a
  {
  }

  /** x ^ (x >> 33) for x = 8 * h + l, when the shift leaves s < 8. */
  lemma XorShift(x: nat, h: nat, l: nat, s: nat)
    requires x == 8 * h + l && l < 8 && s < 8 && s * ThreadPool.TwoTo33 <= x < (s + 1) * ThreadPool.TwoTo33
    ensures ThreadPool.Xor(x, x / ThreadPool.TwoTo33) == 8 * h + Xor3(l, s)
  {
    assert x / ThreadPool.TwoTo33 == s;
    XorLow(h, l, 0, s, x, s);
    XorZero(h);
  }

  lemma FirstMix(k: nat, h: nat, l: nat, s: nat) returns (x: nat)
    requires k == 8 * h + l && l < 8 && s < 8 && s * ThreadPool.TwoTo33 <= k < (s + 1) * ThreadPool.TwoTo33
    ensures x == 8 * h + Xor3(l, s) && ThreadPool.Xor(k, k / ThreadPool.TwoTo33) == x
  {
    XorShift(k, h, l, s);
    x := 8 * h + Xor3(l, s);
  }

  lemma SecondMix(x: nat, y: nat, h: nat, l: nat, s: nat) returns (z: nat)
    requires x * 0xff51_afd7_ed55_8ccd % ThreadPool.TwoTo64 == y
    requires y == 8 * h + l && l < 8 && s < 8 && s * ThreadPool.TwoTo33 <= y < (s + 1) * ThreadPool.TwoTo33
    ensures z == 8 * h + Xor3(l, s) && ThreadPool.Xor(y, y / ThreadPool.TwoTo33) == z
  {
    XorShift(y, h, l, s);
    z := 8 * h + Xor3(l, s);
  }

  lemma LastMix(k: nat, x: nat, y: nat, z: nat, w: nat, h: nat, l: nat, vh: nat, vl: nat)
    requires ThreadPool.Xor(k, k / ThreadPool.TwoTo33) == x && x * 0xff51_afd7_ed55_8ccd % ThreadPool.TwoTo64 == y
    requires ThreadPool.Xor(y, y / ThreadPool.TwoTo33) == z && z * 0xc4ce_b9fe_1a85_ec53 % ThreadPool.TwoTo64 == w
    requires w == 8 * h + l && l < 8 && vl < 8 && w / ThreadPool.TwoTo33 == 8 * vh + vl
    ensures ThreadPool.Shard(k, 8) == Xor3(l, vl)
  {
    XorLow(h, l, vh, vl, w, w / ThreadPool.TwoTo33);
    ModEight(ThreadPool.Xor(h, vh), Xor3(l, vl), ThreadPool.Xor(w, w / ThreadPool.TwoTo33));
  }

  lemma ModEight(q: nat, r: nat, x: nat)
    requires r < 8 && x == 8 * q + r
    ensures x % 8 == r
  {
    assert x / 8 == q;
  }

  lemma ShardOfA(k: nat)
    requires k == 0x39c69f190
    ensures ThreadPool.Shard(k, 8) == 7
  {
    var x := FirstMix(k, 1938636338, 0, 1);
    var z := SecondMix(x, 24211012893, 3026376611, 5, 2);
    LastMix(k, x, 24211012893, z, 13812621370503390477, 1726577671312923809, 5, 201000095, 2);
  }

  lemma ShardOfB(k: nat)
    requires k == 0x3792a6ac0
    ensures ThreadPool.Shard(k, 8) == 5
  {
    var x := FirstMix(k, 1864715608, 0, 1);
    var z := SecondMix(x, 53023213709, 6627901713, 5, 6);
    LastMix(k, x, 53023213709, z, 15322214020791134481, 1915276752598891810, 1, 222967559, 4);
  }

  lemma ShardOfC(k: nat)
    requires k == 0x4cfd2fbf0
    ensures ThreadPool.Shard(k, 8) == 2
  {
    var x := FirstMix(k, 2583322494, 0, 2);
    var z := SecondMix(x, 53671762122, 6708970265, 2, 6);
    LastMix(k, x, 53671762122, z, 9183354886715218468, 1147919360839402308, 4, 133635401, 6);
  }

  /** Three addresses, aligned as those of heap objects are, on three different workers. */
  lemma KeysApart() returns (a: nat, b: nat, c: nat)
    ensures a % 16 == 0 && b % 16 == 0 && c % 16 == 0
    ensures ThreadPool.Shard(a, 8) == 7 && ThreadPool.Shard(b, 8) == 5 && ThreadPool.Shard(c, 8) == 2
  {
    a, b, c := 0x39c69f190, 0x3792a6ac0, 0x4cfd2fbf0;
    ShardOfA(a);
    ShardOfB(b);
    ShardOfC(c);
  }
}
