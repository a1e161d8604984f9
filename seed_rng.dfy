/**
 * The seeded random source of MapGeneratorV2 (src/handlers/MapGenerator_v2.js):
 * the string-to-seed rolling hash and the linear congruential generator
 * behind `this.rng`.
 */
module SeededRng {
  import opened JsNumbers

  /** A JS string is a sequence of UTF-16 code units; `charCodeAt` reads one. */
  type CodeUnit = c: int | 0 <= c < 0x1_0000

  /** The code units of the string of `n` letters 'a' (code unit 97). */
  function RepeatedA(n: nat): (s: seq<CodeUnit>)
    ensures |s| == n && forall i :: 0 <= i < n ==> s[i] == 97
  {
    seq(n, i => 97)
  }

  // ---------------------------------------------------------------- stringToSeed

  /**
   * One turn of stringToSeed's loop: `(hash << 5) - hash + c`. The shift goes
   * through ToInt32, the subtraction and the addition are not wrapped.
   */
  function SeedStep(hash: int, c: CodeUnit): (r: int)
    ensures Congruent32(r, 31 * hash + c)
  {
    var shifted := ToInt32(ToInt32(hash) * 32);
    CongruentScale(ToInt32(hash), hash, 32);
    shifted - hash + c
  }

  /** The value stringToSeed returns for `s`: the loop body applied to each code unit in turn, from 0. */
  function SeedOf(s: seq<CodeUnit>): int
  {
    if s == [] then 0 else SeedStep(SeedOf(s[..|s| - 1]), s[|s| - 1])
  }

  lemma SeedOfSnoc(s: seq<CodeUnit>, c: CodeUnit)
    ensures SeedOf(s + [c]) == SeedStep(SeedOf(s), c)
  {
    assert (s + [c])[..|s|] == s;
  }

  /** The polynomial hash in Horner form: hash*31 + c over the code units. */
  function PolyHash(s: seq<CodeUnit>): int
  {
    if s == [] then 0 else 31 * PolyHash(s[..|s| - 1]) + s[|s| - 1]
  }

  /** The polynomial hash as a sum: the sum of s[i] * 31^(n-1-i). */
  function PolySum(s: seq<CodeUnit>): int
  {
    if s == [] then 0 else s[0] * Pow(31, |s| - 1) + PolySum(s[1..])
  }

  lemma {:induction false} PolySumSnoc(s: seq<CodeUnit>, c: CodeUnit)
    ensures PolySum(s + [c]) == 31 * PolySum(s) + c
  {
    if s != [] {
      assert (s + [c])[1..] == s[1..] + [c];
      PolySumSnoc(s[1..], c);
      assert Pow(31, |s|) == 31 * Pow(31, |s| - 1);
      assert s[0] * Pow(31, |s|) == 31 * (s[0] * Pow(31, |s| - 1));
    }
  }

  /** Horner form and sum form are the same polynomial. */
  lemma {:induction false} PolyHashIsSum(s: seq<CodeUnit>)
    ensures PolyHash(s) == PolySum(s)
  {
    if s != [] {
      var init := s[..|s| - 1];
      PolyHashIsSum(init);
      PolySumSnoc(init, s[|s| - 1]);
      assert init + [s[|s| - 1]] == s;
    }
  }

  /** stringToSeed agrees with the polynomial hash modulo 2^32 (it need not be reduced). */
  lemma {:induction false} SeedOfIsPolyHash(s: seq<CodeUnit>)
    ensures Congruent32(SeedOf(s), PolyHash(s))
  {
    if s != [] {
      var init := s[..|s| - 1];
      var c := s[|s| - 1];
      SeedOfIsPolyHash(init);
      CongruentScale(SeedOf(init), PolyHash(init), 31);
      assert Congruent32(31 * SeedOf(init) + c, 31 * PolyHash(init) + c);
      CongruentChain(SeedOf(s), 31 * SeedOf(init) + c, PolyHash(s));
    }
  }

  /** stringToSeed: `hash = (hash << 5) - hash + code unit`, one code unit at a time, from 0. */
  method StringToSeed(str: seq<CodeUnit>) returns (hash: int)
    ensures hash == SeedOf(str)
  {
    hash := 0;
    for i := 0 to |str|
      invariant hash == SeedOf(str[..i])
    {
      assert str[..i + 1][..i] == str[..i];
      hash := SeedStep(hash, str[i]);
    }
    assert str[..|str|] == str;
  }

  /** The seed of a string is congruent to the polynomial sum of its code units modulo 2^32. */
  lemma SeedOfIsPolySum(s: seq<CodeUnit>)
    ensures Congruent32(SeedOf(s), PolySum(s))
  {
    SeedOfIsPolyHash(s);
    PolyHashIsSum(s);
  }

  /** One turn of the hash loop on an int32 hash, where the shift wraps `k` times. */
  lemma SeedStepWraps(h: int, c: CodeUnit, k: int)
    requires IsInt32(h) && IsInt32(h * 32 - k * Two32)
    ensures SeedStep(h, c) == h * 32 - k * Two32 - h + c
  {
    ToInt32Shift(h * 32, k);
  }

  /** One more letter 'a' after n of them, whose seed is the int32 value `h`. */
  lemma SeedOfAppendA(n: nat, h: int, k: int)
    requires SeedOf(RepeatedA(n)) == h && IsInt32(h) && IsInt32(h * 32 - k * Two32)
    ensures SeedOf(RepeatedA(n + 1)) == h * 31 - k * Two32 + 97
  {
    assert RepeatedA(n + 1) == RepeatedA(n) + [97];
    SeedOfSnoc(RepeatedA(n), 97);
    SeedStepWraps(h, 97, k);
  }

  /** stringToSeed on "a" and "aa". */
  lemma SeedOfTwoA()
    ensures SeedOf(RepeatedA(2)) == 3104
  {
    assert RepeatedA(0) == [];
    SeedOfAppendA(0, 0, 0);
    SeedOfAppendA(1, 97, 0);
  }

  /** stringToSeed on "aaa" and "aaaa", where no shift wraps yet. */
  lemma SeedOfFourA()
    ensures SeedOf(RepeatedA(4)) == 2986048
  {
    SeedOfTwoA();
    SeedOfAppendA(2, 3104, 0);
    SeedOfAppendA(3, 96321, 0);
  }

  /** stringToSeed on "aaaaa", "aaaaaa" and "aaaaaaa", one letter at a time. */
  lemma SeedsOfRepeatedA()
    ensures SeedOf(RepeatedA(6)) == -1425372064
    ensures SeedOf(RepeatedA(7)) == 3058106369
  {
    SeedOfFourA();
    SeedOfAppendA(4, 2986048, 0);
    SeedOfAppendA(5, 92567585, 1);
    SeedOfAppendA(6, -1425372064, -11);
  }

  /** The result is not confined to the int32 range: "aaaaaaa" gives 3058106369 > 2^31 - 1. */
  lemma SeedCanLeaveInt32()
    ensures !IsInt32(SeedOf(RepeatedA(7)))
  {
    SeedsOfRepeatedA();
  }

  // ---------------------------------------------------------------- createLCGRNG

  /** Multiplier, increment and modulus of createLCGRNG. */
  const A: int := 1664525
  const C: int := 1013904223
  const M: int := Two32

  /** `(seed ^ a) % m`: a signed 32-bit value; the `% m` never changes it. */
  function InitState(seed: int): (s: int)
    ensures IsInt32(s)
    ensures s == Xor32(seed, A)
  {
    JsRem(Xor32(seed, A), M)
  }

  /** The initial state has the sign of the seed's int32 value, since A has no sign bit. */
  lemma InitStateSign(seed: int)
    ensures InitState(seed) < 0 <==> ToInt32(seed) < 0
  {
    XorKeepsSign(seed, A);
  }

  /** `(a * state + c) % m` with JS's truncating `%`. */
  function NextState(s: int): (r: int)
    ensures -M < r < M
    ensures Congruent32(r, A * s + C)
    ensures A * s + C >= 0 ==> r >= 0
    ensures A * s + C <= 0 ==> r <= 0
  {
    JsRemCongruent(A * s + C);
    JsRem(A * s + C, M)
  }

  /** `state / m`: the value a draw returns. */
  function Draw(s: int): real
  {
    s as real / M as real
  }

  /** The state after `n` draws from `s0`. */
  function StateAfter(s0: int, n: nat): int
  {
    if n == 0 then s0 else NextState(StateAfter(s0, n - 1))
  }

  lemma StateAfterSucc(s0: int, n: nat)
    ensures StateAfter(s0, n + 1) == NextState(StateAfter(s0, n))
  {
  }

  /** Stepping m times and then n times is stepping t = m + n times. */
  lemma {:induction false} StateAfterAdd(s0: int, m: nat, n: nat, t: nat)
    requires t == m + n
    ensures StateAfter(StateAfter(s0, m), n) == StateAfter(s0, t)
  {
    if n > 0 {
      StateAfterAdd(s0, m, n - 1, t - 1);
    }
  }

  /** A state inside (-m, m) draws a value inside (-1, 1), with the state's sign. */
  lemma DrawBounds(s: int)
    requires -M < s < M
    ensures -1.0 < Draw(s) < 1.0
    ensures s >= 0 <==> Draw(s) >= 0.0
  {
  }

  /** From a non-negative start every later state is non-negative and below m. */
  lemma {:induction false} NonNegativeStaysNonNegative(s0: int, n: nat)
    requires s0 >= 0
    ensures 0 <= StateAfter(s0, n)
    ensures n > 0 ==> StateAfter(s0, n) < M
  {
    if n > 0 {
      NonNegativeStaysNonNegative(s0, n - 1);
    }
  }

  /** A seed whose int32 value is non-negative yields draws in [0, 1). */
  lemma NonNegativeSeedDrawsInUnitInterval(seed: int, n: nat)
    requires ToInt32(seed) >= 0 && n >= 1
    ensures 0.0 <= Draw(StateAfter(InitState(seed), n)) < 1.0
  {
    InitStateSign(seed);
    NonNegativeStaysNonNegative(InitState(seed), n);
    DrawBounds(StateAfter(InitState(seed), n));
  }

  /** The seed string "aaaaaa" hashes to a negative int32 and so starts the generator from a negative state. */
  lemma NegativeSeedString()
    ensures InitState(SeedOf(RepeatedA(6))) < 0
  {
    SeedsOfRepeatedA();
    InitStateSign(SeedOf(RepeatedA(6)));
  }

  /**
   * A state at or below -610 draws a value at or below 0, and one in
   * [-3189, -610] a strictly negative value, although the source comments
   * the draws as lying in [0, 1].
   */
  lemma NegativeStateDrawsNegative(s: int)
    requires -M < s <= -610
    ensures Draw(NextState(s)) <= 0.0
    ensures s >= -3189 ==> Draw(NextState(s)) < 0.0
  {
    var v := A * s + C;
    assert v < 0;
    if s >= -3189 {
      assert v > -M;
      assert NextState(s) == v;
    }
  }

  /** The xor of the seed of "aaaaaa" (as uint32) with A, one bit at a time from the top. */
  lemma XorOfSixASeed()
    ensures BitXor(2869595232, 1664525, 32) == 2870209133
  {
    assert BitXor(0, 0, 0) == 0;
    BitXorStep(1, 0, 1, 0);
    BitXorStep(2, 0, 2, 1);
    BitXorStep(5, 0, 3, 2);
    BitXorStep(10, 0, 4, 5);
    BitXorStep(21, 0, 5, 10);
    BitXorStep(42, 0, 6, 21);
    BitXorStep(85, 0, 7, 42);
    BitXorStep(171, 0, 8, 85);
    BitXorStep(342, 0, 9, 171);
    BitXorStep(684, 0, 10, 342);
    BitXorStep(1368, 0, 11, 684);
    BitXorStep(2736, 1, 12, 1368);
    BitXorStep(5473, 3, 13, 2737);
    BitXorStep(10946, 6, 14, 5474);
    BitXorStep(21893, 12, 15, 10948);
    BitXorStep(43786, 25, 16, 21897);
    BitXorStep(87573, 50, 17, 43795);
    BitXorStep(175146, 101, 18, 87591);
    BitXorStep(350292, 203, 19, 175183);
    BitXorStep(700584, 406, 20, 350367);
    BitXorStep(1401169, 812, 21, 700734);
    BitXorStep(2802339, 1625, 22, 1401469);
    BitXorStep(5604678, 3251, 23, 2802938);
    BitXorStep(11209356, 6502, 24, 5605877);
    BitXorStep(22418712, 13004, 25, 11211754);
    BitXorStep(44837425, 26008, 26, 22423508);
    BitXorStep(89674851, 52016, 27, 44847017);
    BitXorStep(179349702, 104032, 28, 89694035);
    BitXorStep(358699404, 208065, 29, 179388070);
    BitXorStep(717398808, 416131, 30, 358776141);
    BitXorStep(1434797616, 832262, 31, 717552283);
    BitXorStep(2869595232, 1664525, 32, 1435104566);
  }

  /**
   * The string "aaaaaa" starts the generator at state -1424758163, whose
   * next state -1065465624 makes the first draw strictly negative.
   */
  lemma SixAFirstDrawNegative()
    ensures InitState(SeedOf(RepeatedA(6))) == -1424758163
    ensures NextState(-1424758163) == -1065465624
    ensures Draw(NextState(InitState(SeedOf(RepeatedA(6))))) < 0.0
  {
    SeedsOfRepeatedA();
    assert ToUint32(-1425372064) == 2869595232;
    assert ToUint32(A) == 1664525;
    XorOfSixASeed();
    assert Xor32(-1425372064, A) == -1424758163;
    assert A * -1424758163 + C == -2371544567363352;
  }

  /** The generator closure: its captured `state` is the one field. */
  class Lcg {
    var state: int

    /** createLCGRNG(seed) */
    constructor(seed: int)
      ensures state == InitState(seed)
    {
      state := JsRem(Xor32(seed, A), M);
    }

    /** One call of the returned closure. */
    method Next() returns (r: real)
      modifies this
      ensures state == NextState(old(state))
      ensures r == Draw(state)
    {
      state := JsRem(A * state + C, M);
      r := state as real / M as real;
    }
  }

  /** `n` successive calls of the generator, collected in order (the inner loop of createPerlinNoise). */
  method Draws(g: Lcg, n: nat) returns (xs: seq<real>)
    modifies g
    ensures |xs| == n && forall i :: 0 <= i < n ==> xs[i] == Draw(StateAfter(old(g.state), i + 1))
    ensures g.state == StateAfter(old(g.state), n)
  {
    ghost var s0 := g.state;
    xs := [];
    for k := 0 to n
      invariant |xs| == k && forall i :: 0 <= i < k ==> xs[i] == Draw(StateAfter(s0, i + 1))
      invariant g.state == StateAfter(s0, k)
    {
      StateAfterSucc(s0, k);
      var x := g.Next();
      xs := xs + [x];
    }
  }

  /**
   * Two generators built from the same seed string give the same draws: the
   * i-th draw of either is the draw of the i-th state from the seed's initial state.
   */
  method SameSeedSameDraws(seedText: seq<CodeUnit>, n: nat) returns (xs: seq<real>, ys: seq<real>)
    ensures xs == ys
    ensures |xs| == n
    ensures forall i :: 0 <= i < n ==> xs[i] == Draw(StateAfter(InitState(SeedOf(seedText)), i + 1))
  {
    var seed1 := StringToSeed(seedText);
    var g1 := new Lcg(seed1);
    xs := Draws(g1, n);
    var seed2 := StringToSeed(seedText);
    var g2 := new Lcg(seed2);
    ys := Draws(g2, n);
    assert forall i :: 0 <= i < n ==> xs[i] == ys[i];
  }
}
