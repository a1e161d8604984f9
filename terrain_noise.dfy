/**
 * The value-level part of MapGeneratorV2 (src/handlers/MapGenerator_v2.js):
 * the smoothstep sampler over the RNG grid, inverse lerp, parameter clamping,
 * the octave sum, the min/max scan with its normalisation, and the terrain
 * threshold cascade. Noise values are reals; IEEE rounding is not modelled.
 */
module TerrainNoise {
  import opened JsNumbers
  import opened SeededRng
  import opened Seqs
  import opened Scene

  // ---------------------------------------------------------------- createPerlinNoise

  /** `col` holds the `height` draws numbered offset + 1 .. offset + height of a generator in state `s0`. */
  ghost predicate DrawnColumn(col: seq<real>, s0: int, offset: nat, height: nat)
  {
    |col| == height && forall j :: 0 <= j < height ==> col[j] == Draw(StateAfter(s0, offset + j + 1))
  }

  /**
   * `g` is the grid createPerlinNoise fills from a generator in state `s0`:
   * `width` columns of `height` cells, cell [i][j] holding draw number i*height + j + 1.
   */
  ghost predicate IsPerlinGrid(g: seq<seq<real>>, s0: int, width: nat, height: nat)
  {
    |g| == width && forall i :: 0 <= i < width ==> DrawnColumn(g[i], s0, i * height, height)
  }

  /** A drawn grid has `width` columns of `height` cells. */
  lemma PerlinGridIsGrid(g: seq<seq<real>>, s0: int, width: nat, height: nat)
    requires IsPerlinGrid(g, s0, width, height)
    ensures IsGrid(g, width, height)
  {
    forall i | 0 <= i < width
      ensures |g[i]| == height
    {
      assert DrawnColumn(g[i], s0, i * height, height);
    }
  }

  /** A grid drawn from a non-negative state holds values in [0, 1). */
  lemma PerlinGridInUnitInterval(g: seq<seq<real>>, s0: int, width: nat, height: nat)
    requires IsPerlinGrid(g, s0, width, height) && s0 >= 0
    ensures forall i, j :: 0 <= i < width && 0 <= j < height ==> 0.0 <= g[i][j] < 1.0
  {
    forall i, j | 0 <= i < width && 0 <= j < height
      ensures 0.0 <= g[i][j] < 1.0
    {
      NonNegativeStaysNonNegative(s0, i * height + j + 1);
      DrawBounds(StateAfter(s0, i * height + j + 1));
    }
  }

  /** `noise` has `width` columns of `height` cells. */
  predicate IsGrid(noise: seq<seq<real>>, width: nat, height: nat)
  {
    |noise| == width && forall i :: 0 <= i < width ==> |noise[i]| == height
  }

  // ---------------------------------------------------------------- smoothstep, randomGenerator

  /** `t * t * (3 - 2 * t)` */
  function Smoothstep(t: real): (r: real)
    ensures 0.0 <= t <= 1.0 ==> 0.0 <= r <= 1.0
    ensures t == 0.0 ==> r == 0.0
    ensures t == 1.0 ==> r == 1.0
  {
    SmoothstepInUnitInterval(t);
    t * t * (3.0 - 2.0 * t)
  }

  lemma SmoothstepInUnitInterval(t: real)
    ensures 0.0 <= t <= 1.0 ==> 0.0 <= t * t * (3.0 - 2.0 * t) <= 1.0
  {
    if 0.0 <= t <= 1.0 {
      MulNonNegative(t * t, 3.0 - 2.0 * t);
      MulNonNegative((1.0 - t) * (1.0 - t), 1.0 + 2.0 * t);
      assert 1.0 - t * t * (3.0 - 2.0 * t) == (1.0 - t) * (1.0 - t) * (1.0 + 2.0 * t);
    }
  }

  lemma MulNonNegative(a: real, b: real)
    requires a >= 0.0 && b >= 0.0
    ensures a * b >= 0.0
  {
  }

  /** Smoothstep is symmetric about (1/2, 1/2). */
  lemma SmoothstepSymmetric(t: real)
    ensures Smoothstep(1.0 - t) == 1.0 - Smoothstep(t)
  {
    assert (1.0 - t) * (1.0 - t) * (3.0 - 2.0 * (1.0 - t)) == 1.0 - t * t * (3.0 - 2.0 * t);
  }

  /**
   * randomGenerator(x, y) for natural coordinates: the grid cell at
   * (x % width, y % height), smoothed and mapped from [0, 1] to [-1, 1].
   */
  function Sample(noise: seq<seq<real>>, width: nat, height: nat, x: nat, y: nat): (r: real)
    requires width > 0 && height > 0 && IsGrid(noise, width, height)
    ensures 0.0 <= noise[x % width][y % height] <= 1.0 ==> -1.0 <= r <= 1.0
  {
    var smoothed := Smoothstep(noise[x % width][y % height]);
    smoothed * 2.0 - 1.0
  }

  /** The sampler repeats with period `width` along x and `height` along y. */
  lemma SamplePeriodic(noise: seq<seq<real>>, width: nat, height: nat, x: nat, y: nat)
    requires width > 0 && height > 0 && IsGrid(noise, width, height)
    ensures Sample(noise, width, height, x + width, y) == Sample(noise, width, height, x, y)
    ensures Sample(noise, width, height, x, y + height) == Sample(noise, width, height, x, y)
  {
    ModShift(x, width);
    ModShift(y, height);
  }

  // ---------------------------------------------------------------- inverseLerp

  /** `(value - a) / (b - a)`, or 0 when a == b. */
  function InverseLerp(a: real, b: real, value: real): (r: real)
    ensures a == b ==> r == 0.0
    ensures a != b ==> a + r * (b - a) == value
  {
    if a != b then (value - a) / (b - a) else 0.0
  }

  lemma DivSelf(x: real)
    requires x != 0.0
    ensures x / x == 1.0
  {
  }

  lemma DivBounds(n: real, d: real)
    requires 0.0 <= n <= d && d > 0.0
    ensures 0.0 <= n / d <= 1.0
  {
  }

  /** inverseLerp maps a to 0 and, when a != b, b to 1. */
  lemma InverseLerpEnds(a: real, b: real)
    ensures InverseLerp(a, b, a) == 0.0
    ensures a != b ==> InverseLerp(a, b, b) == 1.0
  {
    if a != b {
      DivSelf(b - a);
    }
  }

  /** Between a < b, inverseLerp lies in [0, 1]. */
  lemma InverseLerpInUnitInterval(a: real, b: real, value: real)
    requires a < b && a <= value <= b
    ensures 0.0 <= InverseLerp(a, b, value) <= 1.0
  {
    DivBounds(value - a, b - a);
  }

  // ---------------------------------------------------------------- generateNoiseMap

  /** The parameters generateNoiseMap works with once it has clamped them. */
  datatype NoiseParams = NoiseParams(scale: real, octaves: int, persistance: real, lacunarity: real)

  /** The clamping at the top of generateNoiseMap. */
  function ClampParams(scale: real, octaves: int, persistance: real, lacunarity: real): (p: NoiseParams)
    ensures p.scale > 0.0 && p.octaves >= 0 && 0.0 <= p.persistance <= 1.0 && p.lacunarity >= 1.0
    ensures p.scale == (if scale > 0.0 then scale else 0.001)
    ensures p.octaves == (if octaves < 0 then 1 else octaves)
    ensures 0.0 <= persistance <= 1.0 ==> p.persistance == persistance
    ensures persistance < 0.0 ==> p.persistance == 0.0
    ensures persistance > 1.0 ==> p.persistance == 1.0
    ensures lacunarity >= 1.0 ==> p.lacunarity == lacunarity
    ensures lacunarity < 1.0 ==> p.lacunarity == 1.0
  {
    var s := if scale <= 0.0 then 0.001 else scale;
    var l := if lacunarity < 1.0 then 1.0 else lacunarity;
    var o := if octaves < 0 then 1 else octaves;
    var q := if persistance < 0.0 then 0.0 else persistance;
    var q' := if q > 1.0 then 1.0 else q;
    NoiseParams(s, o, q', l)
  }

  predicate IsWhole(r: real) {
    r.Floor as real == r
  }

  /**
   * Every sampling coordinate `x / scale * frequency` is a natural number:
   * `1 / scale` and `lacunarity` are whole numbers. Other values index the
   * grid at a fractional position, which this model does not cover.
   */
  predicate WholeSampling(p: NoiseParams)
  {
    p.scale > 0.0 && p.lacunarity >= 1.0 && IsWhole(1.0 / p.scale) && IsWhole(p.lacunarity)
  }

  /** `1 / scale` as a natural number. */
  function StepOf(p: NoiseParams): (k: nat)
    requires WholeSampling(p)
    ensures k >= 1 && k as real == 1.0 / p.scale
  {
    (1.0 / p.scale).Floor
  }

  /** The lacunarity as a natural number. */
  function GrowthOf(p: NoiseParams): (l: nat)
    requires WholeSampling(p)
    ensures l >= 1 && l as real == p.lacunarity
  {
    p.lacunarity.Floor
  }

  /** `x / scale * frequency` in octave i, where the frequency is lacunarity^i. */
  function SampleCoord(x: nat, p: NoiseParams, i: nat): nat
    requires WholeSampling(p)
  {
    x * StepOf(p) * Pow(GrowthOf(p), i)
  }

  function RealPow(b: real, e: nat): real
  {
    if e == 0 then 1.0 else RealPow(b, e - 1) * b
  }

  /** The noise height of cell (x, y) after the first n octaves: the sum of amplitude_i * sample_i. */
  function OctaveSum(noise: seq<seq<real>>, width: nat, height: nat, x: nat, y: nat, p: NoiseParams, n: nat): real
    requires width > 0 && height > 0 && IsGrid(noise, width, height) && WholeSampling(p)
  {
    if n == 0 then 0.0
    else
      OctaveSum(noise, width, height, x, y, p, n - 1)
      + Sample(noise, width, height, SampleCoord(x, p, n - 1), SampleCoord(y, p, n - 1)) * RealPow(p.persistance, n - 1)
  }

  /** The noise map before normalisation: `height` rows of `width` octave sums. */
  function RawNoiseMap(noise: seq<seq<real>>, width: nat, height: nat, p: NoiseParams): (raw: seq<seq<real>>)
    requires IsGrid(noise, width, height) && WholeSampling(p) && p.octaves >= 0
    ensures |raw| == height && forall y :: 0 <= y < height ==> |raw[y]| == width
  {
    seq(height, y requires 0 <= y < height =>
      seq(width, x requires 0 <= x < width => OctaveSum(noise, width, height, x, y, p, p.octaves)))
  }

  /** A value that may also be one of the two infinities the scan starts from. */
  datatype Extreme = NegInfinity | PosInfinity | Finite(value: real)

  predicate Above(v: real, e: Extreme) {
    match e
    case NegInfinity => true
    case PosInfinity => false
    case Finite(m) => v > m
  }

  predicate Below(v: real, e: Extreme) {
    match e
    case NegInfinity => false
    case PosInfinity => true
    case Finite(m) => v < m
  }

  /** maxNoiseHeight after scanning `s` from -Infinity, replacing it on a strictly greater value. */
  function ScanMax(s: seq<real>): (e: Extreme)
    ensures s == [] <==> e == NegInfinity
    ensures e != PosInfinity
    ensures e.Finite? ==> e.value in s && forall i :: 0 <= i < |s| ==> s[i] <= e.value
  {
    if s == [] then NegInfinity
    else
      var m := ScanMax(s[..|s| - 1]);
      assert s == s[..|s| - 1] + [s[|s| - 1]];
      if Above(s[|s| - 1], m) then Finite(s[|s| - 1]) else m
  }

  /** minNoiseHeight after scanning `s` from +Infinity, replacing it on a strictly smaller value. */
  function ScanMin(s: seq<real>): (e: Extreme)
    ensures s == [] <==> e == PosInfinity
    ensures e != NegInfinity
    ensures e.Finite? ==> e.value in s && forall i :: 0 <= i < |s| ==> e.value <= s[i]
  {
    if s == [] then PosInfinity
    else
      var m := ScanMin(s[..|s| - 1]);
      assert s == s[..|s| - 1] + [s[|s| - 1]];
      if Below(s[|s| - 1], m) then Finite(s[|s| - 1]) else m
  }

  function ValueOr(e: Extreme, d: real): real {
    if e.Finite? then e.value else d
  }

  /** The map after the normalisation pass: every cell through inverseLerp(min, max, cell). */
  function Normalized(raw: seq<seq<real>>): (m: seq<seq<real>>)
    ensures |m| == |raw| && forall y :: 0 <= y < |raw| ==> |m[y]| == |raw[y]|
  {
    var lo := ValueOr(ScanMin(Flatten(raw)), 0.0);
    var hi := ValueOr(ScanMax(Flatten(raw)), 0.0);
    seq(|raw|, y requires 0 <= y < |raw| =>
      seq(|raw[y]|, x requires 0 <= x < |raw[y]| => InverseLerp(lo, hi, raw[y][x])))
  }

  /** Each cell of the raw map lies between the scanned min and max. */
  lemma CellWithinScan(raw: seq<seq<real>>, y: nat, x: nat)
    requires y < |raw| && x < |raw[y]|
    ensures ScanMin(Flatten(raw)).Finite? && ScanMax(Flatten(raw)).Finite?
    ensures ScanMin(Flatten(raw)).value <= raw[y][x] <= ScanMax(Flatten(raw)).value
  {
    var cells := Flatten(raw);
    FlattenMember(raw, raw[y][x]);
    var k :| 0 <= k < |cells| && cells[k] == raw[y][x];
  }

  /** After normalisation every cell lies in [0, 1]. */
  lemma NormalizedInUnitInterval(raw: seq<seq<real>>)
    ensures forall y, x :: 0 <= y < |raw| && 0 <= x < |raw[y]| ==> 0.0 <= Normalized(raw)[y][x] <= 1.0
  {
    forall y, x | 0 <= y < |raw| && 0 <= x < |raw[y]|
      ensures 0.0 <= Normalized(raw)[y][x] <= 1.0
    {
      CellWithinScan(raw, y, x);
      var lo, hi := ScanMin(Flatten(raw)).value, ScanMax(Flatten(raw)).value;
      if lo < hi {
        InverseLerpInUnitInterval(lo, hi, raw[y][x]);
      }
    }
  }

  /** When every cell has the same height, normalisation gives 0 everywhere. */
  lemma NormalizedDegenerate(raw: seq<seq<real>>)
    requires ScanMin(Flatten(raw)) == ScanMax(Flatten(raw))
    ensures forall y, x :: 0 <= y < |raw| && 0 <= x < |raw[y]| ==> Normalized(raw)[y][x] == 0.0
  {
  }

  /** When the heights differ, the lowest cell normalises to 0 and the highest to 1. */
  lemma NormalizedReachesBothEnds(raw: seq<seq<real>>)
    requires ScanMin(Flatten(raw)).Finite? && ScanMax(Flatten(raw)).Finite?
    requires ScanMin(Flatten(raw)).value < ScanMax(Flatten(raw)).value
    ensures exists y, x :: 0 <= y < |raw| && 0 <= x < |raw[y]| && Normalized(raw)[y][x] == 0.0
    ensures exists y, x :: 0 <= y < |raw| && 0 <= x < |raw[y]| && Normalized(raw)[y][x] == 1.0
  {
    var lo, hi := ScanMin(Flatten(raw)).value, ScanMax(Flatten(raw)).value;
    InverseLerpEnds(lo, hi);
    FlattenMember(raw, lo);
    var y0 :| 0 <= y0 < |raw| && lo in raw[y0];
    var x0 :| 0 <= x0 < |raw[y0]| && raw[y0][x0] == lo;
    assert Normalized(raw)[y0][x0] == 0.0;
    FlattenMember(raw, hi);
    var y1 :| 0 <= y1 < |raw| && hi in raw[y1];
    var x1 :| 0 <= x1 < |raw[y1]| && raw[y1][x1] == hi;
    assert Normalized(raw)[y1][x1] == 1.0;
  }

  /** With octaves == 0 (left as is by the clamping) every cell is 0 before and after normalisation. */
  lemma ZeroOctavesGiveZeroMap(noise: seq<seq<real>>, width: nat, height: nat, p: NoiseParams)
    requires IsGrid(noise, width, height) && WholeSampling(p) && p.octaves == 0
    ensures forall y, x :: 0 <= y < height && 0 <= x < width ==> Normalized(RawNoiseMap(noise, width, height, p))[y][x] == 0.0
  {
    var raw := RawNoiseMap(noise, width, height, p);
    forall y, x | 0 <= y < height && 0 <= x < width
      ensures Normalized(raw)[y][x] == 0.0
    {
      CellWithinScan(raw, y, x);
      var cells := Flatten(raw);
      var lo, hi := ScanMin(cells).value, ScanMax(cells).value;
      FlattenMember(raw, lo);
      FlattenMember(raw, hi);
    }
  }

  // ---------------------------------------------------------------- generateMap's classification

  /**
   * The first-match `<=` cascade of generateMap. Each band includes its upper
   * bound; the second `<= 0.5` test repeats the first, so Plains is never chosen;
   * heights above 1 keep the Ocean default.
   */
  function Classify(h: real): (t: Terrain)
    ensures h <= 0.2 ==> t == Ocean
    ensures 0.2 < h <= 0.4 ==> t == Sea
    ensures 0.4 < h <= 0.5 ==> t == Beach
    ensures 0.5 < h <= 0.7 ==> t == Forrest
    ensures 0.7 < h <= 1.0 ==> t == Mountain
    ensures 1.0 < h ==> t == Ocean
    ensures t != Plains
  {
    var image := Ocean;
    if h <= 0.2 then Ocean
    else if h <= 0.4 then Sea
    else if h <= 0.5 then Beach
    else if h <= 0.5 then Plains
    else if h <= 0.7 then Forrest
    else if h <= 1.0 then Mountain
    else image
  }
}
