/**
 * The MapGeneratorV2 class of src/handlers/MapGenerator_v2.js: seeded
 * construction of the RNG grid, the multi-octave noise grid and the
 * terrain classification that registers one sprite per cell.
 */
module TerrainGenerator {
  import opened Wrappers
  import opened JsNumbers
  import opened JsStrings
  import opened Seqs
  import opened Scene
  import opened SeededRng
  import opened TerrainNoise

  /** Two grids drawn from the same state with the same dimensions are equal. */
  lemma PerlinGridUnique(g1: seq<seq<real>>, g2: seq<seq<real>>, s0: int, width: nat, height: nat)
    requires IsPerlinGrid(g1, s0, width, height) && IsPerlinGrid(g2, s0, width, height)
    ensures g1 == g2
  {
    forall i | 0 <= i < width
      ensures g1[i] == g2[i]
    {
      assert forall j :: 0 <= j < height ==> g1[i][j] == g2[i][j];
    }
  }

  /** The number of cells, and of draws, of a `width` by `height` grid. */
  function CellCount(width: nat, height: nat): nat
  {
    width * height
  }

  /** The id createSprite gives cell (x, y): the template `${posX}-${posY} | ${currentHeight}`. */
  function TileId(x: nat, y: nat, currentHeight: string): string
  {
    Template([Number(x), Text("-"), Number(y), Text(" | "), Text(currentHeight)])
  }

  /** The sprite createSprite registers for cell (x, y) of height h; `fixed` stands for `toFixed(2)`. */
  function TileSprite(x: nat, y: nat, h: real, fixed: real -> string): Sprite
  {
    Sprite(TileId(x, y, fixed(h)), TerrainImg(Classify(h)), x * 16, y * 16, None, None)
  }

  /** The sprites generateMap registers, row by row. */
  function TileRows(noiseMap: seq<seq<real>>, width: nat, height: nat, fixed: real -> string): (rows: seq<seq<Sprite>>)
    requires |noiseMap| == height && forall y :: 0 <= y < height ==> |noiseMap[y]| == width
    ensures |rows| == height && forall y :: 0 <= y < height ==> |rows[y]| == width
  {
    seq(height, y requires 0 <= y < height =>
      seq(width, x requires 0 <= x < width => TileSprite(x, y, noiseMap[y][x], fixed)))
  }

  /** `s` stands on cell (x, y), 16 pixels per cell, showing the terrain of height h. */
  predicate PlacedAt(s: Sprite, x: nat, y: nat, h: real)
  {
    s.posX == 16 * x && s.posY == 16 * y && s.image == TerrainImg(Classify(h))
  }

  /** generateMap registers exactly one sprite per cell: width * height in all. */
  lemma TilesCount(noiseMap: seq<seq<real>>, width: nat, height: nat, fixed: real -> string)
    requires |noiseMap| == height && forall y :: 0 <= y < height ==> |noiseMap[y]| == width
    ensures |Flatten(TileRows(noiseMap, width, height, fixed))| == height * width
  {
    FlattenUniformLength(TileRows(noiseMap, width, height, fixed), width);
  }

  /**
   * Row-major order: the sprite of cell (x, y) is registered at offset y * width + x,
   * placed at (16x, 16y) with the cell's terrain.
   */
  lemma TileAt(noiseMap: seq<seq<real>>, width: nat, height: nat, fixed: real -> string, y: nat, x: nat)
    requires |noiseMap| == height && forall b :: 0 <= b < height ==> |noiseMap[b]| == width
    requires y < height && x < width
    ensures y * width + x < |Flatten(TileRows(noiseMap, width, height, fixed))|
    ensures PlacedAt(Flatten(TileRows(noiseMap, width, height, fixed))[y * width + x], x, y, noiseMap[y][x])
  {
    FlattenUniformCell(TileRows(noiseMap, width, height, fixed), width, y, x);
  }

  class MapGeneratorV2 {
    const width: nat
    const height: nat
    const scale: real
    const seed: int
    const rng: Lcg
    var noiseMap: seq<seq<real>>
    var perlinNoise: seq<seq<real>>

    /** The grid has `width` columns of `height` cells. */
    predicate Valid()
      reads this
    {
      IsGrid(perlinNoise, width, height)
    }

    constructor(width: nat, height: nat, scale: real, seedText: seq<CodeUnit>)
      ensures this.width == width && this.height == height && this.scale == scale
      ensures seed == SeedOf(seedText)
      ensures Valid() && IsPerlinGrid(perlinNoise, InitState(seed), width, height)
      ensures noiseMap == []
      ensures fresh(rng) && rng.state == StateAfter(InitState(seed), CellCount(width, height))
    {
      this.width := width;
      this.height := height;
      this.scale := scale;
      var s := StringToSeed(seedText);
      this.seed := s;
      this.rng := new Lcg(s);
      this.noiseMap := [];
      new;
      perlinNoise := CreatePerlinNoise(width, height);
    }

    /** createPerlinNoise: `w` columns of `h` fresh draws each. */
    method CreatePerlinNoise(w: nat, h: nat) returns (noise: seq<seq<real>>)
      modifies rng
      ensures IsPerlinGrid(noise, old(rng.state), w, h) && IsGrid(noise, w, h)
      ensures rng.state == StateAfter(old(rng.state), CellCount(w, h))
    {
      ghost var s0 := rng.state;
      noise := [];
      for i := 0 to w
        invariant |noise| == i
        invariant forall a :: 0 <= a < i ==> DrawnColumn(noise[a], s0, a * h, h)
        invariant rng.state == StateAfter(s0, i * h)
      {
        var column := Draws(rng, h);
        ColumnShift(column, s0, i * h, h);
        StateAfterAdd(s0, i * h, h, i * h + h);
        assert i * h + h == (i + 1) * h;
        noise := noise + [column];
      }
      PerlinGridIsGrid(noise, s0, w, h);
    }

    /** The octave loop of generateNoiseMap for cell (x, y), with clamped parameters. */
    method OctaveNoise(x: nat, y: nat, p: NoiseParams) returns (noiseHeight: real)
      requires Valid() && width > 0 && height > 0 && WholeSampling(p) && p.octaves >= 0
      ensures noiseHeight == OctaveSum(perlinNoise, width, height, x, y, p, p.octaves)
    {
      var amplitude := 1.0;
      var frequency := 1.0;
      noiseHeight := 0.0;
      for i := 0 to p.octaves
        invariant noiseHeight == OctaveSum(perlinNoise, width, height, x, y, p, i)
        invariant amplitude == RealPow(p.persistance, i)
        invariant frequency == Pow(GrowthOf(p), i) as real
      {
        var sampleX := x as real / p.scale * frequency;
        var sampleY := y as real / p.scale * frequency;
        OctaveCoords(x, y, p, i, frequency);
        var perlinValue := Sample(perlinNoise, width, height, sampleX.Floor, sampleY.Floor);
        OctaveStep(perlinNoise, width, height, x, y, p, i, noiseHeight, amplitude, perlinValue);
        noiseHeight := noiseHeight + perlinValue * amplitude;
        amplitude, frequency := NextOctave(p, i, amplitude, frequency);
      }
    }

    /** The end of an octave: `amplitude *= persistance` and `frequency *= lacunarity`. */
    static method NextOctave(p: NoiseParams, i: nat, amplitude: real, frequency: real) returns (amplitude': real, frequency': real)
      requires WholeSampling(p)
      requires amplitude == RealPow(p.persistance, i) && frequency == Pow(GrowthOf(p), i) as real
      ensures amplitude' == RealPow(p.persistance, i + 1) && frequency' == Pow(GrowthOf(p), i + 1) as real
    {
      RealPowSucc(p.persistance, i);
      FrequencyStep(p, i);
      amplitude' := amplitude * p.persistance;
      frequency' := frequency * p.lacunarity;
    }

    /**
     * The inner loop of generateNoiseMap's first pass over row y: the row of
     * octave sums, with the running max and min carried on from the cells `seen` before it.
     */
    method ScanRow(y: nat, p: NoiseParams, ghost seen: seq<real>, maxIn: Extreme, minIn: Extreme)
      returns (row: seq<real>, maxOut: Extreme, minOut: Extreme)
      requires Valid() && y < height && WholeSampling(p) && p.octaves >= 0
      requires maxIn == ScanMax(seen) && minIn == ScanMin(seen)
      ensures row == RawNoiseMap(perlinNoise, width, height, p)[y]
      ensures maxOut == ScanMax(seen + row) && minOut == ScanMin(seen + row)
    {
      ghost var target := RawNoiseMap(perlinNoise, width, height, p)[y];
      row, maxOut, minOut := [], maxIn, minIn;
      assert seen + row == seen;
      for x := 0 to width
        invariant row == target[..x]
        invariant maxOut == ScanMax(seen + row) && minOut == ScanMin(seen + row)
      {
        var noiseHeight := OctaveNoise(x, y, p);
        RawNoiseMapCell(perlinNoise, width, height, p, y, x);
        PrefixSnoc(target, x);
        maxOut, minOut := TrackExtremes(noiseHeight, maxOut, minOut, seen + row);
        SnocAssoc(seen, row, noiseHeight);
        row := row + [noiseHeight];
      }
      assert row == target;
    }

    /** generateNoiseMap: clamp, sum the octaves while scanning min and max, then normalise. */
    method GenerateNoiseMap(octaves: int := 1, persistance: real := 1.0, lacunarity: real := 1.0)
      requires Valid()
      requires WholeSampling(ClampParams(scale, octaves, persistance, lacunarity))
      modifies this`noiseMap
      ensures noiseMap == Normalized(RawNoiseMap(perlinNoise, width, height, ClampParams(scale, octaves, persistance, lacunarity)))
    {
      var scale, octaves', persistance', lacunarity' := this.scale, octaves, persistance, lacunarity;

      if scale <= 0.0 { scale := 0.001; }
      if lacunarity' < 1.0 { lacunarity' := 1.0; }
      if octaves' < 0 { octaves' := 1; }
      if persistance' < 0.0 { persistance' := 0.0; }
      if persistance' > 1.0 { persistance' := 1.0; }
      var p := NoiseParams(scale, octaves', persistance', lacunarity');
      assert p == ClampParams(this.scale, octaves, persistance, lacunarity);

      var grid, maxNoiseHeight, minNoiseHeight := RawPass(p);
      grid := NormalizePass(grid, maxNoiseHeight, minNoiseHeight);
      noiseMap := grid;
    }

    /** The second pass of generateNoiseMap: inverseLerp(min, max, cell) on every row. */
    method NormalizePass(raw: seq<seq<real>>, maxNoiseHeight: Extreme, minNoiseHeight: Extreme) returns (grid: seq<seq<real>>)
      requires maxNoiseHeight == ScanMax(Flatten(raw)) && minNoiseHeight == ScanMin(Flatten(raw))
      ensures grid == Normalized(raw)
    {
      grid := raw;
      for y := 0 to |raw|
        invariant |grid| == |raw|
        invariant forall a :: 0 <= a < y ==> grid[a] == Normalized(raw)[a]
        invariant forall a :: y <= a < |raw| ==> grid[a] == raw[a]
      {
        if raw[y] != [] {
          CellWithinScan(raw, y, 0);
        }
        var normalizedRow := NormalizeRow(grid[y], minNoiseHeight, maxNoiseHeight);
        NormalizedRowIs(raw, y, normalizedRow);
        grid := grid[y := normalizedRow];
      }
      assert grid == Normalized(raw);
    }

    /** The first pass of generateNoiseMap: every octave sum, row by row, with the running max and min. */
    method RawPass(p: NoiseParams) returns (grid: seq<seq<real>>, maxNoiseHeight: Extreme, minNoiseHeight: Extreme)
      requires Valid() && WholeSampling(p) && p.octaves >= 0
      ensures grid == RawNoiseMap(perlinNoise, width, height, p)
      ensures maxNoiseHeight == ScanMax(Flatten(grid)) && minNoiseHeight == ScanMin(Flatten(grid))
    {
      ghost var raw := RawNoiseMap(perlinNoise, width, height, p);
      grid := [];
      maxNoiseHeight := NegInfinity;
      minNoiseHeight := PosInfinity;
      for y := 0 to height
        invariant grid == raw[..y]
        invariant maxNoiseHeight == ScanMax(Flatten(grid)) && minNoiseHeight == ScanMin(Flatten(grid))
      {
        var row;
        row, maxNoiseHeight, minNoiseHeight := ScanRow(y, p, Flatten(grid), maxNoiseHeight, minNoiseHeight);
        FlattenSnoc(grid, row);
        PrefixSnoc(raw, y);
        grid := grid + [row];
      }
      assert raw[..height] == raw;
    }

    /** The inner loop of generateNoiseMap's second pass: inverseLerp(min, max, cell) on every cell of a row. */
    method NormalizeRow(row: seq<real>, minNoiseHeight: Extreme, maxNoiseHeight: Extreme) returns (normalized: seq<real>)
      requires row != [] ==> minNoiseHeight.Finite? && maxNoiseHeight.Finite?
      ensures |normalized| == |row|
      ensures forall x :: 0 <= x < |row| ==>
        normalized[x] == InverseLerp(minNoiseHeight.value, maxNoiseHeight.value, row[x])
    {
      normalized := row;
      for x := 0 to |row|
        invariant |normalized| == |row|
        invariant forall b :: 0 <= b < x ==> normalized[b] == InverseLerp(minNoiseHeight.value, maxNoiseHeight.value, row[b])
        invariant forall b :: x <= b < |row| ==> normalized[b] == row[b]
      {
        var normalizedValue := InverseLerp(minNoiseHeight.value, maxNoiseHeight.value, normalized[x]);
        normalized := normalized[x := normalizedValue];
      }
    }

    /** createSprite: register the terrain sprite of cell (posX, posY). */
    method CreateSprite(canvas: Canvas, posX: nat, posY: nat, image: Terrain, currentHeight: string)
      modifies canvas
      ensures canvas.objects == old(canvas.objects)
        + [Sprite(TileId(posX, posY, currentHeight), TerrainImg(image), posX * 16, posY * 16, None, None)]
    {
      var sprite := Sprite(TileId(posX, posY, currentHeight), TerrainImg(image), posX * 16, posY * 16, None, None);
      canvas.RegisterObject(sprite);
    }

    /** generateMap: build the noise grid with (5, 0.5, 2), then classify and register every cell in row-major order. */
    method GenerateMap(canvas: Canvas, fixed: real -> string)
      requires Valid() && WholeSampling(ClampParams(scale, 5, 0.5, 2.0))
      modifies this`noiseMap, canvas
      ensures noiseMap == Normalized(RawNoiseMap(perlinNoise, width, height, ClampParams(scale, 5, 0.5, 2.0)))
      ensures canvas.objects == old(canvas.objects) + Flatten(TileRows(noiseMap, width, height, fixed))
    {
      GenerateNoiseMap(5, 0.5, 2.0);
      RegisterTiles(canvas, fixed);
    }

    /** The classification loops of generateMap: register the sprite of every cell, row by row. */
    method RegisterTiles(canvas: Canvas, fixed: real -> string)
      requires |noiseMap| == height && forall b :: 0 <= b < height ==> |noiseMap[b]| == width
      modifies canvas
      ensures canvas.objects == old(canvas.objects) + Flatten(TileRows(noiseMap, width, height, fixed))
    {
      ghost var rows := TileRows(noiseMap, width, height, fixed);
      for y := 0 to height
        invariant canvas.objects == old(canvas.objects) + Flatten(rows[..y])
      {
        RegisterRow(canvas, y, fixed);
        FlattenSnoc(rows[..y], rows[y]);
        PrefixSnoc(rows, y);
      }
      assert rows[..height] == rows;
    }

    /** The inner loop of generateMap over row y: classify each cell and register its sprite. */
    method RegisterRow(canvas: Canvas, y: nat, fixed: real -> string)
      requires y < height && |noiseMap| == height && forall b :: 0 <= b < height ==> |noiseMap[b]| == width
      modifies canvas
      ensures canvas.objects == old(canvas.objects) + TileRows(noiseMap, width, height, fixed)[y]
    {
      ghost var row := TileRows(noiseMap, width, height, fixed)[y];
      for x := 0 to width
        invariant canvas.objects == old(canvas.objects) + row[..x]
      {
        var currentHeight := noiseMap[y][x];
        var blockImage := Classify(currentHeight);
        CreateSprite(canvas, x, y, blockImage, fixed(currentHeight));
        assert row[x] == TileSprite(x, y, currentHeight, fixed);
        PrefixSnoc(row, x);
      }
      assert row[..width] == row;
    }
  }

  /** The `if (noiseHeight > max)` / `if (noiseHeight < min)` updates of generateNoiseMap's first pass. */
  method TrackExtremes(noiseHeight: real, maxIn: Extreme, minIn: Extreme, ghost seen: seq<real>)
    returns (maxOut: Extreme, minOut: Extreme)
    requires maxIn == ScanMax(seen) && minIn == ScanMin(seen)
    ensures maxOut == ScanMax(seen + [noiseHeight]) && minOut == ScanMin(seen + [noiseHeight])
  {
    ScanSnoc(seen, noiseHeight);
    maxOut, minOut := maxIn, minIn;
    if Above(noiseHeight, maxOut) {
      maxOut := Finite(noiseHeight);
    }
    if Below(noiseHeight, minOut) {
      minOut := Finite(noiseHeight);
    }
  }

  /** In octave i the loop samples the noise grid at (SampleCoord(x, p, i), SampleCoord(y, p, i)). */
  lemma OctaveCoords(x: nat, y: nat, p: NoiseParams, i: nat, frequency: real)
    requires WholeSampling(p) && frequency == Pow(GrowthOf(p), i) as real
    ensures (x as real / p.scale * frequency).Floor == SampleCoord(x, p, i)
    ensures (y as real / p.scale * frequency).Floor == SampleCoord(y, p, i)
  {
    WholeCoordinate(x, p, i, frequency);
    WholeCoordinate(y, p, i, frequency);
  }

  /** One turn of the octave loop adds octave i's sample, weighted by amplitude^i, to the noise height. */
  lemma OctaveStep(noise: seq<seq<real>>, width: nat, height: nat, x: nat, y: nat, p: NoiseParams, i: nat,
                   noiseHeight: real, amplitude: real, perlinValue: real)
    requires width > 0 && height > 0 && IsGrid(noise, width, height) && WholeSampling(p)
    requires noiseHeight == OctaveSum(noise, width, height, x, y, p, i)
    requires amplitude == RealPow(p.persistance, i)
    requires perlinValue == Sample(noise, width, height, SampleCoord(x, p, i), SampleCoord(y, p, i))
    ensures noiseHeight + perlinValue * amplitude == OctaveSum(noise, width, height, x, y, p, i + 1)
  {
    OctaveSumSucc(noise, width, height, x, y, p, i);
  }

  lemma OctaveSumSucc(noise: seq<seq<real>>, width: nat, height: nat, x: nat, y: nat, p: NoiseParams, n: nat)
    requires width > 0 && height > 0 && IsGrid(noise, width, height) && WholeSampling(p)
    ensures OctaveSum(noise, width, height, x, y, p, n + 1)
      == OctaveSum(noise, width, height, x, y, p, n) + Sample(noise, width, height, SampleCoord(x, p, n), SampleCoord(y, p, n)) * RealPow(p.persistance, n)
  {
  }

  /** The amplitude after octave n: persistance^n * persistance. */
  lemma RealPowSucc(b: real, n: nat)
    ensures RealPow(b, n + 1) == RealPow(b, n) * b
  {
  }

  /** A column drawn from the state reached after `offset` steps holds draws offset + 1 .. offset + h. */
  lemma ColumnShift(col: seq<real>, s0: int, offset: nat, h: nat)
    requires |col| == h && forall j :: 0 <= j < h ==> col[j] == Draw(StateAfter(StateAfter(s0, offset), j + 1))
    ensures DrawnColumn(col, s0, offset, h)
  {
    forall j | 0 <= j < h
      ensures col[j] == Draw(StateAfter(s0, offset + j + 1))
    {
      StateAfterAdd(s0, offset, j + 1, offset + j + 1);
    }
  }

  lemma RawNoiseMapCell(noise: seq<seq<real>>, width: nat, height: nat, p: NoiseParams, y: nat, x: nat)
    requires IsGrid(noise, width, height) && WholeSampling(p) && p.octaves >= 0 && y < height && x < width
    ensures RawNoiseMap(noise, width, height, p)[y][x] == OctaveSum(noise, width, height, x, y, p, p.octaves)
  {
  }

  /** A row of inverseLerp(min, max, cell) values over the scanned extremes is that row of the normalised map. */
  lemma NormalizedRowIs(raw: seq<seq<real>>, y: nat, r: seq<real>)
    requires y < |raw|
    requires raw[y] != [] ==> ScanMin(Flatten(raw)).Finite? && ScanMax(Flatten(raw)).Finite?
    requires |r| == |raw[y]|
    requires forall x :: 0 <= x < |r| ==> r[x] == InverseLerp(ScanMin(Flatten(raw)).value, ScanMax(Flatten(raw)).value, raw[y][x])
    ensures r == Normalized(raw)[y]
  {
  }

  /** The running max and min after one more value. */
  lemma ScanSnoc(s: seq<real>, v: real)
    ensures ScanMax(s + [v]) == if Above(v, ScanMax(s)) then Finite(v) else ScanMax(s)
    ensures ScanMin(s + [v]) == if Below(v, ScanMin(s)) then Finite(v) else ScanMin(s)
  {
    assert (s + [v])[..|s|] == s;
  }

  /** Multiplying the frequency lacunarity^i by the lacunarity gives lacunarity^(i+1). */
  lemma FrequencyStep(p: NoiseParams, i: nat)
    requires WholeSampling(p)
    ensures Pow(GrowthOf(p), i) as real * p.lacunarity == Pow(GrowthOf(p), i + 1) as real
  {
    var l, f := GrowthOf(p), Pow(GrowthOf(p), i);
    assert Pow(l, i + 1) == l * f;
    assert (l * f) as real == l as real * f as real;
  }

  /** In octave i the coordinate `x / scale * frequency` is the natural number SampleCoord(x, p, i). */
  lemma WholeCoordinate(x: nat, p: NoiseParams, i: nat, frequency: real)
    requires WholeSampling(p) && frequency == Pow(GrowthOf(p), i) as real
    ensures x as real / p.scale * frequency == SampleCoord(x, p, i) as real
    ensures (x as real / p.scale * frequency).Floor == SampleCoord(x, p, i)
  {
    var k, f := StepOf(p), Pow(GrowthOf(p), i);
    assert x as real / p.scale == x as real * (1.0 / p.scale);
    assert (x * k) as real == x as real * k as real;
    assert (x * k * f) as real == (x * k) as real * f as real;
  }
}
