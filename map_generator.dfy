/**
 * The MapGenerator of src/handlers/MapGenerator.js: a flat world of Grass
 * blocks laid out row by row, kept in a list and later handed to the canvas.
 */
module FlatWorld {
  import opened Wrappers
  import opened JsStrings
  import opened Seqs
  import opened Scene

  function Max0(n: int): nat { if n < 0 then 0 else n }

  /** The id of the block at cell (x, y): the template `block-${GrassId}:${x}-${y}`. */
  function GrassBlockId(x: nat, y: nat): string
  {
    Template([Text("block-"), Number(GrassId), Text(":"), Number(x), Text("-"), Number(y)])
  }

  /** The Grass block generate creates for cell (x, y). */
  function GrassBlock(x: nat, y: nat, blockSize: int): Sprite
  {
    Sprite(GrassBlockId(x, y), GrassImg, x * blockSize, y * blockSize, None, None)
  }

  /** The blocks of one generate call, row by row; a negative dimension gives no rows or empty rows. */
  function GrassRows(width: int, height: int, blockSize: int): (rows: seq<seq<Sprite>>)
    ensures |rows| == Max0(height) && forall y :: 0 <= y < |rows| ==> |rows[y]| == Max0(width)
  {
    seq(Max0(height), y requires 0 <= y < Max0(height) =>
      seq(Max0(width), x requires 0 <= x < Max0(width) => GrassBlock(x, y, blockSize)))
  }

  lemma GrassRowsCell(width: int, height: int, blockSize: int, y: nat, x: nat)
    requires y < Max0(height) && x < Max0(width)
    ensures GrassRows(width, height, blockSize)[y][x] == GrassBlock(x, y, blockSize)
  {
  }

  /** One generate call emits Max0(width) * Max0(height) blocks. */
  lemma GrassCount(width: int, height: int, blockSize: int)
    ensures |Flatten(GrassRows(width, height, blockSize))| == Max0(height) * Max0(width)
  {
    FlattenUniformLength(GrassRows(width, height, blockSize), Max0(width));
  }

  /** Row-major layout: the Grass block of cell (x, y) sits at offset y * width + x. */
  lemma GrassCellAt(width: int, height: int, blockSize: int, y: nat, x: nat)
    requires y < Max0(height) && x < Max0(width)
    ensures y * Max0(width) + x < |Flatten(GrassRows(width, height, blockSize))|
    ensures Flatten(GrassRows(width, height, blockSize))[y * Max0(width) + x] == GrassBlock(x, y, blockSize)
  {
    FlattenUniformCell(GrassRows(width, height, blockSize), Max0(width), y, x);
    GrassRowsCell(width, height, blockSize, y, x);
  }

  /** The block at offset i of one generate call is the Grass block of cell (i % width, i / width). */
  lemma GrassBlockAt(width: int, height: int, blockSize: int, i: nat)
    requires i < |Flatten(GrassRows(width, height, blockSize))|
    ensures Max0(width) > 0 && i / Max0(width) < Max0(height)
    ensures Flatten(GrassRows(width, height, blockSize))[i] == GrassBlock(i % Max0(width), i / Max0(width), blockSize)
  {
    var w := Max0(width);
    FlattenUniformAt(GrassRows(width, height, blockSize), w, i);
    GrassRowsCell(width, height, blockSize, i / w, i % w);
  }

  /** The id of cell (x, y) spelled out: a fixed prefix, a colon and the digits of x, a dash and the digits of y. */
  lemma GrassBlockIdText(x: nat, y: nat)
    ensures GrassBlockId(x, y) == ("block-" + IntToString(GrassId)) + ((":" + NatToString(x)) + ("-" + NatToString(y)))
  {
    TemplateOfSix("block-", GrassId, ":", x, "-", y);
    NatIntToString(x);
    NatIntToString(y);
  }

  /** Different cells get different ids. */
  lemma GrassBlockIdInjective(x1: nat, y1: nat, x2: nat, y2: nat)
    requires GrassBlockId(x1, y1) == GrassBlockId(x2, y2)
    ensures x1 == x2 && y1 == y2
  {
    var a1, b1 := NatToString(x1), "-" + NatToString(y1);
    var a2, b2 := NatToString(x2), "-" + NatToString(y2);
    GrassBlockIdText(x1, y1);
    GrassBlockIdText(x2, y2);
    CancelPrefix("block-" + IntToString(GrassId), (":" + a1) + b1, (":" + a2) + b2);
    ConcatAssoc(":", a1, b1);
    ConcatAssoc(":", a2, b2);
    CancelPrefix(":", a1 + b1, a2 + b2);
    SplitAtSeparator(a1, NatToString(y1), a2, NatToString(y2), '-');
    NatToStringInjective(x1, x2);
    NatToStringInjective(y1, y2);
  }

  /** The id of the block at offset i of one generate call is the id of its cell (i % width, i / width). */
  lemma GrassIdAt(width: int, height: int, blockSize: int, i: nat) returns (x: nat, y: nat)
    requires i < |Flatten(GrassRows(width, height, blockSize))|
    ensures Max0(width) > 0 && x == i % Max0(width) && y == i / Max0(width)
    ensures Flatten(GrassRows(width, height, blockSize))[i].objID == GrassBlockId(x, y)
  {
    GrassBlockAt(width, height, blockSize, i);
    x, y := CellOf(i, Max0(width));
  }

  /** The ids of one generate call are pairwise distinct. */
  lemma GrassIdsDistinct(width: int, height: int, blockSize: int, i: nat, j: nat)
    requires i < j < |Flatten(GrassRows(width, height, blockSize))|
    ensures Flatten(GrassRows(width, height, blockSize))[i].objID != Flatten(GrassRows(width, height, blockSize))[j].objID
  {
    var x1, y1 := GrassIdAt(width, height, blockSize, i);
    var x2, y2 := GrassIdAt(width, height, blockSize, j);
    DistinctOffsetsDistinctCells(i, j, Max0(width));
    if GrassBlockId(x1, y1) == GrassBlockId(x2, y2) {
      GrassBlockIdInjective(x1, y1, x2, y2);
      assert false;
    }
  }

  class MapGenerator {
    const width: int
    const height: int
    const blockSize: int
    var blocks: seq<Sprite>

    /** Defaults: a 5 by 5 world of 16-pixel blocks, with no blocks yet. */
    constructor(width: int := 5, height: int := 5, blockSize: int := 16)
      ensures this.width == width && this.height == height && this.blockSize == blockSize
      ensures blocks == []
    {
      this.width := width;
      this.height := height;
      this.blockSize := blockSize;
      blocks := [];
    }

    /** getSize: width * height, which is the number of blocks generate adds when neither is negative. */
    function GetSize(): (n: int)
      reads this
      ensures width >= 0 && height >= 0 ==> n == |Flatten(GrassRows(width, height, blockSize))|
    {
      GrassCount(width, height, blockSize);
      width * height
    }

    /** generate: append one Grass block per cell, row by row; earlier blocks are kept. */
    method Generate()
      modifies this`blocks
      ensures blocks == old(blocks) + Flatten(GrassRows(width, height, blockSize))
    {
      ghost var rows := GrassRows(width, height, blockSize);
      var y := 0;
      while y < height
        invariant 0 <= y <= Max0(height)
        invariant blocks == old(blocks) + Flatten(rows[..y])
      {
        GenerateRow(y);
        PrefixSnoc(rows, y);
        FlattenSnoc(rows[..y], rows[y]);
        ConcatAssoc(old(blocks), Flatten(rows[..y]), rows[y]);
        y := y + 1;
      }
      assert rows[..y] == rows;
    }

    /** The inner loop of generate: append the Grass blocks of row y, left to right. */
    method GenerateRow(y: nat)
      requires y < Max0(height)
      modifies this`blocks
      ensures blocks == old(blocks) + GrassRows(width, height, blockSize)[y]
    {
      ghost var row := GrassRows(width, height, blockSize)[y];
      var x := 0;
      while x < width
        invariant 0 <= x <= Max0(width)
        invariant blocks == old(blocks) + row[..x]
      {
        var spr := Sprite(GrassBlockId(x, y), GrassImg, x * blockSize, y * blockSize, None, None);
        GrassRowsCell(width, height, blockSize, y, x);
        PrefixSnoc(row, x);
        SnocAssoc(old(blocks), row[..x], spr);
        blocks := blocks + [spr];
        x := x + 1;
      }
      assert row[..x] == row;
    }

    /** loadWorld: register every block, in list order; the list itself is left as it is. */
    method LoadWorld(canvas: Canvas)
      modifies canvas
      ensures canvas.objects == old(canvas.objects) + blocks
    {
      for i := 0 to |blocks|
        invariant canvas.objects == old(canvas.objects) + blocks[..i]
      {
        canvas.RegisterObject(blocks[i]);
        assert blocks[..i + 1] == blocks[..i] + [blocks[i]];
      }
      assert blocks[..|blocks|] == blocks;
    }
  }

  /** generate does not clear the list: two calls leave twice getSize() blocks. */
  method GenerateTwice(width: int, height: int, blockSize: int) returns (count: nat)
    ensures width >= 0 && height >= 0 ==> count == 2 * (width * height)
  {
    var generator := new MapGenerator(width, height, blockSize);
    generator.Generate();
    generator.Generate();
    count := |generator.blocks|;
    assert width >= 0 && height >= 0 ==> |Flatten(GrassRows(width, height, blockSize))| == generator.GetSize();
  }
}
