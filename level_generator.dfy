/**
 * The LevelGenerator of src/handlers/LevelGenerator.js: a level is a grid of
 * texture codes, each row with its own length; every code the texture table
 * maps to an image becomes a sprite on the canvas, and tapping a sprite
 * replaces it with a Stone block.
 */
module LevelLoader {
  import opened Wrappers
  import opened JsStrings
  import opened Seqs
  import opened Scene

  /** A texture table: each code maps to an image or to null; codes it lacks are undefined. */
  type TextureTable = map<int, Option<Image>>

  /** `textureMap[code]`: an image, or None for a null or missing entry (both skipped). */
  function Texture(table: TextureTable, code: int): Option<Image>
  {
    if code in table then table[code] else None
  }

  /** The id loadLevel and replaceObject give a sprite at (posX, posY): the template `x-${posX},y-${posY}`. */
  function PositionId(posX: int, posY: int): string
  {
    Template([Text("x-"), Number(posX), Text(",y-"), Number(posY)])
  }

  /** Different positions get different ids: the two numbers are read back at the ',' after the first. */
  lemma PositionIdInjective(x1: int, y1: int, x2: int, y2: int)
    requires PositionId(x1, y1) == PositionId(x2, y2)
    ensures x1 == x2 && y1 == y2
  {
    var a1, b1 := IntToString(x1), "y-" + IntToString(y1);
    var a2, b2 := IntToString(x2), "y-" + IntToString(y2);
    TemplateOfFour("x-", x1, ",y-", y1);
    TemplateOfFour("x-", x2, ",y-", y2);
    assert ",y-" + IntToString(y1) == [','] + b1;
    assert ",y-" + IntToString(y2) == [','] + b2;
    ConcatAssoc("x-", a1, [','] + b1);
    ConcatAssoc("x-", a2, [','] + b2);
    CancelPrefix("x-", a1 + ([','] + b1), a2 + ([','] + b2));
    SplitAtSeparator(a1, b1, a2, b2, ',');
    CancelPrefix("y-", IntToString(y1), IntToString(y2));
    IntToStringInjective(x1, x2);
    IntToStringInjective(y1, y2);
  }

  /** With a non-zero textureSize, the sprites loadLevel makes for two different cells have different ids. */
  lemma CellIdsDistinct(x1: nat, y1: nat, x2: nat, y2: nat, textureSize: int, img1: Image, img2: Image)
    requires textureSize != 0 && (x1, y1) != (x2, y2)
    ensures CellSprite(x1, y1, textureSize, img1).objID != CellSprite(x2, y2, textureSize, img2).objID
  {
    if CellSprite(x1, y1, textureSize, img1).objID == CellSprite(x2, y2, textureSize, img2).objID {
      PositionIdInjective(x1 * textureSize, y1 * textureSize, x2 * textureSize, y2 * textureSize);
      MulCancel(x1, x2, textureSize);
      MulCancel(y1, y2, textureSize);
    }
  }

  lemma MulCancel(a: int, b: int, k: int)
    requires k != 0 && a * k == b * k
    ensures a == b
  {
    assert (a - b) * k == 0;
  }

  /** The sprite loadLevel registers for cell (x, y) with texture `img`. */
  function CellSprite(x: nat, y: nat, textureSize: int, img: Image): Sprite
  {
    Sprite(PositionId(x * textureSize, y * textureSize), img, x * textureSize, y * textureSize, None, None)
  }

  /** The sprite of cell (x, y) holding `code`, or none when the code maps to no image. */
  function CellSprites(code: int, x: nat, y: nat, table: TextureTable, textureSize: int): seq<Sprite>
  {
    match Texture(table, code)
    case Some(img) => [CellSprite(x, y, textureSize, img)]
    case None => []
  }

  /** The sprites of row y: one per mapped code, left to right. */
  function RowSprites(row: seq<int>, y: nat, table: TextureTable, textureSize: int): seq<Sprite>
  {
    if row == [] then []
    else
      var x := |row| - 1;
      RowSprites(row[..x], y, table, textureSize) + CellSprites(row[x], x, y, table, textureSize)
  }

  /** The sprites of a level, row after row. */
  function LevelSprites(level: seq<seq<int>>, table: TextureTable, textureSize: int): seq<Sprite>
  {
    if level == [] then []
    else
      var y := |level| - 1;
      LevelSprites(level[..y], table, textureSize) + RowSprites(level[y], y, table, textureSize)
  }

  // ---------------------------------------------------------------- what loadLevel registers

  /** Cell x of row y maps to an image and `s` is the sprite loadLevel makes for it. */
  predicate SpriteOfRowCell(row: seq<int>, y: nat, table: TextureTable, textureSize: int, x: int, s: Sprite)
  {
    && 0 <= x < |row|
    && Texture(table, row[x]).Some?
    && s == CellSprite(x, y, textureSize, Texture(table, row[x]).value)
  }

  /** Cell (x, y) of the level maps to an image and `s` is the sprite loadLevel makes for it. */
  predicate SpriteOfCell(level: seq<seq<int>>, table: TextureTable, textureSize: int, y: int, x: int, s: Sprite)
  {
    0 <= y < |level| && SpriteOfRowCell(level[y], y, table, textureSize, x, s)
  }

  /** Every sprite of a row comes from a mapped cell of that row, which this finds. */
  lemma {:induction false} RowSpritesSound(row: seq<int>, y: nat, table: TextureTable, textureSize: int, s: Sprite)
    returns (x: int)
    requires s in RowSprites(row, y, table, textureSize)
    ensures SpriteOfRowCell(row, y, table, textureSize, x, s)
  {
    var last := |row| - 1;
    var init := row[..last];
    if s in RowSprites(init, y, table, textureSize) {
      x := RowSpritesSound(init, y, table, textureSize, s);
      assert init[x] == row[x];
    } else {
      x := last;
    }
  }

  /** The sprite of every mapped cell of a row is among the row's sprites. */
  lemma {:induction false} RowSpritesComplete(row: seq<int>, y: nat, table: TextureTable, textureSize: int, x: int, s: Sprite)
    requires SpriteOfRowCell(row, y, table, textureSize, x, s)
    ensures s in RowSprites(row, y, table, textureSize)
  {
    var last := |row| - 1;
    var init := row[..last];
    var rest := RowSprites(init, y, table, textureSize);
    if x < last {
      assert init[x] == row[x];
      RowSpritesComplete(init, y, table, textureSize, x, s);
    } else {
      assert CellSprites(row[last], last, y, table, textureSize) == [s];
    }
  }

  /** A sprite is in a row's sprites exactly when it is the sprite of a mapped cell of that row. */
  lemma RowSpritesMember(row: seq<int>, y: nat, table: TextureTable, textureSize: int, s: Sprite)
    ensures s in RowSprites(row, y, table, textureSize) <==>
      exists x :: SpriteOfRowCell(row, y, table, textureSize, x, s)
  {
    if s in RowSprites(row, y, table, textureSize) {
      var x := RowSpritesSound(row, y, table, textureSize, s);
    }
    if exists x :: SpriteOfRowCell(row, y, table, textureSize, x, s) {
      var x :| SpriteOfRowCell(row, y, table, textureSize, x, s);
      RowSpritesComplete(row, y, table, textureSize, x, s);
    }
  }

  /** Every sprite loadLevel registers comes from a mapped cell, which this finds. */
  lemma {:induction false} LevelSpritesSound(level: seq<seq<int>>, table: TextureTable, textureSize: int, s: Sprite)
    returns (y: int, x: int)
    requires s in LevelSprites(level, table, textureSize)
    ensures SpriteOfCell(level, table, textureSize, y, x, s)
  {
    var last := |level| - 1;
    var init := level[..last];
    if s in LevelSprites(init, table, textureSize) {
      y, x := LevelSpritesSound(init, table, textureSize, s);
      assert init[y] == level[y];
    } else {
      y := last;
      x := RowSpritesSound(level[last], last, table, textureSize, s);
    }
  }

  /** loadLevel registers the sprite of every mapped cell. */
  lemma {:induction false} LevelSpritesComplete(level: seq<seq<int>>, table: TextureTable, textureSize: int, y: int, x: int, s: Sprite)
    requires SpriteOfCell(level, table, textureSize, y, x, s)
    ensures s in LevelSprites(level, table, textureSize)
  {
    var last := |level| - 1;
    var init := level[..last];
    if y < last {
      assert init[y] == level[y];
      LevelSpritesComplete(init, table, textureSize, y, x, s);
    } else {
      RowSpritesComplete(level[last], last, table, textureSize, x, s);
    }
  }

  /**
   * loadLevel registers exactly the sprites of the mapped cells: a sprite is
   * registered if and only if it is the sprite of some cell (x, y) of the
   * level whose code maps to an image, placed at (x * textureSize, y * textureSize).
   */
  lemma LevelSpritesMember(level: seq<seq<int>>, table: TextureTable, textureSize: int, s: Sprite)
    ensures s in LevelSprites(level, table, textureSize) <==>
      exists y, x :: SpriteOfCell(level, table, textureSize, y, x, s)
  {
    if s in LevelSprites(level, table, textureSize) {
      var y, x := LevelSpritesSound(level, table, textureSize, s);
    }
    if exists y, x :: SpriteOfCell(level, table, textureSize, y, x, s) {
      var y, x :| SpriteOfCell(level, table, textureSize, y, x, s);
      LevelSpritesComplete(level, table, textureSize, y, x, s);
    }
  }

  /** The number of cells whose code maps to an image, counted from the first row and the first cell. */
  function MappedInRow(row: seq<int>, table: TextureTable): nat
  {
    if row == [] then 0
    else (if Texture(table, row[0]).Some? then 1 else 0) + MappedInRow(row[1..], table)
  }

  function MappedCells(level: seq<seq<int>>, table: TextureTable): nat
  {
    if level == [] then 0 else MappedInRow(level[0], table) + MappedCells(level[1..], table)
  }

  lemma {:induction false} MappedInRowSnoc(row: seq<int>, code: int, table: TextureTable)
    ensures MappedInRow(row + [code], table) == MappedInRow(row, table) + (if Texture(table, code).Some? then 1 else 0)
  {
    if row != [] {
      assert (row + [code])[1..] == row[1..] + [code];
      MappedInRowSnoc(row[1..], code, table);
    }
  }

  lemma {:induction false} MappedCellsSnoc(level: seq<seq<int>>, row: seq<int>, table: TextureTable)
    ensures MappedCells(level + [row], table) == MappedCells(level, table) + MappedInRow(row, table)
  {
    if level != [] {
      assert (level + [row])[1..] == level[1..] + [row];
      MappedCellsSnoc(level[1..], row, table);
    }
  }

  lemma {:induction false} RowSpritesCount(row: seq<int>, y: nat, table: TextureTable, textureSize: int)
    ensures |RowSprites(row, y, table, textureSize)| == MappedInRow(row, table)
  {
    if row != [] {
      var x := |row| - 1;
      RowSpritesCount(row[..x], y, table, textureSize);
      MappedInRowSnoc(row[..x], row[x], table);
      assert row[..x] + [row[x]] == row;
    }
  }

  /** loadLevel registers as many sprites as the level has mapped cells; an empty level registers none. */
  lemma {:induction false} LevelSpritesCount(level: seq<seq<int>>, table: TextureTable, textureSize: int)
    ensures |LevelSprites(level, table, textureSize)| == MappedCells(level, table)
  {
    if level != [] {
      var y := |level| - 1;
      LevelSpritesCount(level[..y], table, textureSize);
      RowSpritesCount(level[y], y, table, textureSize);
      MappedCellsSnoc(level[..y], level[y], table);
      assert level[..y] + [level[y]] == level;
    }
  }

  // ---------------------------------------------------------------- replaceObject

  /** The type of the tapped sprite: SpriteType.AIR, or any other type. */
  datatype SpriteType = Air | Other

  /** The position of the sprite a layer holds. */
  datatype LayerSprite = LayerSprite(posX: int, posY: int)

  /** A layer under the tap; its sprite may be absent. */
  datatype Layer = Layer(sprite: Option<LayerSprite>)

  /** The tap event: the tapped object's id, the layers under the tap (each possibly null), and its type. */
  datatype ClickEvent = ClickEvent(objID: string, layers: seq<Option<Layer>>, spriteType: SpriteType)

  /** The Stone block that replaces the tapped object, sized textureSize on both sides. */
  function StoneSprite(at: LayerSprite, textureSize: int): Sprite
  {
    Sprite(PositionId(at.posX, at.posY), StoneImg, at.posX, at.posY, Some(textureSize), Some(textureSize))
  }

  /** The sprite of the first layer, when the event is not AIR and there is one. */
  function TappedSprite(event: ClickEvent): Option<LayerSprite>
  {
    if event.spriteType == Air then None
    else if event.layers == [] || event.layers[0].None? then None
    else event.layers[0].value.sprite
  }

  /** The canvas objects after replaceObject. */
  function AfterReplace(objects: seq<Sprite>, event: ClickEvent, textureSize: int): seq<Sprite>
  {
    match TappedSprite(event)
    case None => objects
    case Some(at) => Without(objects, event.objID) + [StoneSprite(at, textureSize)]
  }

  /**
   * A tap on AIR, on nothing, or on a layer without a sprite leaves the
   * canvas as it was; otherwise the objects are the old ones less every
   * object with the tapped id, then the Stone block, placed where the
   * layer's sprite is.
   */
  lemma ReplaceOutcome(objects: seq<Sprite>, event: ClickEvent, textureSize: int)
    ensures var r := AfterReplace(objects, event, textureSize);
      && (event.spriteType == Air ==> r == objects)
      && (event.layers == [] || event.layers[0] == None || event.layers[0].value.sprite == None ==> r == objects)
      && (TappedSprite(event).Some? ==>
            && |r| >= 1
            && r[|r| - 1] == StoneSprite(TappedSprite(event).value, textureSize)
            && r[|r| - 1].posX == TappedSprite(event).value.posX
            && r[|r| - 1].posY == TappedSprite(event).value.posY
            && r[|r| - 1].width == Some(textureSize) && r[|r| - 1].height == Some(textureSize)
            && r[..|r| - 1] == Without(objects, event.objID)
            && (forall s :: s in r[..|r| - 1] <==> s in objects && s.objID != event.objID))
  {
    match TappedSprite(event)
    case None =>
    case Some(at) =>
      var r := AfterReplace(objects, event, textureSize);
      assert r[..|r| - 1] == Without(objects, event.objID);
  }

  /**
   * After a replacement no object keeps the tapped id, unless the Stone
   * block's position id happens to equal it.
   */
  lemma ReplacedIdGone(objects: seq<Sprite>, event: ClickEvent, textureSize: int)
    requires TappedSprite(event).Some?
    ensures forall s :: s in AfterReplace(objects, event, textureSize) && s.objID == event.objID ==>
      s == StoneSprite(TappedSprite(event).value, textureSize)
  {
    var r := AfterReplace(objects, event, textureSize);
    var stone := StoneSprite(TappedSprite(event).value, textureSize);
    assert r == Without(objects, event.objID) + [stone];
  }

  /** The position id differs from the tapped id when the tapped object was, say, a grass block. */
  lemma ReplacementIdCanDiffer()
    ensures var event := ClickEvent("block-3:0-0", [Some(Layer(Some(LayerSprite(0, 0))))], Other);
      var r := AfterReplace([], event, 16);
      r == [Sprite("x-0,y-0", StoneImg, 0, 0, Some(16), Some(16))]
  {
    TemplateOfFour("x-", 0, ",y-", 0);
    assert DigitChar(0) == '0';
    assert IntToString(0) == "0";
    assert PositionId(0, 0) == "x-0,y-0";
  }

  class LevelGenerator {
    const textureMap: TextureTable
    const textureSize: int
    const canvasScreen: Canvas

    /** A missing texture table becomes the empty table; the texture size defaults to 16. */
    constructor(canvasScreen: Canvas, textureMap: Option<TextureTable>, textureSize: int := 16)
      ensures this.canvasScreen == canvasScreen && this.textureSize == textureSize
      ensures this.textureMap == (if textureMap.Some? then textureMap.value else map[])
    {
      this.textureMap := match textureMap case Some(t) => t case None => map[];
      this.textureSize := textureSize;
      this.canvasScreen := canvasScreen;
    }

    /** loadLevel: register the sprites of every row in turn, each row by its own length. */
    method LoadLevel(level: seq<seq<int>> := [])
      modifies canvasScreen
      ensures canvasScreen.objects == old(canvasScreen.objects) + LevelSprites(level, textureMap, textureSize)
    {
      for y := 0 to |level|
        invariant canvasScreen.objects == old(canvasScreen.objects) + LevelSprites(level[..y], textureMap, textureSize)
      {
        LoadRow(level[y], y);
        assert level[..y + 1][..y] == level[..y];
      }
      assert level[..|level|] == level;
    }

    /** The inner loop of loadLevel: register the sprite of every mapped cell of row y, left to right. */
    method LoadRow(row: seq<int>, y: nat)
      modifies canvasScreen
      ensures canvasScreen.objects == old(canvasScreen.objects) + RowSprites(row, y, textureMap, textureSize)
    {
      for x := 0 to |row|
        invariant canvasScreen.objects == old(canvasScreen.objects) + RowSprites(row[..x], y, textureMap, textureSize)
      {
        var posX := x * textureSize;
        var posY := y * textureSize;
        var texture := if row[x] in textureMap then textureMap[row[x]] else None;
        assert row[..x + 1][..x] == row[..x];
        if texture.None? {
          continue;
        }
        var sprite := Sprite(PositionId(posX, posY), texture.value, posX, posY, None, None);
        canvasScreen.RegisterObject(sprite);
        SnocAssoc(old(canvasScreen.objects), RowSprites(row[..x], y, textureMap, textureSize), sprite);
      }
      assert row[..|row|] == row;
    }

    /** replaceObject: after the guards, unregister the tapped id and register a Stone block in its place. */
    method ReplaceObject(event: ClickEvent, canvasScreen: Canvas)
      modifies canvasScreen
      ensures canvasScreen.objects == AfterReplace(old(canvasScreen.objects), event, textureSize)
    {
      if event.spriteType == Air {
        return;
      }
      if event.layers == [] || event.layers[0].None? || event.layers[0].value.sprite.None? {
        return;
      }
      var layer := event.layers[0].value;
      canvasScreen.UnregisterObject(event.objID);
      var at := layer.sprite.value;
      var newSprite := Sprite(PositionId(at.posX, at.posY), StoneImg, at.posX, at.posY, Some(textureSize), Some(textureSize));
      canvasScreen.RegisterObject(newSprite);
    }
  }
}
