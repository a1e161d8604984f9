/**
 * The drawing library's side of the core, reduced to what the generators use:
 * image assets, sprite records and a canvas that keeps registered sprites.
 * The library itself is not part of this model; the canvas here keeps its
 * objects in registration order and `UnregisterObject` drops every object
 * with the given id.
 */
module Scene {
  import opened Wrappers

  /** The six terrain textures of src/materials/Terrain.js. */
  datatype Terrain = Ocean | Sea | Beach | Plains | Forrest | Mountain

  /** Image assets: the block textures of src/materials/Blocks.js and src/contants/TextureMap.js, and the terrain textures. */
  datatype Image =
    | CobblestoneImg        // blocks/cobblestone.png
    | DirtImg               // blocks/dirt_2.png
    | GrassImg              // blocks/grass_2.png, Blocks.Grass
    | GrassTileImg          // blocks/grass_1.png, TextureMap code 3
    | StoneImg              // blocks/stone_2.png, Blocks.Stone
    | TerrainImg(kind: Terrain)

  /** Blocks.Grass.id */
  const GrassId: nat := 3

  /**
   * A sprite as the core builds it: id, image source, position, and the size
   * when the caller sets one (None leaves the library's default).
   */
  datatype Sprite = Sprite(objID: string, image: Image, posX: int, posY: int, width: Option<int>, height: Option<int>)

  /** The objects of `objs` whose id is not `id`, in their original order. */
  function Without(objs: seq<Sprite>, id: string): (r: seq<Sprite>)
    ensures forall s :: s in r <==> s in objs && s.objID != id
    ensures |r| <= |objs|
  {
    if objs == [] then []
    else if objs[0].objID == id then Without(objs[1..], id)
    else [objs[0]] + Without(objs[1..], id)
  }

  /**
   * Removal works element by element: the survivors of a concatenation are
   * the survivors of each part, in the same order.
   */
  lemma {:induction false} WithoutAppend(a: seq<Sprite>, b: seq<Sprite>, id: string)
    ensures Without(a + b, id) == Without(a, id) + Without(b, id)
  {
    if a == [] {
      assert a + b == b;
    } else {
      assert (a + b)[1..] == a[1..] + b;
      WithoutAppend(a[1..], b, id);
    }
  }

  class Canvas {
    var objects: seq<Sprite>

    constructor()
      ensures objects == []
    {
      objects := [];
    }

    method RegisterObject(s: Sprite)
      modifies this
      ensures objects == old(objects) + [s]
    {
      objects := objects + [s];
    }

    method UnregisterObject(id: string)
      modifies this
      ensures objects == Without(old(objects), id)
    {
      objects := Without(objects, id);
    }
  }
}
