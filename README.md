# PlatformGame2D core, modelled in Dafny

This project models the four engines behind the PlatformGame2D browser game and proves properties of them:

- **MapGeneratorV2** (`TerrainGenerator`, `TerrainNoise`, `SeededRng`, `JsNumbers`, `JsStrings`): seeded terrain generation. It covers:
  - the string-to-seed rolling hash, modelled with JavaScript's int32 shift semantics;
  - the linear congruential generator, with the xor start state and the truncating `%`;
  - the grid of generator draws;
  - the smoothstep sampler;
  - the multi-octave noise sum with parameter clamping;
  - the min/max scan and the inverse-lerp normalisation;
  - the threshold cascade that turns heights into terrain tiles on the canvas.
- **PlayerHandler** (`PlayerMovement`): a tap sets a target, and each tick moves the player one unit towards it. The player is then pushed out of overlapping colliders, first along x and then along y, in collider-list order.
- **MapGenerator** (`FlatWorld`): a flat world of Grass blocks, appended row by row to a list that is never cleared, then registered on the canvas.
- **LevelGenerator** (`LevelLoader`): a level is a grid of texture codes whose rows may differ in length. Every code the texture table maps to an image becomes a sprite. Tapping a sprite replaces it with a Stone block.

The drawing library is reduced to what the engines use (`Scene`):
- sprites are records;
- the canvas is a class that holds its objects as a sequence;
- `registerObject` appends;
- `unregisterObject` removes every object with the given id.

Classes whose fields the source updates in place are Dafny classes. Each method is proved against a function of its inputs and old state, and the properties are lemmas about those functions.

Integers are unbounded `int`, and JavaScript's int32 operations are written out: ToInt32, the 32-bit xor and the truncating `%`. Generator values stay exact in a JavaScript double: the largest intermediate, a * state + c with |state| < 2^32, is below 1664525 * 2^32 + 1013904223, about 7.15 * 10^15 or 0.79 * 2^53, so it is still below 2^53. Noise heights and the player and collider positions are `real`; sprite positions are `int`.

Sprite ids are built with template literals. `JsStrings.Template` models them: it renders text parts and integer parts in order, with integers written in decimal as `${n}` writes them.

The comment in `createLCGRNG` says the draws lie in [0, 1]. The code can give negative draws when the seed's int32 value is negative (not always: a start state in [-609, -1] steps to a non-negative state at once), and the model follows the code:
- `SeededRng.NegativeSeedString` gives a seed string that leads to a negative start state;
- `SeededRng.NegativeStateDrawsNegative` proves that every state at or below -610 draws a value at or below zero, and one in [-3189, -610] a strictly negative value;
- `SeededRng.SixAFirstDrawNegative` follows "aaaaaa" through: start state -1424758163, next state -1065465624, so the very first draw is negative.

## Model

| member | source | states |
|---|---|---|
| JsNumbers.ToInt32 | src/handlers/MapGenerator_v2.js:23 | the operand of `<< 5` becomes a signed 32-bit value congruent to it modulo 2^32, and int32 values are left as they are |
| JsNumbers.ToUint32 | src/handlers/MapGenerator_v2.js:34 | the operand of `^` as an unsigned 32-bit value, below 2^32 and congruent to it modulo 2^32 |
| JsNumbers.BitXor | src/handlers/MapGenerator_v2.js:34 | the bitwise xor of the low n bits, bit by bit from the least significant, below 2^n; XorKeepsSign states what it keeps |
| JsNumbers.Xor32 | src/handlers/MapGenerator_v2.js:34 | `seed ^ a` is a signed 32-bit value |
| JsNumbers.XorKeepsSign | src/handlers/MapGenerator_v2.js:34 | xor with the non-negative multiplier keeps the sign of the seed's int32 value |
| JsNumbers.JsRem | src/handlers/MapGenerator_v2.js:37 | JS `%` by m stays strictly between -m and m, takes the dividend's sign, and is the identity on values already in (-m, m) |
| JsNumbers.JsRemCongruent | src/handlers/MapGenerator_v2.js:37 | the truncating remainder by 2^32 is congruent to the dividend modulo 2^32 |
| SeededRng.SeedStep | src/handlers/MapGenerator_v2.js:23 | one turn of the hash loop is congruent to 31 * hash + code unit modulo 2^32 |
| SeededRng.PolyHashIsSum | src/handlers/MapGenerator_v2.js:20-26 | the Horner form of the hash equals the sum of c_i * 31^(n-1-i) |
| SeededRng.SeedOf | src/handlers/MapGenerator_v2.js:20-26 | the hash of a string is the hash step applied to each code unit in turn, from 0; SeedOfIsPolyHash and SeedOfIsPolySum state what it computes |
| SeededRng.SeedOfIsPolyHash | src/handlers/MapGenerator_v2.js:20-26 | the loop's result is congruent to the polynomial hash modulo 2^32 for every string |
| SeededRng.StringToSeed | src/handlers/MapGenerator_v2.js:20-26 | the loop returns the seed of the whole string, the left-to-right fold of the hash step |
| SeededRng.SeedOfIsPolySum | src/handlers/MapGenerator_v2.js:20-26 | the seed of every string is congruent modulo 2^32 to the sum of its code units times powers of 31 |
| SeededRng.SeedsOfRepeatedA | src/handlers/MapGenerator_v2.js:20-26 | "aaaaaa" hashes to -1425372064 and "aaaaaaa" to 3058106369 |
| SeededRng.SeedCanLeaveInt32 | src/handlers/MapGenerator_v2.js:20-26 | the result need not be a signed 32-bit value |
| SeededRng.InitState | src/handlers/MapGenerator_v2.js:34 | the start state is ToInt32(seed) xor 1664525, a signed 32-bit value that `% m` leaves unchanged |
| SeededRng.InitStateSign | src/handlers/MapGenerator_v2.js:34 | the start state is negative exactly when the seed's int32 value is |
| SeededRng.NextState | src/handlers/MapGenerator_v2.js:37 | each step keeps the state strictly inside (-2^32, 2^32) and congruent to a * state + c modulo 2^32, with the sign of a * state + c |
| SeededRng.Draw | src/handlers/MapGenerator_v2.js:38 | a draw is the state divided by 2^32; DrawBounds states its range and sign |
| SeededRng.StateAfter | src/handlers/MapGenerator_v2.js:36-39 | the state after n calls of the closure, each one step of NextState; StateAfterAdd states how runs compose |
| SeededRng.StateAfterAdd | src/handlers/MapGenerator_v2.js:36-39 | m steps and then n more steps reach the state m + n steps from the start |
| SeededRng.DrawBounds | src/handlers/MapGenerator_v2.js:38 | a draw lies strictly inside (-1, 1) and is non-negative exactly when the state is |
| SeededRng.NonNegativeStaysNonNegative | src/handlers/MapGenerator_v2.js:34-39 | from a non-negative start every later state is non-negative, and below 2^32 after the first step |
| SeededRng.NonNegativeSeedDrawsInUnitInterval | src/handlers/MapGenerator_v2.js:34-39 | when the seed's int32 value is non-negative, every draw lies in [0, 1) |
| SeededRng.NegativeSeedString | src/handlers/MapGenerator_v2.js:34 | the seed string "aaaaaa" gives a negative start state |
| SeededRng.NegativeStateDrawsNegative | src/handlers/MapGenerator_v2.js:37-38 | a state at or below -610 draws a value at or below 0, and a strictly negative one down to -3189, contrary to the "[0, 1]" comment |
| SeededRng.Lcg.constructor | src/handlers/MapGenerator_v2.js:29-34 | the captured state starts at the seed's start state |
| SeededRng.Lcg.Next | src/handlers/MapGenerator_v2.js:36-39 | one call advances the state by one step and returns the new state divided by 2^32 |
| SeededRng.SixAFirstDrawNegative | src/handlers/MapGenerator_v2.js:20-38 | the seed string "aaaaaa" starts at state -1424758163, steps to -1065465624, and so draws a strictly negative first value |
| SeededRng.Draws | src/handlers/MapGenerator_v2.js:46-50 | n calls return draws 1 .. n after the current state, in order, and advance the generator n steps |
| SeededRng.SameSeedSameDraws | src/handlers/MapGenerator_v2.js:29-40 | two generators from the same seed string yield the same draws, the i-th being the draw of the i-th state after the start |
| TerrainGenerator.MapGeneratorV2.CreatePerlinNoise | src/handlers/MapGenerator_v2.js:43-53 | the grid has `w` columns of `h` cells, cell [i][j] holds draw number i*h + j + 1, and the generator has advanced w*h steps |
| TerrainGenerator.ColumnShift | src/handlers/MapGenerator_v2.js:45-51 | a column drawn after i*h earlier draws holds draws i*h + 1 .. i*h + h of the start state |
| TerrainNoise.PerlinGridIsGrid | src/handlers/MapGenerator_v2.js:43-53 | a grid of draws has `width` columns of `height` cells |
| TerrainGenerator.PerlinGridUnique | src/handlers/MapGenerator_v2.js:43-53 | the grid is determined by the start state and the dimensions |
| TerrainNoise.PerlinGridInUnitInterval | src/handlers/MapGenerator_v2.js:43-53 | a grid drawn from a non-negative state holds values in [0, 1) |
| TerrainGenerator.MapGeneratorV2.constructor | src/handlers/MapGenerator_v2.js:5-17 | the seed is the string's hash, the noise map is empty, and the grid is the width by height grid of draws from the seed's start state |
| TerrainNoise.Smoothstep | src/handlers/MapGenerator_v2.js:56-58 | maps [0, 1] into [0, 1], with 0 at 0 and 1 at 1 |
| TerrainNoise.SmoothstepInUnitInterval | src/handlers/MapGenerator_v2.js:56-58 | the polynomial t*t*(3 - 2t) stays in [0, 1] on [0, 1] |
| TerrainNoise.SmoothstepSymmetric | src/handlers/MapGenerator_v2.js:56-58 | smoothstep(1 - t) = 1 - smoothstep(t) |
| TerrainNoise.Sample | src/handlers/MapGenerator_v2.js:61-65 | with natural coordinates, the sample lies in [-1, 1] whenever the stored cell lies in [0, 1] |
| TerrainNoise.SamplePeriodic | src/handlers/MapGenerator_v2.js:62 | the sampler repeats with period width along x and height along y |
| TerrainNoise.InverseLerp | src/handlers/MapGenerator_v2.js:67-73 | gives 0 when a = b; otherwise it inverts the lerp: a + r(b - a) = v |
| TerrainNoise.InverseLerpEnds | src/handlers/MapGenerator_v2.js:67-73 | a maps to 0 and, when a != b, b maps to 1 |
| TerrainNoise.InverseLerpInUnitInterval | src/handlers/MapGenerator_v2.js:67-73 | for a < b and a <= v <= b the result lies in [0, 1] |
| TerrainNoise.ClampParams | src/handlers/MapGenerator_v2.js:81-85 | scale <= 0 becomes 0.001, lacunarity below 1 becomes exactly 1, octaves below 0 becomes 1 while 0 stays 0, persistance below 0 becomes 0 and above 1 becomes 1, and in-range values are kept |
| TerrainGenerator.WholeCoordinate | src/handlers/MapGenerator_v2.js:98-99 | when 1/scale and the lacunarity are whole, the sampling coordinate x/scale*frequency is the natural x * (1/scale) * lacunarity^i |
| TerrainGenerator.FrequencyStep | src/handlers/MapGenerator_v2.js:105 | multiplying frequency lacunarity^i by the lacunarity gives lacunarity^(i+1) |
| TerrainGenerator.OctaveCoords | src/handlers/MapGenerator_v2.js:98-101 | in octave i the loop samples the grid at the natural coordinates SampleCoord(x, p, i) and SampleCoord(y, p, i) |
| TerrainNoise.OctaveSum | src/handlers/MapGenerator_v2.js:93-106 | the height of a cell after n octaves, the sum of sample_i * persistance^i at coordinates scaled by lacunarity^i; OctaveStep and OctaveNoise relate it to the loop |
| TerrainGenerator.OctaveStep | src/handlers/MapGenerator_v2.js:101-102 | adding octave i's sample times persistance^i to the sum of octaves 0 .. i-1 gives the sum of octaves 0 .. i |
| TerrainGenerator.MapGeneratorV2.NextOctave | src/handlers/MapGenerator_v2.js:104-105 | the amplitude goes from persistance^i to persistance^(i+1) and the frequency from lacunarity^i to lacunarity^(i+1) |
| TerrainGenerator.MapGeneratorV2.OctaveNoise | src/handlers/MapGenerator_v2.js:93-106 | the octave loop returns the sum over octaves of sample * persistance^i at coordinates scaled by lacunarity^i |
| TerrainNoise.RawNoiseMap | src/handlers/MapGenerator_v2.js:90-118 | the first pass yields height rows of width octave sums |
| TerrainNoise.ScanMax | src/handlers/MapGenerator_v2.js:109-111 | the running max starts at -Infinity, stays there only for no cells, and is otherwise a cell that no cell exceeds |
| TerrainNoise.ScanMin | src/handlers/MapGenerator_v2.js:112-114 | the running min starts at +Infinity, stays there only for no cells, and is otherwise a cell no cell is below |
| TerrainGenerator.ScanSnoc | src/handlers/MapGenerator_v2.js:109-114 | one more cell replaces the max only when strictly greater and the min only when strictly smaller |
| TerrainGenerator.TrackExtremes | src/handlers/MapGenerator_v2.js:109-114 | the running max and min over the cells seen become those over the cells seen plus the new height |
| TerrainGenerator.MapGeneratorV2.ScanRow | src/handlers/MapGenerator_v2.js:92-117 | the inner loop yields the row of octave sums and carries the running max and min over it |
| TerrainGenerator.MapGeneratorV2.RawPass | src/handlers/MapGenerator_v2.js:87-118 | the first pass yields the raw map with the max and min of all its cells |
| TerrainNoise.CellWithinScan | src/handlers/MapGenerator_v2.js:108-114 | after the first pass, min <= every cell <= max, both finite |
| TerrainNoise.Normalized | src/handlers/MapGenerator_v2.js:121-126 | normalisation keeps the shape of the map |
| TerrainGenerator.MapGeneratorV2.NormalizeRow | src/handlers/MapGenerator_v2.js:122-125 | each cell of the row becomes inverseLerp(min, max, cell) |
| TerrainGenerator.MapGeneratorV2.NormalizePass | src/handlers/MapGenerator_v2.js:121-126 | given the max and min of all raw cells, the second pass yields the normalised map |
| TerrainNoise.NormalizedInUnitInterval | src/handlers/MapGenerator_v2.js:121-126 | after normalisation every cell lies in [0, 1] |
| TerrainNoise.NormalizedDegenerate | src/handlers/MapGenerator_v2.js:121-126 | when min equals max every normalised cell is 0 |
| TerrainNoise.NormalizedReachesBothEnds | src/handlers/MapGenerator_v2.js:121-126 | when min < max some cell normalises to 0 and some cell to 1 |
| TerrainNoise.ZeroOctavesGiveZeroMap | src/handlers/MapGenerator_v2.js:83-97 | octaves = 0 survives the clamping and yields an all-zero map |
| TerrainGenerator.MapGeneratorV2.GenerateNoiseMap | src/handlers/MapGenerator_v2.js:75-129 | the noise map is replaced wholesale by the normalised octave-sum map of the clamped parameters |
| TerrainNoise.Classify | src/handlers/MapGenerator_v2.js:138-151 | a first-match `<=` cascade: each band includes its upper bound, Plains is never chosen, and heights above 1 keep the Ocean default |
| TerrainGenerator.TileId | src/handlers/MapGenerator_v2.js:160 | the id of cell (x, y): x, a dash, y, a space, a vertical bar, a space, and the formatted height, built with Template |
| TerrainGenerator.TileSprite | src/handlers/MapGenerator_v2.js:159-165 | the record createSprite makes for cell (x, y): that id, the terrain image of the height's class, at (16x, 16y), with no size; TileAt states where it lands |
| TerrainGenerator.MapGeneratorV2.CreateSprite | src/handlers/MapGenerator_v2.js:158-168 | registers one sprite, whose id is the cell coordinates followed by the height label, at (16x, 16y) showing the given terrain |
| TerrainGenerator.MapGeneratorV2.RegisterRow | src/handlers/MapGenerator_v2.js:135-154 | the inner loop registers the tiles of row y, left to right |
| TerrainGenerator.MapGeneratorV2.RegisterTiles | src/handlers/MapGenerator_v2.js:134-155 | the classification loops append the tiles of every cell, row by row, to the canvas |
| TerrainGenerator.MapGeneratorV2.GenerateMap | src/handlers/MapGenerator_v2.js:131-156 | builds the noise map with (5, 0.5, 2) and appends the tiles of every cell in row-major order to the canvas |
| TerrainGenerator.TileRows | src/handlers/MapGenerator_v2.js:134-155 | there is one tile per cell: height rows of width tiles |
| TerrainGenerator.TilesCount | src/handlers/MapGenerator_v2.js:134-155 | generateMap registers exactly height*width tiles |
| TerrainGenerator.TileAt | src/handlers/MapGenerator_v2.js:134-168 | the tile at offset y*width + x stands at (16x, 16y) with the terrain of cell (x, y) |
| PlayerMovement.PlayerHandler.constructor | src/handlers/PlayerHandler.js:5-13 | no colliders, no target, and a fresh player at the given position |
| PlayerMovement.PlayerSprite.constructor | src/handlers/PlayerHandler.js:20-26 | the player starts at the given position with the given size |
| PlayerMovement.PlayerHandler.AddColliders | src/handlers/PlayerHandler.js:32-34 | the new colliders follow the old ones in order, and nothing else changes |
| PlayerMovement.PlayerHandler.HandleScreenTapEvent | src/handlers/PlayerHandler.js:36-39 | the tap position becomes the target, whatever it was |
| PlayerMovement.PlayerHandler.UpdatePlayer | src/handlers/PlayerHandler.js:41-68 | with no target nothing changes; within speed of the target the target is cleared and the player stays; otherwise the target stays, x moves and is resolved horizontally, then y moves and is resolved vertically against the new x |
| PlayerMovement.MoveVector | src/handlers/PlayerHandler.js:58-60 | along each axis the step points towards the target, and distance times the step is speed times the offset |
| PlayerMovement.Overlaps | src/handlers/PlayerHandler.js:76-80 | the four strict comparisons of the collision test between the player box and a collider |
| PlayerMovement.OverlapsOn | src/handlers/PlayerHandler.js:99-103 | the same test with the axis named: position and size along it, position and size across it; OverlapsOnEitherAxis ties it to Overlaps |
| PlayerMovement.OverlapsOnEitherAxis | src/handlers/PlayerHandler.js:76-80 | both collision checks test the same strict box overlap |
| PlayerMovement.TouchingIsNotOverlapping | src/handlers/PlayerHandler.js:77-80 | boxes that only touch edges do not overlap |
| PlayerMovement.Push | src/handlers/PlayerHandler.js:82-88 | the corrected coordinate puts the player wholly on one side of the collider, an exact centre tie goes behind it, and the value is x - player.width or x + width |
| PlayerMovement.PushClearsOverlap | src/handlers/PlayerHandler.js:76-88 | after a correction the player no longer overlaps that collider |
| PlayerMovement.Resolve | src/handlers/PlayerHandler.js:73-90 | the final coordinate is the starting one or a push value of some collider |
| PlayerMovement.ResolveSnoc | src/handlers/PlayerHandler.js:73-90 | each collider is tested against the position the earlier ones left |
| PlayerMovement.NoOverlapNoChange | src/handlers/PlayerHandler.js:73-90 | when no collider overlaps, the coordinate is unchanged |
| PlayerMovement.LastOverlapWins | src/handlers/PlayerHandler.js:73-90 | the last collider that overlaps at its turn decides the result |
| PlayerMovement.LaterPushOverridesEarlier | src/handlers/PlayerHandler.js:73-90 | a later correction can push the player back into an earlier collider |
| PlayerMovement.PlayerHandler.CheckForHorizontalCollision | src/handlers/PlayerHandler.js:70-91 | posX becomes the horizontal resolution over all colliders, and posY is unchanged |
| PlayerMovement.PlayerHandler.CheckForVerticalCollision | src/handlers/PlayerHandler.js:93-114 | posY becomes the vertical resolution over all colliders, and posX is unchanged |
| FlatWorld.MapGenerator.constructor | src/handlers/MapGenerator.js:5-10 | defaults 5, 5 and 16, with no blocks |
| FlatWorld.MapGenerator.GetSize | src/handlers/MapGenerator.js:12-14 | for non-negative dimensions, width*height is the number of blocks one generate call emits |
| FlatWorld.GrassBlockId | src/handlers/MapGenerator.js:23 | the id `block-${Blocks.Grass.id}:${x}-${y}` of cell (x, y), with Grass's id 3; GrassBlockIdText and GrassBlockIdInjective state its form |
| FlatWorld.GrassBlock | src/handlers/MapGenerator.js:22-28 | the block of cell (x, y): that id, the Grass image, at (x*blockSize, y*blockSize), with no size |
| FlatWorld.GrassRows | src/handlers/MapGenerator.js:19-28 | the layout has height rows of width blocks, or none for a negative dimension |
| FlatWorld.GrassCount | src/handlers/MapGenerator.js:19-31 | one call emits height*width blocks |
| FlatWorld.GrassCellAt | src/handlers/MapGenerator.js:19-28 | the block at offset y*width + x is the Grass block of cell (x, y), at (x*blockSize, y*blockSize) |
| FlatWorld.GrassBlockAt | src/handlers/MapGenerator.js:19-28 | the block at offset i is the Grass block of cell (i mod width, i div width) |
| FlatWorld.GrassIdAt | src/handlers/MapGenerator.js:19-28 | the id at offset i is the id of cell (i mod width, i div width) |
| FlatWorld.GrassBlockIdText | src/handlers/MapGenerator.js:23 | the id is `block-3:`, the digits of x, a dash and the digits of y |
| FlatWorld.GrassBlockIdInjective | src/handlers/MapGenerator.js:23 | different cells get different `block-3:x-y` ids |
| FlatWorld.GrassIdsDistinct | src/handlers/MapGenerator.js:19-31 | any two blocks of one generate call have different ids |
| FlatWorld.MapGenerator.Generate | src/handlers/MapGenerator.js:16-33 | appends the row-major Grass layout and keeps the earlier blocks |
| FlatWorld.MapGenerator.GenerateRow | src/handlers/MapGenerator.js:20-31 | the inner loop appends the Grass blocks of row y, left to right |
| FlatWorld.GenerateTwice | src/handlers/MapGenerator.js:16-33 | two generate calls leave twice width*height blocks |
| FlatWorld.MapGenerator.LoadWorld | src/handlers/MapGenerator.js:39-41 | registers the blocks in list order and leaves the list unchanged |
| Scene.Without | src/handlers/LevelGenerator.js:49 | an object survives exactly when it was present and its id differs from the removed id, and there are no more survivors than objects |
| Scene.WithoutAppend | src/handlers/LevelGenerator.js:49 | the survivors of a concatenation are the survivors of each part, in the same order, so removal keeps the order of the rest |
| Scene.Canvas.RegisterObject | src/handlers/LevelGenerator.js:36 | the sprite is appended to the canvas objects |
| Scene.Canvas.UnregisterObject | src/handlers/LevelGenerator.js:49 | the objects become Without(old objects, id): exactly the objects with the given id are removed, and WithoutAppend gives the order of the rest |
| LevelLoader.LevelGenerator.constructor | src/handlers/LevelGenerator.js:5-8 | a missing texture table becomes the empty table; the texture size defaults to 16 |
| JsStrings.IntToString | src/handlers/LevelGenerator.js:29 | `${n}` of an integer is non-empty, made of digits and '-', and starts with '-' exactly when n is negative |
| JsStrings.Template | src/handlers/LevelGenerator.js:29 | a template literal renders its parts in order, a number as IntToString; TemplateTextNumber spells this out |
| JsStrings.TemplateTextNumber | src/handlers/LevelGenerator.js:29 | a template literal renders its text, then the decimal digits of the interpolated number, then the rest |
| JsStrings.IntToStringInjective | src/handlers/LevelGenerator.js:29 | distinct integers render as distinct decimal strings |
| LevelLoader.PositionId | src/handlers/LevelGenerator.js:29 | the id `x-${posX},y-${posY}` loadLevel and replaceObject (line 51) give a position; PositionIdInjective states that it identifies the position |
| LevelLoader.PositionIdInjective | src/handlers/LevelGenerator.js:29 | two positions with the same `x-posX,y-posY` id are the same position |
| LevelLoader.CellIdsDistinct | src/handlers/LevelGenerator.js:20-34 | with a non-zero texture size, the sprites of two different cells get different ids |
| LevelLoader.CellSprite | src/handlers/LevelGenerator.js:20-34 | the sprite loadLevel builds for cell (x, y): id PositionId(x*size, y*size), the mapped image, at (x*size, y*size), with no size |
| LevelLoader.Texture | src/handlers/LevelGenerator.js:24-26 | a code's image is its table entry; a missing code, like a null entry, yields no image and the cell is skipped |
| LevelLoader.RowSprites | src/handlers/LevelGenerator.js:17-37 | the sprites of one row, left to right; RowSpritesMember and RowSpritesCount state which and how many |
| LevelLoader.LevelSprites | src/handlers/LevelGenerator.js:15-39 | the sprites of a level, row after row; LevelSpritesMember and LevelSpritesCount state which and how many |
| LevelLoader.RowSpritesSound | src/handlers/LevelGenerator.js:17-37 | every sprite of a row is the sprite of a mapped cell of that row |
| LevelLoader.RowSpritesComplete | src/handlers/LevelGenerator.js:17-37 | the sprite of every mapped cell of a row is among the row's sprites |
| LevelLoader.RowSpritesMember | src/handlers/LevelGenerator.js:17-37 | a sprite comes from a row if and only if it is the sprite of a mapped cell of that row |
| LevelLoader.LevelSpritesSound | src/handlers/LevelGenerator.js:15-39 | every registered sprite is the sprite of a mapped cell |
| LevelLoader.LevelSpritesComplete | src/handlers/LevelGenerator.js:15-39 | the sprite of every mapped cell is registered |
| LevelLoader.LevelSpritesMember | src/handlers/LevelGenerator.js:16-38 | a sprite is registered if and only if it is the sprite of a mapped cell (x, y), at (x*size, y*size) with id `x-posX,y-posY`; each row uses its own length |
| LevelLoader.RowSpritesCount | src/handlers/LevelGenerator.js:17-37 | a row yields as many sprites as it has mapped cells |
| LevelLoader.LevelSpritesCount | src/handlers/LevelGenerator.js:15-39 | the number registered equals the number of mapped cells, so an empty level registers nothing |
| LevelLoader.LevelGenerator.LoadLevel | src/handlers/LevelGenerator.js:15-39 | appends the sprites of the mapped cells, row by row, to the canvas |
| LevelLoader.LevelGenerator.LoadRow | src/handlers/LevelGenerator.js:17-37 | the inner loop appends the sprites of the mapped cells of row y, left to right |
| LevelLoader.StoneSprite | src/handlers/LevelGenerator.js:50-58 | the replacement block: id PositionId of the layer sprite's position, the Stone image, at that position, textureSize wide and high |
| LevelLoader.TappedSprite | src/handlers/LevelGenerator.js:42-47 | the first layer's sprite, or nothing for an AIR tap, no first layer or a layer without a sprite; ReplaceOutcome states the effect |
| LevelLoader.AfterReplace | src/handlers/LevelGenerator.js:44-59 | the canvas objects after a tap: unchanged without a tapped sprite, else Without the tapped id followed by the Stone block; ReplaceOutcome states its shape |
| LevelLoader.ReplaceOutcome | src/handlers/LevelGenerator.js:44-59 | AIR, a missing first layer or a layer without a sprite change nothing; otherwise the objects before the last are Without(objects, tapped id), so the tapped id is gone and the others keep their order, and a Stone block of size textureSize is last, at the layer sprite's position |
| LevelLoader.ReplacedIdGone | src/handlers/LevelGenerator.js:49-59 | after a replacement only the Stone block can carry the tapped id |
| LevelLoader.ReplacementIdCanDiffer | src/handlers/LevelGenerator.js:49-51 | the Stone block's position id can differ from the tapped id |
| LevelLoader.LevelGenerator.ReplaceObject | src/handlers/LevelGenerator.js:41-62 | the canvas objects become the replacement outcome of the event |

## Left out

- IEEE double rounding in smoothstep, the octave sum, inverseLerp, the movement step and the collision arithmetic: every such value is `real`.
- TerrainNoise.WholeSampling: the sampling coordinate `x / scale * frequency` is exact in `real`. In IEEE doubles it is exact for the usual scales 0.5, 0.1, 0.01 and 0.001 at coordinates below 2000 and power-of-two frequencies, but not for every scale whose inverse is whole: 1 / (1/49) evaluates to 49.00000000000001, and the source then indexes `undefined`.
- TerrainGenerator.MapGeneratorV2.GenerateNoiseMap: requires 1/scale and the lacunarity, after clamping, to be whole numbers, so that every sampling coordinate is a natural number. This excludes inputs the source handles without a fractional sample: with octaves 0 no sample is taken, with octaves 1 the lacunarity never enters a sample, and with width and height 1 every coordinate is 0. Where a sampled `sampleX` is fractional, `this.perlinNoise[x % this.width]` is `undefined` and indexing it throws a TypeError (src/handlers/MapGenerator_v2.js:62), so generateNoiseMap aborts at that cell. Where `sampleX` is whole and `sampleY` fractional, the sample is `undefined`, smoothstep yields NaN and the heights become NaN. None of these cases is modelled.
- TerrainGenerator.MapGeneratorV2.GenerateMap: carries the same whole-number requirement, for scale with lacunarity 2.
- TerrainNoise.Sample: takes natural coordinates only, for the same reason.
- SeededRng.StringToSeed: takes the seed as UTF-16 code units. A non-string seed is not modelled. The hash is exact only while it stays below 2^53, which needs a string of millions of characters to break.
- `toFixed(2)` in generateMap is the parameter `fixed`, and the sprite labels are built with it.
- `console.log` in replaceObject is not modelled.
- The sprite `name` field is not modelled. loadLevel, replaceObject and createSprite set it to the image; generate sets it to the block name "Grass". The player's animation `frames` are not modelled either.
- PlayerMovement.PlayerHandler.constructor: loadPlayer's registration of the player sprite, and its image, are not modelled. The player's size, which the library takes from the image, is a constructor parameter.
- The timer (`setInterval`) and the tap-event hookups in the PlayerHandler and LevelGenerator constructors are not modelled. The event handlers are methods called directly.
- PlayerMovement.PlayerHandler.UpdatePlayer: `Math.sqrt` is the parameter `distance`, required to be the non-negative root of dx² + dy².
- PlayerMovement.MoveVector: does not state that the step has length `speed`. Only its direction and its scaling by `distance` are stated.
- The drawing library is not part of this model. The model takes its registry to keep objects in registration order, and unregistering to remove every object with the id.
- LevelLoader.LevelGenerator.LoadLevel: codes are looked up as integer keys. JavaScript's string-keyed object lookup of inherited properties is not modelled, and neither are image paths that are empty strings. A mapped image is always truthy.
- The model assumes a canvas is present. With a null canvas the LevelGenerator constructor skips the event hookup, and loadLevel throws at the first mapped cell, where it calls `registerObject` on the missing canvas (src/handlers/LevelGenerator.js:36).
- FlatWorld.MapGenerator.GetSize: relates the product to the generated blocks only when neither dimension is negative. A negative dimension makes generate emit nothing, while getSize still returns the product.
- Dimensions are integers, so fractional widths or heights are not modelled.
- TerrainGenerator.MapGeneratorV2.constructor: width and height are natural numbers. A negative dimension, for which every loop of createPerlinNoise, generateNoiseMap and generateMap runs zero times as for zero, is not modelled.
- LevelLoader.LevelGenerator.ReplaceObject: the tapped layer sprite's position is an integer. The player moves in fractional steps, and a fractional posX or posY, which `${}` prints with a decimal point, is not modelled.
- Blending between regions, player facing, and clearing the target after a collision are not modelled, because the source has no code for them.
