/** A terrain tile of the world (ext/world/Terrain.hpp): the rectangle it covers and the height
    its heightmap gives at a world position. */
module Terrains {
  import opened Prelude
  import opened Drawing

  /** The identity of a `Canvas2D` object; `Terrain::canvas()` is the `canvas` field. */
  type CanvasId = nat

  /** `Terrain`, reduced to what position queries read: `CONFIG.origin`, `mSize`,
      `CONFIG.scaleHeight`, the heightmap buffer (`pHeightMap`, possibly null) and the canvas
      drawn over the terrain (`pDirtCanvas`, possibly null). */
  datatype Terrain = Terrain(
    origin: Vec2,
    size: Vec2,
    scaleHeight: real,
    heightMap: Option<PixelGrid>,
    canvas: Option<CanvasId>)

  /** A terrain whose heightmap, if any, is a well-formed buffer. */
  predicate ValidTerrain(t: Terrain) {
    t.heightMap.Some? ==> WellFormed(t.heightMap.value)
  }

  /** `Terrain::contains`: the world position's x and z lie in the terrain's rectangle, edges
      included. The world's z axis runs along the terrain's second coordinate. */
  predicate Contains(t: Terrain, pos: Vec3): (b: bool)
    ensures b <==> 0.0 <= pos.x - t.origin.x <= t.size.x && 0.0 <= pos.z - t.origin.y <= t.size.y
  {
    pos.x >= t.origin.x && pos.z >= t.origin.y && pos.x <= t.origin.x + t.size.x && pos.z <= t.origin.y + t.size.y
  }

  /** Both the origin corner and the far corner belong to a terrain of non-negative size, at any
      height: the rectangle is closed. */
  lemma {:induction false} CornersContained(t: Terrain, h: real)
    requires t.size.x >= 0.0 && t.size.y >= 0.0
    ensures Contains(t, Vec3(t.origin.x, h, t.origin.y))
    ensures Contains(t, Vec3(t.origin.x + t.size.x, h, t.origin.y + t.size.y))
  {
  }

  /** The heightmap's red channel at a world position: `getPixel` at the offsets from the
      origin, each converted to `int` by truncation. Outside the buffer it reads `Pixel(0)`. */
  function HeightSample(heightMap: PixelGrid, t: Terrain, pos: Vec3): (red: byte)
    requires WellFormed(heightMap)
    ensures !InBounds(heightMap.width, heightMap.height, Trunc(pos.x - t.origin.x), Trunc(pos.z - t.origin.y)) ==> red == 0
  {
    GridPixel(heightMap, Trunc(pos.x - t.origin.x), Trunc(pos.z - t.origin.y)).r
  }

  /** `Terrain::getHeight`: zero without a heightmap; otherwise the red channel of the sample,
      scaled from [0, 255] to [0, `scaleHeight` × 1000]. */
  function TerrainHeight(t: Terrain, pos: Vec3): (h: real)
    requires ValidTerrain(t)
    ensures t.heightMap.None? ==> h == 0.0
    ensures t.scaleHeight >= 0.0 ==> 0.0 <= h <= t.scaleHeight * 1000.0
  {
    if t.heightMap.Some? then
      var red := HeightSample(t.heightMap.value, t, pos);
      HeightInRange(t.scaleHeight, red);
      ScaledHeight(t.scaleHeight, red as real)
    else 0.0
  }

  /** `scaleHeight * 1000 * red / 255`. */
  function ScaledHeight(scaleHeight: real, red: real): real {
    scaleHeight * 1000.0 * red / 255.0
  }

  lemma {:induction false} ByteAsReal(red: byte)
    ensures 0.0 <= red as real <= 255.0
  {
  }

  lemma {:induction false} ScaledHeightBetween(scaleHeight: real, red: real)
    requires scaleHeight >= 0.0 && 0.0 <= red <= 255.0
    ensures 0.0 <= ScaledHeight(scaleHeight, red) <= scaleHeight * 1000.0
  {
    var top := scaleHeight * 1000.0;
    assert top >= 0.0;
    assert top * red <= top * 255.0;
  }

  lemma {:induction false} HeightInRange(scaleHeight: real, red: byte)
    ensures scaleHeight >= 0.0 ==> 0.0 <= ScaledHeight(scaleHeight, red as real) <= scaleHeight * 1000.0
  {
    if scaleHeight >= 0.0 {
      ByteAsReal(red);
      ScaledHeightBetween(scaleHeight, red as real);
    }
  }

  /** A sample outside the heightmap buffer gives height zero, because `getPixel` answers
      `Pixel(0)` there. */
  lemma {:induction false} OutsideHeightMapIsGround(t: Terrain, pos: Vec3)
    requires ValidTerrain(t) && t.heightMap.Some?
    requires !InBounds(t.heightMap.value.width, t.heightMap.value.height,
                       Trunc(pos.x - t.origin.x), Trunc(pos.z - t.origin.y))
    ensures TerrainHeight(t, pos) == 0.0
  {
    assert HeightSample(t.heightMap.value, t, pos) == 0;
  }

  /** A full red sample gives the full height `scaleHeight` × 1000. */
  lemma {:induction false} FullRedIsTop(t: Terrain, pos: Vec3)
    requires ValidTerrain(t) && t.heightMap.Some? && HeightSample(t.heightMap.value, t, pos) == 255
    ensures TerrainHeight(t, pos) == t.scaleHeight * 1000.0
  {
    ScaledHeightTimes255(t.scaleHeight, 255.0);
  }

  /** With a heightmap, the height is proportional to the sampled red channel: 255 parts of
      height are `scaleHeight` × 1000 parts of red. */
  lemma {:induction false} HeightFromRed(t: Terrain, pos: Vec3)
    requires ValidTerrain(t) && t.heightMap.Some?
    ensures TerrainHeight(t, pos) * 255.0 == t.scaleHeight * 1000.0 * HeightSample(t.heightMap.value, t, pos) as real
  {
    var red := HeightSample(t.heightMap.value, t, pos) as real;
    ScaledHeightTimes255(t.scaleHeight, red);
  }

  lemma {:induction false} ScaledHeightTimes255(scaleHeight: real, red: real)
    ensures ScaledHeight(scaleHeight, red) * 255.0 == scaleHeight * 1000.0 * red
  {
  }
}
