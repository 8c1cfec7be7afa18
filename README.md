# PixFu core, modelled in Dafny

PixFu is a small C++ game engine: a software pixel buffer, a platform layer with extensions and
input devices, and a 3D "world" extension with terrains, balls that collide, splines that
describe a racing track, and a camera. Most of its headers only declare; this model covers the
logic whose body is written inline in the headers, one Dafny module per header:

| module | file | header |
|---|---|---|
| `Prelude` | `prelude.dfy` | C++ conversions shared by all headers, glm vectors, the C math library |
| `Drawing` | `drawable.dfy` | `include/core/Drawable.hpp`: `Pixel`, `Pixel::scale`, `Drawable` |
| `Splines` | `splines.dfy` | `ext/world/Splines.hpp`: `sPoint2D`, `NearCheckpoints_t`, `sSpline` |
| `Balls` | `balls.dfy` | `ext/world/Ball.hpp`: `Ball`'s inline members, `LinearDelayer` |
| `WorldMeta` | `worldmeta.dfy` | `ext/world/WorldMeta.hpp`: object properties, `ObjectDb`, object IDs |
| `Terrains` | `terrain.dfy` | `ext/world/Terrain.hpp`: `contains`, `getHeight` |
| `Worlds` | `world.dfy` | `include/ext/world/World.hpp`: terrain queries, `add` by OID |
| `LineSegments` | `linesegment.dfy` | `ext/world/LineSegment.hpp` |
| `WalkableLines` | `walkableline.dfy` | `ext/world/WalkableLine.hpp` |
| `Players` | `playerfeatures.dfy` | `include/ext/world/PlayerFeatures.hpp` |
| `Cameras` | `camera.dfy` | `ext/world/Camera.hpp`: mode flags, angles, positions |
| `Engine` | `fu.dfy` | `include/core/Fu.hpp`: root path, extension and input-device lists |

Conventions of the model:

- `float` is `real`. `sqrt`, `glm::fastSqrt`, `sinf`, `cosf` and `atan2` are the fields of a
  `Libm` value passed as a parameter, so nothing is assumed about their values. Where a
  property needs square roots of non-negative numbers to be non-negative, it says so with
  `RootsNonNegative`.
- A float converted to `int` is truncated toward zero (`Trunc`). An `int` compared with, or
  reduced modulo, `std::vector::size()` is first converted to `size_t` (`ToSizeT`, modulo
  2^64). `unsigned` and `int` convert into each other modulo 2^32 (`ToUnsigned`, `ToSigned`).
- A thrown `std::out_of_range` (`at()` on a vector or map) is an `Err` result or a `false`
  answer. Undefined behaviour the code can reach only by misuse (a looped spline with no
  points, `canvas()` on a world without terrains) is a precondition.
- An object the source updates in place is a class with `modifies` clauses. Its promises are
  stated against value-level functions (`GridSet`, `InsertAfter`, `DeleteAt`, `DbInsert`,
  `Scaled`, `Translated`, `Rotated`), and the lemmas are proved about those functions.
- A plain accessor that returns a field is the field itself. This covers `getAngle`,
  `getLength`, `screenWidth`, `screenHeight`, `getPitch`/`getYaw`/`getRoll` and the
  `PlayerFeatures` accessors.
- Engine objects held by pointer become identities or values: a terrain's canvas is a
  `CanvasId`, extensions and input devices are `ExtensionId` and `InputDeviceId`, and the
  camera's `CONFIG` pointer is the configuration value it points to.

Two behaviours the proofs make explicit:

- `toggleTargetMode` does not cancel a running configuration animation, unlike
  `setTargetMode`. After `setConfig(c, true)` with `c.target` false and one toggle, the
  camera is both animating and in target mode (`Cameras.ToggleDuringAnimation`).
- On a spline that is not looped, `p0` is never clamped from above. All four control indices
  are valid exactly when the truncated parameter lies in [-1, size)
  (`Splines.OpenIndicesInRange`). `IsInTrack` guarantees this.

## Model

| member | source | states |
|---|---|---|
| Prelude.Trunc | template/PixFuTemplate/PixFu.Framework/Versions/A/Headers/ext/world/Splines.hpp:143 | a float converted to int is truncated toward zero: the integer lies within one of the value, on the side of zero |
| Prelude.ToSizeT | template/PixFuTemplate/PixFu.Framework/Versions/A/Headers/ext/world/Splines.hpp:148-150 | an int compared with `size()` is taken modulo 2^64: unchanged when non-negative, plus 2^64 when negative |
| Prelude.ToUnsigned | template/PixFuTemplate/PixFu.Framework/Versions/A/Headers/ext/world/Splines.hpp:120 | an int converted to `unsigned` for the `point != index` test lies below 2^32 and is unchanged when already in range |
| Prelude.ToSigned | template/PixFuTemplate/PixFu.Framework/Versions/A/Headers/ext/world/Splines.hpp:125 | storing an unsigned index into an int and converting it back gives the index again |
| Prelude.DivideThenScale | build/Debug/PixFu.framework/Versions/A/Headers/ext/world/Camera.hpp:390-392 | dividing a vector by 1000 and multiplying it back is the identity |
| Drawing.ToWord | include/core/Drawable.hpp:22-30 | the 32-bit word sharing storage with a pixel has `r` as its low byte and `a` as its high byte |
| Drawing.FromWord | include/core/Drawable.hpp:40 | `Pixel(n)` is the pixel whose storage word is `n` |
| Drawing.WordRoundTrip | include/core/Drawable.hpp:22-43 | reading a pixel's channels back through its word gives the same pixel |
| Drawing.TransparentBlack | include/core/Drawable.hpp:180 | `Pixel(0)` has all four channels zero |
| Drawing.CastToByte | include/core/Drawable.hpp:47-49 | `static_cast<uint8_t>` of a value in (-1, 256) truncates it toward zero |
| Drawing.ChannelDims | include/core/Drawable.hpp:47-49 | a channel scaled by a factor in [0, 1] does not grow |
| Drawing.Scale | include/core/Drawable.hpp:45-52 | `Pixel::scale` keeps alpha, and a factor in [0, 1] brightens no colour channel |
| Drawing.ScaleByOne | include/core/Drawable.hpp:45-52 | scaling by 1 returns the same pixel |
| Drawing.CellIndex | include/core/Drawable.hpp:169 | for a column inside the row, the cell divided by the width gives the row and its remainder the column |
| Drawing.CellIndexInRange | include/core/Drawable.hpp:168-169 | an in-bounds (x, y) addresses a cell inside the width × height buffer |
| Drawing.CellIndexInjective | include/core/Drawable.hpp:169 | two distinct in-bounds coordinates never share a cell |
| Drawing.GridPixel | include/core/Drawable.hpp:179-182 | `getPixel` on buffer contents: the cell `y*width+x` in bounds, `Pixel(0)` outside |
| Drawing.GridSet | include/core/Drawable.hpp:166-170 | `setPixel` on buffer contents: in bounds exactly cell `y*width+x` becomes `p`; every other cell, and every cell on an out-of-range write, is unchanged |
| Drawing.GetAfterSet | include/core/Drawable.hpp:166-182 | reading back an in-bounds write gives the written pixel |
| Drawing.GetAfterSetElsewhere | include/core/Drawable.hpp:166-182 | a write does not change what any other coordinate reads |
| Drawing.SetOutsideIsNoOp | include/core/Drawable.hpp:168 | an out-of-range write leaves the buffer contents unchanged |
| Drawing.Drawable.SetPixel | include/core/Drawable.hpp:166-170 | sets `dirty` even when the write is dropped, and leaves the array equal to `GridSet` of its old contents |
| Drawing.Drawable.GetPixel | include/core/Drawable.hpp:179-182 | the array cell `y*width+x` in bounds, `Pixel(0)` outside |
| Drawing.Drawable.ClearDirty | include/core/Drawable.hpp:172-177 | returns the previous dirty flag and leaves the buffer clean |
| Drawing.ClearDirtyTwice | include/core/Drawable.hpp:172-177 | a second `clearDirty` right after the first returns false |
| Splines.Translate | template/PixFuTemplate/PixFu.Framework/Versions/A/Headers/ext/world/Splines.hpp:35-38 | `translate` moves the point by `where` and keeps its segment length |
| Splines.Translated | template/PixFuTemplate/PixFu.Framework/Versions/A/Headers/ext/world/Splines.hpp:56-58 | `translated` moves the point by `where`, and the copy's length is zero |
| Splines.Scaled | template/PixFuTemplate/PixFu.Framework/Versions/A/Headers/ext/world/Splines.hpp:60-62 | `scaled` has length zero, and scaling by 1 keeps the position |
| Splines.TranslateRoundTrip | template/PixFuTemplate/PixFu.Framework/Versions/A/Headers/ext/world/Splines.hpp:35-38 | translating by `w` and then by `-w` restores the point, length included |
| Splines.TranslatedIsTranslateWithoutLength | template/PixFuTemplate/PixFu.Framework/Versions/A/Headers/ext/world/Splines.hpp:35-58 | `translated` is `translate` with the length dropped |
| Splines.PointDistance | template/PixFuTemplate/PixFu.Framework/Versions/A/Headers/ext/world/Splines.hpp:108-110 | two points with equal coordinates are at distance `sqrt(0)`, whatever their `length` fields |
| Splines.PointDistanceSymmetric | template/PixFuTemplate/PixFu.Framework/Versions/A/Headers/ext/world/Splines.hpp:108-110 | the checkpoint distance is symmetric, and non-negative when `sqrt` is |
| Splines.Midpoint | template/PixFuTemplate/PixFu.Framework/Versions/A/Headers/ext/world/Splines.hpp:244 | the interpolated point is equidistant per coordinate from both neighbours and has length zero |
| Splines.InsertAfter | template/PixFuTemplate/PixFu.Framework/Versions/A/Headers/ext/world/Splines.hpp:252 | inserting after `i` grows the list by one, puts `p` at `i+1`, keeps elements up to `i`, and shifts the rest right by one |
| Splines.DeleteAt | template/PixFuTemplate/PixFu.Framework/Versions/A/Headers/ext/world/Splines.hpp:261 | erasing `i` shrinks the list by one, keeps elements before `i`, and shifts the rest left by one |
| Splines.DeleteUndoesInsert | template/PixFuTemplate/PixFu.Framework/Versions/A/Headers/ext/world/Splines.hpp:250-264 | deleting the point just inserted gives back the list |
| Splines.InsertUndoesDelete | template/PixFuTemplate/PixFu.Framework/Versions/A/Headers/ext/world/Splines.hpp:250-264 | inserting a deleted point back after its predecessor gives back the list |
| Splines.ClampToLast | template/PixFuTemplate/PixFu.Framework/Versions/A/Headers/ext/world/Splines.hpp:148-150 | the clamp keeps an index that addresses a point and sets any index whose `size_t` value is past the end to `size - 1`; within 32-bit ints that is every negative index and every index from `size` on, and every result addresses a point |
| Splines.OpenIndices | template/PixFuTemplate/PixFu.Framework/Versions/A/Headers/ext/world/Splines.hpp:142-151 | for a spline that is not looped, `p0` is only raised from -1 to 0, and `p1`..`p3` are `(int)t + 1..3` each clamped to `size - 1`, so they are always in range |
| Splines.LoopedIndices | template/PixFuTemplate/PixFu.Framework/Versions/A/Headers/ext/world/Splines.hpp:153-158 | for a looped spline, all four indices are in range, `p2` and `p3` are cyclic successors, `p0` is the cyclic predecessor of `p1`, and `p1 == (int)t % size` for non-negative `t` |
| Splines.CyclicPredecessor | template/PixFuTemplate/PixFu.Framework/Versions/A/Headers/ext/world/Splines.hpp:157 | the chosen `p0` is in range and its cyclic successor is `p1` |
| Splines.OpenIndicesInRange | template/PixFuTemplate/PixFu.Framework/Versions/A/Headers/ext/world/Splines.hpp:142-151 | for a spline that is not looped, all four indices are valid iff the truncated parameter is in [-1, size) |
| Splines.OpenInTrackMeaning | template/PixFuTemplate/PixFu.Framework/Versions/A/Headers/ext/world/Splines.hpp:81-86 | the unsigned test `(int)t + 1 < size` holds iff the truncated parameter is in [-1, size-1), and then every control index is valid |
| Splines.NearCheckpoints.constructor | template/PixFuTemplate/PixFu.Framework/Versions/A/Headers/ext/world/Splines.hpp:65-71 | the tracker starts not near, with wrong-way count 0 and no distance |
| Splines.StepWrongway | template/PixFuTemplate/PixFu.Framework/Versions/A/Headers/ext/world/Splines.hpp:120-132 | progress decrements the counter down to 0, no progress increments it up to 100, and [0, 100] is preserved |
| Splines.StepWrongwayN | template/PixFuTemplate/PixFu.Framework/Versions/A/Headers/ext/world/Splines.hpp:129-131 | after at least one step without progress the counter is at most 100, and from a counter in [0, 100] it never goes down |
| Splines.StepWrongwayNBound | template/PixFuTemplate/PixFu.Framework/Versions/A/Headers/ext/world/Splines.hpp:130-131 | `n > 0` steps without progress from `w >= 0` give `min(w + n, 100)` |
| Splines.WrongwaySaturates | template/PixFuTemplate/PixFu.Framework/Versions/A/Headers/ext/world/Splines.hpp:130-131 | 100 or more steps without progress pin the counter at 100 |
| Splines.Spline.constructor | template/PixFuTemplate/PixFu.Framework/Versions/A/Headers/ext/world/Splines.hpp:74-77 | a new spline has no points and is looped |
| Splines.Spline.IsInTrack | template/PixFuTemplate/PixFu.Framework/Versions/A/Headers/ext/world/Splines.hpp:79-89 | always true when looped; otherwise, within 32-bit ints, true iff the truncated parameter is in [-1, size-1) |
| Splines.Spline.SplineIndices | template/PixFuTemplate/PixFu.Framework/Versions/A/Headers/ext/world/Splines.hpp:140-158 | the control indices of `GetSplinePoint` address points when the spline is looped, or when `IsInTrack(t)` holds |
| Splines.Spline.GetControlPoint | template/PixFuTemplate/PixFu.Framework/Versions/A/Headers/ext/world/Splines.hpp:91-93 | the point at `index` when it exists, an `out_of_range` error otherwise |
| Splines.Spline.InsertPoint | template/PixFuTemplate/PixFu.Framework/Versions/A/Headers/ext/world/Splines.hpp:250-257 | for `i < size`, inserts `p` after point `i` and returns its position `i+1`; otherwise returns nothing and changes nothing |
| Splines.Spline.InsertPointInterpolating | template/PixFuTemplate/PixFu.Framework/Versions/A/Headers/ext/world/Splines.hpp:240-248 | returns true iff `i < size`, and then inserts the midpoint of point `i` and point `(i+1) % size` after `i` |
| Splines.Spline.DeletePoint | template/PixFuTemplate/PixFu.Framework/Versions/A/Headers/ext/world/Splines.hpp:259-264 | for `0 <= i < size`, removes exactly point `i`; any other `i` changes nothing |
| Splines.Spline.NearControlPoint | template/PixFuTemplate/PixFu.Framework/Versions/A/Headers/ext/world/Splines.hpp:105-138 | fails without touching the tracker when `index` is past the end; otherwise steps the wrong-way counter, records the distance and checkpoint on progress (so `point == index` as unsigned), and sets `near` and `rawPoint` |
| Balls.BallScales.SetBaseScale | build/Debug/PixFu.framework/Versions/A/Headers/ext/world/Ball.hpp:331 | sets the shared base scale only |
| Balls.BallScales.SetHeightScale | build/Debug/PixFu.framework/Versions/A/Headers/ext/world/Ball.hpp:333 | sets the shared height scale only |
| Balls.Ball.constructor | build/Debug/PixFu.framework/Versions/A/Headers/ext/world/Ball.hpp:85-104 | the member initialisers: zero vectors, multipliers 1, outer radius 0, not flying |
| Balls.Ball.Mass | build/Debug/PixFu.framework/Versions/A/Headers/ext/world/Ball.hpp:306 | the mass is positive for a positive configured mass and multiplier, and the configured mass under multiplier 1 |
| Balls.Ball.Radius | build/Debug/PixFu.framework/Versions/A/Headers/ext/world/Ball.hpp:307 | the radius is the configured radius times (multiplier + animator), so the configured radius without animation at multiplier 1 |
| Balls.Ball.OuterRadius | build/Debug/PixFu.framework/Versions/A/Headers/ext/world/Ball.hpp:308 | the outer radius exceeds the radius by `(fOuterRadius - CONFIG.radius) × multiplier`: the animator term is shared |
| Balls.Ball.Speed | build/Debug/PixFu.framework/Versions/A/Headers/ext/world/Ball.hpp:311-313 | the speed is non-negative when `fastSqrt` is |
| Balls.Ball.Velocity | build/Debug/PixFu.framework/Versions/A/Headers/ext/world/Ball.hpp:314 | the velocity is the full speed vector, vertical component included |
| Balls.Ball.Distance | build/Debug/PixFu.framework/Versions/A/Headers/ext/world/Ball.hpp:325-329 | the distance is non-negative when `fastSqrt` is |
| Balls.Ball.SetMassMultiplier | build/Debug/PixFu.framework/Versions/A/Headers/ext/world/Ball.hpp:320 | stores the multiplier unscaled, so the mass becomes the configured mass times it; nothing else changes |
| Balls.Ball.SetRadiusMultiplier | build/Debug/PixFu.framework/Versions/A/Headers/ext/world/Ball.hpp:322 | stores the multiplier times the shared base scale; nothing else changes |
| Balls.OuterRadiusCoversRadius | build/Debug/PixFu.framework/Versions/A/Headers/ext/world/Ball.hpp:307-308 | the outer radius is at least the radius when `fOuterRadius >= CONFIG.radius` and the multiplier is non-negative |
| Balls.DistanceSymmetric | build/Debug/PixFu.framework/Versions/A/Headers/ext/world/Ball.hpp:325-329 | the distance between two balls is symmetric |
| Balls.DistanceIgnoresHeight | build/Debug/PixFu.framework/Versions/A/Headers/ext/world/Ball.hpp:325-329 | the distance depends on x and z only: two balls that differ only in height are at the same distance from any third ball |
| Balls.SpeedIgnoresVertical | build/Debug/PixFu.framework/Versions/A/Headers/ext/world/Ball.hpp:311-313 | velocities differing only in y give the same speed |
| Balls.SetRadiusMultiplierUnscaled | build/Debug/PixFu.framework/Versions/A/Headers/ext/world/Ball.hpp:322 | with base scale 1 the multiplier is stored as given, and the radius of an unanimated ball is the configured radius times it |
| Balls.LinearDelayer.constructor | build/Debug/PixFu.framework/Versions/A/Headers/ext/world/Ball.hpp:354 | only the increment is set |
| Balls.LinearDelayer.SetTarget | build/Debug/PixFu.framework/Versions/A/Headers/ext/world/Ball.hpp:356-360 | records the target; forced, the current value jumps to it, otherwise it is unchanged |
| Balls.LinearDelayer.Get | build/Debug/PixFu.framework/Versions/A/Headers/ext/world/Ball.hpp:362 | returns the current value |
| Balls.LinearDelayer.IsStable | build/Debug/PixFu.framework/Versions/A/Headers/ext/world/Ball.hpp:364 | stable iff the current value equals the target |
| Balls.SetTargetThenRead | build/Debug/PixFu.framework/Versions/A/Headers/ext/world/Ball.hpp:356-364 | after a forced `setTarget(t)`, `get() == t` and the delayer is stable; unforced, `get()` is unchanged and it is stable iff that value already was `t` |
| WorldMeta.DefaultProperties | build/Debug/PixFu.framework/Versions/A/Headers/ext/world/WorldMeta.hpp:159-196 | the initialisers of `ObjectProperties_t`: radius 1, mass 1, elasticity 0.8, crash efficiency 0.75, not static, draw multiplier 1 |
| WorldMeta.DbInsert | build/Debug/PixFu.framework/Versions/A/Headers/ext/world/WorldMeta.hpp:232-234 | after `insert`, the code is present and holds the old entry if it had one, else the new one; no other key changes |
| WorldMeta.DbGet | build/Debug/PixFu.framework/Versions/A/Headers/ext/world/WorldMeta.hpp:237-239 | `get` succeeds iff the OID is present, with the stored entry |
| WorldMeta.GetAfterInsertFresh | build/Debug/PixFu.framework/Versions/A/Headers/ext/world/WorldMeta.hpp:232-239 | inserting under a fresh code, then getting it, yields the inserted pair |
| WorldMeta.InsertKeepsExisting | build/Debug/PixFu.framework/Versions/A/Headers/ext/world/WorldMeta.hpp:232-234 | inserting under a present code leaves the database unchanged |
| WorldMeta.FirstInsertWins | build/Debug/PixFu.framework/Versions/A/Headers/ext/world/WorldMeta.hpp:232-239 | a second insert under the same code does not change what it reads as |
| WorldMeta.ObjectDb.Insert | build/Debug/PixFu.framework/Versions/A/Headers/ext/world/WorldMeta.hpp:232-234 | the database becomes `DbInsert` of the old one |
| WorldMeta.ObjectDb.Get | build/Debug/PixFu.framework/Versions/A/Headers/ext/world/WorldMeta.hpp:237-239 | the result is `DbGet`: an error exactly for an absent OID |
| WorldMeta.AssignId | build/Debug/PixFu.framework/Versions/A/Headers/ext/world/WorldMeta.hpp:296 | an override `>= 0` is the ID and the counter stays; otherwise the ID is the counter, which then grows by one |
| WorldMeta.AssignIds | build/Debug/PixFu.framework/Versions/A/Headers/ext/world/WorldMeta.hpp:296 | one ID per object constructed in sequence |
| WorldMeta.AutomaticIdsIncrease | build/Debug/PixFu.framework/Versions/A/Headers/ext/world/WorldMeta.hpp:296 | automatic IDs lie between the starting and final counter, and later ones are strictly larger, so they are distinct |
| WorldMeta.CounterAfter | build/Debug/PixFu.framework/Versions/A/Headers/ext/world/WorldMeta.hpp:296 | the counter advances by exactly one for every object constructed without an override ID |
| WorldMeta.CounterNeverDecreases | build/Debug/PixFu.framework/Versions/A/Headers/ext/world/WorldMeta.hpp:296 | constructing objects never lowers the instance counter |
| WorldMeta.OverriddenIdsKept | build/Debug/PixFu.framework/Versions/A/Headers/ext/world/WorldMeta.hpp:296 | every object given an override gets exactly that ID |
| WorldMeta.DrawRadius | build/Debug/PixFu.framework/Versions/A/Headers/ext/world/WorldMeta.hpp:362 | a thousand times the draw radius is the radius times the draw multiplier |
| WorldMeta.WorldObject.constructor | build/Debug/PixFu.framework/Versions/A/Headers/ext/world/WorldMeta.hpp:293-297 | the ID follows `AssignId` and the shared counter advances only for an automatic ID; class name, config and location come from the arguments |
| WorldMeta.WorldObject.Radius | build/Debug/PixFu.framework/Versions/A/Headers/ext/world/WorldMeta.hpp:360 | the configured collision radius |
| WorldMeta.WorldObject.GetDrawRadius | build/Debug/PixFu.framework/Versions/A/Headers/ext/world/WorldMeta.hpp:362 | a thousand times the draw radius is `radius()` times the draw multiplier |
| Terrains.Contains | template/PixFuTemplate/PixFu.Framework/Versions/A/Headers/ext/world/Terrain.hpp:74-79 | contained iff the offset of x and z from the origin lies within the size, edges included; the height is ignored |
| Terrains.CornersContained | template/PixFuTemplate/PixFu.Framework/Versions/A/Headers/ext/world/Terrain.hpp:74-79 | both the origin and the far corner are contained: the rectangle is closed |
| Terrains.HeightSample | template/PixFuTemplate/PixFu.Framework/Versions/A/Headers/ext/world/Terrain.hpp:69 | the red channel sampled outside the heightmap buffer is 0 |
| Terrains.TerrainHeight | template/PixFuTemplate/PixFu.Framework/Versions/A/Headers/ext/world/Terrain.hpp:67-72 | 0 without a heightmap, and within [0, scaleHeight × 1000] for a non-negative scale |
| Terrains.ScaledHeightBetween | template/PixFuTemplate/PixFu.Framework/Versions/A/Headers/ext/world/Terrain.hpp:69-70 | a red value in [0, 255] scales into [0, scaleHeight × 1000] |
| Terrains.HeightInRange | template/PixFuTemplate/PixFu.Framework/Versions/A/Headers/ext/world/Terrain.hpp:69-70 | every byte's height lies in [0, scaleHeight × 1000] for a non-negative scale |
| Terrains.OutsideHeightMapIsGround | template/PixFuTemplate/PixFu.Framework/Versions/A/Headers/ext/world/Terrain.hpp:69 | sampling outside the heightmap gives height 0 |
| Terrains.FullRedIsTop | template/PixFuTemplate/PixFu.Framework/Versions/A/Headers/ext/world/Terrain.hpp:69-70 | red 255 gives the full height `scaleHeight × 1000` |
| Terrains.HeightFromRed | template/PixFuTemplate/PixFu.Framework/Versions/A/Headers/ext/world/Terrain.hpp:68-70 | with a heightmap, `255 × height == scaleHeight × 1000 × red` |
| Worlds.FirstContaining | include/ext/world/World.hpp:256-259 | the first terrain in list order containing the position, and none iff no terrain contains it |
| Worlds.GetHeight | include/ext/world/World.hpp:251-262 | with one terrain, its height without a containment test; otherwise the first containing terrain's height, and 0 when none contains the position |
| Worlds.HasTerrain | include/ext/world/World.hpp:268-278 | true iff some terrain contains the position, the single-terrain case included |
| Worlds.CanvasAt | include/ext/world/World.hpp:280-291 | with one terrain, its canvas wherever the position is; otherwise the canvas (possibly null) of the first terrain in list order that contains the position, and null when none does |
| Worlds.FirstCanvas | include/ext/world/World.hpp:293-295 | the first terrain's canvas |
| Worlds.SingleTerrainCanvas | include/ext/world/World.hpp:282-295 | in a one-terrain world both `canvas` overloads agree |
| Worlds.FirstMatchWins | include/ext/world/World.hpp:256-259 | with several terrains, the height is that of a containing terrain preceded by none that contains the position |
| Worlds.OutsideAllTerrains | include/ext/world/World.hpp:253-261 | outside every terrain the height is 0, except in a one-terrain world |
| Worlds.AddFromDbAt | include/ext/world/World.hpp:297-300 | `add(oid, location, h)` uses the stored properties with the caller's location, and fails iff the OID is unknown |
| Worlds.AddFromDb | include/ext/world/World.hpp:302-305 | `add(oid, h)` uses the stored properties and the stored location, and fails iff the OID is unknown |
| Worlds.PresetLocationOverload | include/ext/world/World.hpp:297-305 | adding by OID is adding by OID at the stored location, and both fail on the same OIDs |
| WalkableLines.LineLength | template/PixFuTemplate/PixFu.Framework/Versions/A/Headers/ext/world/WalkableLine.hpp:21 | the length is the same measured from either end |
| WalkableLines.LineLengthNonNegative | template/PixFuTemplate/PixFu.Framework/Versions/A/Headers/ext/world/WalkableLine.hpp:21 | the length is non-negative when `sqrt` is |
| WalkableLines.DegenerateLine | template/PixFuTemplate/PixFu.Framework/Versions/A/Headers/ext/world/WalkableLine.hpp:21 | a line from a point to itself has length `sqrt(0)` |
| WalkableLines.WalkableLine.Calculate | template/PixFuTemplate/PixFu.Framework/Versions/A/Headers/ext/world/WalkableLine.hpp:17-22 | the angle, its sine and cosine and the length become consistent with the endpoints, which do not move |
| WalkableLines.WalkableLine.constructor | template/PixFuTemplate/PixFu.Framework/Versions/A/Headers/ext/world/WalkableLine.hpp:25-30 | a new line has the given endpoints and consistent cached values |
| WalkableLines.WalkableLine.IsInTrack | template/PixFuTemplate/PixFu.Framework/Versions/A/Headers/ext/world/WalkableLine.hpp:32-34 | in track iff strictly between 0 and the length, so only on a line of positive length |
| WalkableLines.WalkableLine.Reset | template/PixFuTemplate/PixFu.Framework/Versions/A/Headers/ext/world/WalkableLine.hpp:36-42 | returns true iff the new start differs in both coordinates, and then moves the start and recomputes; otherwise start, angle, sine, cosine and length are unchanged; the end never moves |
| WalkableLines.WalkableLine.GetPoint | template/PixFuTemplate/PixFu.Framework/Versions/A/Headers/ext/world/WalkableLine.hpp:51-53 | `getPoint(0)` is the start |
| WalkableLines.GetPointSteps | template/PixFuTemplate/PixFu.Framework/Versions/A/Headers/ext/world/WalkableLine.hpp:51-53 | points further along differ by the step times the cached direction, so they lie on one line through the start |
| WalkableLines.ResetKeepsCalculated | template/PixFuTemplate/PixFu.Framework/Versions/A/Headers/ext/world/WalkableLine.hpp:36-42 | `reset`, accepted or refused, keeps the cached values consistent, and the length non-negative |
| LineSegments.Scaled | build/Debug/PixFu.framework/Versions/A/Headers/ext/world/LineSegment.hpp:22 | `scaled` keeps the radius, is the identity at 1 and collapses the coordinates at 0 |
| LineSegments.Translated | build/Debug/PixFu.framework/Versions/A/Headers/ext/world/LineSegment.hpp:24 | `translated` moves both endpoints by (x, y) and keeps the radius and the segment's extent |
| LineSegments.TranslateRoundTrip | build/Debug/PixFu.framework/Versions/A/Headers/ext/world/LineSegment.hpp:24 | translating by (x, y) then (-x, -y) gives back the segment |
| LineSegments.TranslationsCompose | build/Debug/PixFu.framework/Versions/A/Headers/ext/world/LineSegment.hpp:24 | two translations add up |
| LineSegments.ScaleRoundTrip | build/Debug/PixFu.framework/Versions/A/Headers/ext/world/LineSegment.hpp:22 | scaling by `s != 0` then by `1/s` gives back the segment |
| LineSegments.Rotated | build/Debug/PixFu.framework/Versions/A/Headers/ext/world/LineSegment.hpp:26-30 | the rotated copy has radius 0, and rotating by cosine 1 and sine 0 keeps every endpoint |
| LineSegments.RotationKeepsNorm | build/Debug/PixFu.framework/Versions/A/Headers/ext/world/LineSegment.hpp:29 | when `c² + s² = 1`, the point rotated as `rotated` does has the same squared norm as the original |
| LineSegments.RotatedKeepsNorms | build/Debug/PixFu.framework/Versions/A/Headers/ext/world/LineSegment.hpp:26-30 | with `c² + s² = 1`, both endpoints of `rotated` keep their distance from the origin |
| LineSegments.Angle | build/Debug/PixFu.framework/Versions/A/Headers/ext/world/LineSegment.hpp:20 | a segment whose ends coincide has angle `atan2(0, 0)` |
| LineSegments.TranslateKeepsAngle | build/Debug/PixFu.framework/Versions/A/Headers/ext/world/LineSegment.hpp:20-24 | a translated segment has the same `angle()` |
| LineSegments.RotatedInPlaceAsWritten | build/Debug/PixFu.framework/Versions/A/Headers/ext/world/LineSegment.hpp:46-53 | the in-place rotation as written keeps the radius and computes `sx`, `ex` as a rotation does |
| LineSegments.AsWrittenAgreesOnX | build/Debug/PixFu.framework/Versions/A/Headers/ext/world/LineSegment.hpp:46-53 | the as-written rotation agrees with `rotated` on `sx` and `ex`, and everywhere when the sine is 0 |
| LineSegments.RotateAsWrittenCounterexample | build/Debug/PixFu.framework/Versions/A/Headers/ext/world/LineSegment.hpp:46-53 | a quarter turn of (1,0)-(0,0): `rotated` gives `sy = 1`, the in-place code gives `sy = 0` |
| LineSegments.LineSegment.Scale | build/Debug/PixFu.framework/Versions/A/Headers/ext/world/LineSegment.hpp:32-37 | in-place `scale` leaves the fields equal to `scaled` |
| LineSegments.LineSegment.Translate | build/Debug/PixFu.framework/Versions/A/Headers/ext/world/LineSegment.hpp:39-44 | in-place `translate` leaves the fields equal to `translated` |
| LineSegments.LineSegment.RotateAsWritten | build/Debug/PixFu.framework/Versions/A/Headers/ext/world/LineSegment.hpp:46-53 | in-place `rotate` as written leaves the fields equal to `RotatedInPlaceAsWritten` |
| LineSegments.LineSegment.Rotate | build/Debug/PixFu.framework/Versions/A/Headers/ext/world/LineSegment.hpp:46-53 | corrected `rotate`: the fields equal `rotated` of the old segment, with the radius kept |
| LineSegments.RotateKeepsNorms | build/Debug/PixFu.framework/Versions/A/Headers/ext/world/LineSegment.hpp:46-53 | when `cosf² + sinf² = 1` at the angle, the corrected in-place rotation keeps both endpoints' distances from the origin and the radius |
| Players.DefaultFeatures | include/ext/world/PlayerFeatures.hpp:15-35 | the initialisers of `PlayerFeatures_t`: top speed 160, reverse 50, traction 2, turn performance 0.01, scale 1, mass 1000 |
| Players.Abs | include/ext/world/PlayerFeatures.hpp:119 | `fabs`: non-negative and equal to the argument or its negation |
| Players.SpeedPercent | include/ext/world/PlayerFeatures.hpp:118-120 | at most 1, non-negative for a non-negative top speed, and `|s| / MAXSPEED` below the top speed |
| Players.SpeedPercentEven | include/ext/world/PlayerFeatures.hpp:119 | `speedPercent(-s) == speedPercent(s)` |
| Players.SpeedPercentSaturates | include/ext/world/PlayerFeatures.hpp:119 | `speedPercent(s) == 1` whenever `|s| >= MAXSPEED > 0` |
| Players.SpeedPercentMonotone | include/ext/world/PlayerFeatures.hpp:119 | a faster speed never has a lower percentage |
| Players.Traction | include/ext/world/PlayerFeatures.hpp:128 | the raw traction at the default multiplier 1, 0 at multiplier 0, non-negative for non-negative inputs |
| Players.TurnPerformance | include/ext/world/PlayerFeatures.hpp:130 | the raw turn performance at the default multiplier 1, 0 at multiplier 0, non-negative for non-negative inputs |
| Players.MultipliersAreLinear | include/ext/world/PlayerFeatures.hpp:128-130 | traction and turn performance are additive in the multiplier |
| Players.WheelBase | include/ext/world/PlayerFeatures.hpp:111-113 | ten wheel bases are seventeen radii, so the wheel base is at least the radius |
| Cameras.Preset | build/Debug/PixFu.framework/Versions/A/Headers/ext/world/Camera.hpp:72-96 | a configuration keeps the defaults: up vector (0, 1, 0) and delays 10, 15 and 5 |
| Cameras.Camera.GetPosition | build/Debug/PixFu.framework/Versions/A/Headers/ext/world/Camera.hpp:341 | the world position divided by 1000 is the stored normalized position |
| Cameras.Camera.SetPitch | build/Debug/PixFu.framework/Versions/A/Headers/ext/world/Camera.hpp:351 | only the pitch changes |
| Cameras.Camera.SetRoll | build/Debug/PixFu.framework/Versions/A/Headers/ext/world/Camera.hpp:353 | only the roll changes |
| Cameras.Camera.SetYaw | build/Debug/PixFu.framework/Versions/A/Headers/ext/world/Camera.hpp:355 | only the yaw changes |
| Cameras.Camera.SetHeight | build/Debug/PixFu.framework/Versions/A/Headers/ext/world/Camera.hpp:357 | only the y coordinate of the position changes |
| Cameras.Camera.SetX | build/Debug/PixFu.framework/Versions/A/Headers/ext/world/Camera.hpp:359 | only the x coordinate of the position changes |
| Cameras.Camera.SetZ | build/Debug/PixFu.framework/Versions/A/Headers/ext/world/Camera.hpp:361 | only the z coordinate of the position changes |
| Cameras.Camera.UpdateCameraVectors | build/Debug/PixFu.framework/Versions/A/Headers/ext/world/Camera.hpp:333-334 | every modelled field but the up vector is left as it was |
| Cameras.Camera.StepPitch | build/Debug/PixFu.framework/Versions/A/Headers/ext/world/Camera.hpp:363-366 | the pitch grows by the delta; nothing else changes except the up vector, which `updateCameraVectors` may recompute |
| Cameras.Camera.StepRoll | build/Debug/PixFu.framework/Versions/A/Headers/ext/world/Camera.hpp:368-371 | the roll grows by the delta; nothing else changes except the up vector, which `updateCameraVectors` may recompute |
| Cameras.Camera.StepYaw | build/Debug/PixFu.framework/Versions/A/Headers/ext/world/Camera.hpp:373-376 | the yaw grows by the delta; nothing else changes except the up vector, which `updateCameraVectors` may recompute |
| Cameras.Camera.Follow | build/Debug/PixFu.framework/Versions/A/Headers/ext/world/Camera.hpp:388-397 | only the target position (normalized, so ×1000 gives back the target's position) and the target yaw `-rot.y` change |
| Cameras.Camera.SetConfig | build/Debug/PixFu.framework/Versions/A/Headers/ext/world/Camera.hpp:399-418 | configuration, smooth and target flags from the configuration; animation iff not target mode and asked; without animation positions and angles jump to the configuration's, with it they stay; the modes end exclusive |
| Cameras.Camera.SetTargetMode | build/Debug/PixFu.framework/Versions/A/Headers/ext/world/Camera.hpp:425-428 | sets target mode and always cancels the configuration animation; nothing else changes |
| Cameras.Camera.ToggleTargetMode | build/Debug/PixFu.framework/Versions/A/Headers/ext/world/Camera.hpp:430 | flips target mode only |
| Cameras.ToggleTwice | build/Debug/PixFu.framework/Versions/A/Headers/ext/world/Camera.hpp:430 | toggling twice restores the camera |
| Cameras.StepYawAndBack | build/Debug/PixFu.framework/Versions/A/Headers/ext/world/Camera.hpp:373-376 | a step is undone by the opposite step, everywhere but the recomputed up vector |
| Cameras.ToggleDuringAnimation | build/Debug/PixFu.framework/Versions/A/Headers/ext/world/Camera.hpp:399-430 | toggling into target mode during a configuration animation leaves both on |
| Cameras.ConfiguredPosition | build/Debug/PixFu.framework/Versions/A/Headers/ext/world/Camera.hpp:399-418 | after `setConfig(c, false)`, `getPosition()` is `c.position` × 1000 |
| Engine.Platform.GetPath | include/core/Fu.hpp:96-98 | the root path is a prefix of the result and the rest is exactly the relative path |
| Engine.Platform.SetPath | include/core/Fu.hpp:100-103 | the root path becomes the argument |
| Engine.ResolveAfterSetPath | include/core/Fu.hpp:96-103 | after `setPath(a)`, `getPath(r) == a + r` |
| Engine.Fu.constructor | include/core/Fu.hpp:151-161 | no extensions, no input devices, a 0 × 0 screen |
| Engine.Fu.AddExtension | include/core/Fu.hpp:255 | appends the extension, keeping the earlier ones in order; nothing else changes |
| Engine.Fu.AddInputDevice | include/core/Fu.hpp:257-259 | appends the device, keeping the earlier ones in order; nothing else changes |

## Left out

- Floating point: `float` is modelled as exact real arithmetic. Rounding, infinities and NaN are not modelled; the one place where they decide a result, `speedPercent` with `MAXSPEED == 0`, is written out as `fmin` answers it.
- The C math library: `sqrt`, `fastSqrt`, `sinf`, `cosf` and `atan2` are uninterpreted. Properties of curve values, angles and lengths are proved only where they hold for any such functions.
- 32-bit integer overflow: `int` arithmetic is unbounded. `instanceCounter++`, `wrongway--` and the spline index sums are exact. The spline index lemmas carry an explicit 32-bit range hypothesis instead.
- Splines.Spline.DeletePoint: models `deletePoint(i, false)`. The default `update = true` then runs `UpdateSplineProperties`, which is not part of this model, so the segment lengths it rewrites (and, on a short spline that is not looped, the points it pads in) are not captured.
- Splines.Spline.InsertPoint: models `insertPoint(i, p, false)`, the default. With `update = true` it also runs `UpdateSplineProperties`, which is not modelled. The same holds for `Splines.Spline.InsertPointInterpolating`.
- The spline's curve numerics are not modelled: the point and gradient values of `GetSplinePoint` and `GetSplineGradient`, `GetSplineAngle`, `CalculateSegmentLength`, `GetNormalisedOffset`, `UpdateSplineProperties` and `fTotalSplineLength`. `GetSplineGradient` picks its indices without clamping, and its out-of-range reads are not modelled.
- `GetPointPosition` sums `points.at(index).length` on every turn of its loop, not `points.at(i).length`. This is not modelled.
- `sPoint2D::rotate` updates `x` before computing `y` from it, which is the same pattern as the `LineSegment_t::rotate` finding below. It is not modelled; nor are `sPoint2D::rotated`, `module` and `distance`.
- Spline file I/O and drawing (`Save`, `SaveTp`, `Load`, `LoadFrom`, `DrawSelf`, `DrawPoints`, `DrawSprite`) and `GetTotalControlPoints` (the list length) are not modelled.
- Drawing.CastToByte: `static_cast<uint8_t>` of a value outside (-1, 256) is undefined in C++. The model keeps the low eight bits of the truncated value. Only the in-range case is promised.
- `Drawable`'s constructor, `sample`, `clear`, `blank`, `fromFile` and `getData` have no body in the header and are not modelled; the constructor only allocates a buffer of the declared size. The named colour constants are not modelled.
- The ball simulation is only declared in the header, so it is not modelled: `overlaps`, `calculateOverlapDisplacement`, `makeCollisionBall`, `intersects`, `isPointInBall`, `process`, `processHeights`, `processGravity`, `commitSimulation`, the collision callbacks, `BallWorld` and `LinearDelayer::tick`. The `Overlaps_t` enum and the two step constants are kept.
- Balls.Ball.constructor: states only the member initialisers. The constructor bodies of `Ball` are not part of this model.
- `Ball::angle`, `acceleration`, `isFlying`, `pos` and `rot` return a field; they are that field.
- Balls.LinearDelayer.constructor: target and current value are uninitialised in C++, so the model promises nothing about them.
- The world's terrains are values, not the `Terrain` objects. A terrain's texture, mesh, rendering, `wireframe` and the construction of its heightmap are not modelled. `World::add(properties, location, setHeight)` is only declared, so the model stops at its arguments.
- Worlds.FirstCanvas: requires a world with a terrain, because indexing an empty `vTerrains` is undefined.
- A float-to-int conversion out of the `int` range (in `getPixel`'s arguments and in `(int) t`) is undefined in C++. The model truncates without bound.
- Camera view math is not modelled: the body of `updateCameraVectors`, the front, right and up vectors it derives, the view matrices, `update`, `inputMouse`, `inputMouseWheel`, `inputMovement`, `inputKey`, `getFrontVector` and `get3dMouse`. The `Camera` constructor's body is not part of this model, and neither are the presets `CAM_TOPVIEW` and `CAM_TOPPERS` (they use `M_PI`) or `Light`.
- Cameras.Camera.UpdateCameraVectors: promises nothing about `upVector`, because its body is not in the headers and may recompute the up vector from the front and right vectors.
- Cameras.Camera.StepPitch, Cameras.Camera.StepRoll, Cameras.Camera.StepYaw: do not promise the up vector after the step, because each ends by calling `updateCameraVectors`.
- Cameras.Camera.SetConfig: does not promise `upVector == configuration.upVector` after the call, because the assignment is followed by `updateCameraVectors`, which may recompute it.
- Cameras.Camera.Follow: takes the target's position and rotation as arguments instead of a `WorldObject` pointer. `M_PI / 2` in the overwritten assignment is written as a decimal; the value does not survive.
- `FuPlatform`'s virtual interface (`init`, `events`, `commit`, `deinit`, `onFps`, `instance`), the engine loop, `Fu::init`, `start`, `removeExtension` (declared only), `buffer`, `canvas`, `shader`, the user callbacks and the debug log line of `setPath` are platform and rendering code and are not modelled.
- Engine.Platform.SetPath: `ROOTPATH` is static; one `Platform` object stands for it.
- OpenGL and rendering classes, input devices, the demo scenes, `Meta.hpp`, `Player.hpp` and `PlayerFeatures.hpp`'s commented-out weapon code are outside the modelled core.

## Findings

| source | as written | input that shows it | evidently intended | confidence | as-written member | corrected member |
|---|---|---|---|---|---|---|
| build/Debug/PixFu.framework/Versions/A/Headers/ext/world/LineSegment.hpp:46-53 | in-place `rotate` computes `sy` from the already rotated `sx`, and `ey` from the already rotated `ex` | `c = 0`, `s = 1` (a quarter turn), segment (1, 0)-(0, 0): `rotated` gives start (0, 1), `rotate` gives start (0, 0) | rotate both endpoints about the origin as `rotated` does, keeping the radius | high; not executed | LineSegments.RotateAsWrittenCounterexample | LineSegments.LineSegment.Rotate |
