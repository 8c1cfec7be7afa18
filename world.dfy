/** The position queries and object-adding shortcuts of the world (ext/world/World.hpp). The world
    holds its terrains in a list, `vTerrains`; every query here searches that list. */
module Worlds {
  import opened Prelude
  import opened Terrains
  import opened WorldMeta

  predicate AllValid(ts: seq<Terrain>) {
    forall i :: 0 <= i < |ts| ==> ValidTerrain(ts[i])
  }

  /** The first terrain in list order that contains `pos`, if any. */
  function FirstContaining(ts: seq<Terrain>, pos: Vec3): (r: Option<nat>)
    ensures r.Some? ==> r.value < |ts| && Contains(ts[r.value], pos)
    ensures r.Some? ==> forall j :: 0 <= j < r.value ==> !Contains(ts[j], pos)
    ensures r.None? <==> forall j :: 0 <= j < |ts| ==> !Contains(ts[j], pos)
    decreases |ts|
  {
    if ts == [] then None
    else if Contains(ts[0], pos) then Some(0)
    else
      match FirstContaining(ts[1..], pos)
      case None => None
      case Some(i) => Some(i + 1)
  }

  /** `World::getHeight`: with exactly one terrain, that terrain's height without asking whether
      it contains `pos`; otherwise the height from the first terrain containing `pos`, and 0 when
      none does (an empty world included). */
  function GetHeight(ts: seq<Terrain>, pos: Vec3): (h: real)
    requires AllValid(ts)
    ensures |ts| == 1 ==> h == TerrainHeight(ts[0], pos)
    ensures |ts| != 1 && FirstContaining(ts, pos).Some? ==> h == TerrainHeight(ts[FirstContaining(ts, pos).value], pos)
    ensures |ts| != 1 && (forall j :: 0 <= j < |ts| ==> !Contains(ts[j], pos)) ==> h == 0.0
  {
    if |ts| == 1 then TerrainHeight(ts[0], pos)
    else
      match FirstContaining(ts, pos)
      case Some(i) => TerrainHeight(ts[i], pos)
      case None => 0.0
  }

  /** `World::hasTerrain`: some terrain contains `pos`. The single-terrain shortcut asks that
      terrain, which gives the same answer. */
  function HasTerrain(ts: seq<Terrain>, pos: Vec3): (b: bool)
    ensures b <==> exists j :: 0 <= j < |ts| && Contains(ts[j], pos)
  {
    if |ts| == 1 then Contains(ts[0], pos)
    else FirstContaining(ts, pos).Some?
  }

  /** `World::canvas(pos)`: with exactly one terrain, its canvas wherever `pos` is; otherwise the
      canvas of the first terrain containing `pos`, and null when none does. */
  function CanvasAt(ts: seq<Terrain>, pos: Vec3): (c: Option<CanvasId>)
    ensures |ts| == 1 ==> c == ts[0].canvas
    ensures |ts| != 1 && (forall j :: 0 <= j < |ts| ==> !Contains(ts[j], pos)) ==> c.None?
    ensures |ts| != 1 && FirstContaining(ts, pos).Some? ==> c == ts[FirstContaining(ts, pos).value].canvas
    ensures c.Some? ==> exists j :: 0 <= j < |ts| && c == ts[j].canvas
  {
    if |ts| == 1 then ts[0].canvas
    else
      match FirstContaining(ts, pos)
      case Some(i) => ts[i].canvas
      case None => None
  }

  /** `World::canvas()`: the first terrain's canvas. The world must have a terrain; indexing an
      empty `vTerrains` is undefined. */
  function FirstCanvas(ts: seq<Terrain>): (c: Option<CanvasId>)
    requires |ts| > 0
    ensures c == ts[0].canvas
  {
    ts[0].canvas
  }

  /** In a world of one terrain every position reads that terrain's canvas, the same canvas as
      `canvas()`. */
  lemma {:induction false} SingleTerrainCanvas(ts: seq<Terrain>, pos: Vec3)
    requires |ts| == 1
    ensures CanvasAt(ts, pos) == FirstCanvas(ts)
  {
  }

  /** With several terrains, the height at `pos` is the height of any terrain that contains
      `pos` and is preceded by none that does: list order decides overlaps. */
  lemma {:induction false} FirstMatchWins(ts: seq<Terrain>, pos: Vec3, i: nat)
    requires AllValid(ts) && |ts| != 1 && i < |ts| && Contains(ts[i], pos)
    requires forall j :: 0 <= j < i ==> !Contains(ts[j], pos)
    ensures GetHeight(ts, pos) == TerrainHeight(ts[i], pos)
  {
    var r := FirstContaining(ts, pos);
    assert r.Some?;
    assert r.value == i;
  }

  /** In a world of one terrain, the height is read even where the terrain does not reach; with
      several terrains a position outside all of them is at height 0. */
  lemma {:induction false} OutsideAllTerrains(ts: seq<Terrain>, pos: Vec3)
    requires AllValid(ts) && !HasTerrain(ts, pos)
    ensures |ts| != 1 ==> GetHeight(ts, pos) == 0.0
    ensures |ts| == 1 ==> GetHeight(ts, pos) == TerrainHeight(ts[0], pos)
  {
  }

  /** What `World::add(props, location, setHeight)` is asked to create. That overload is
      declared only, so the model stops at its arguments. */
  datatype AddRequest = AddRequest(properties: ObjectProperties, location: ObjectLocation, setHeight: bool)

  /** `World::add(oid, location, setHeight)`: the database's properties for `oid` with the
      caller's location. `ObjectDb::get` throws for an unknown OID. */
  function AddFromDbAt(db: map<int, DbEntry>, oid: int, location: ObjectLocation, setHeight: bool): (r: Result<AddRequest>)
    ensures r.Ok? <==> oid in db
    ensures r.Ok? ==> r.value.properties == db[oid].properties && r.value.location == location
    ensures r.Ok? ==> r.value.setHeight == setHeight
  {
    match DbGet(db, oid)
    case Ok(entry) => Ok(AddRequest(entry.properties, location, setHeight))
    case Err(e) => Err(e)
  }

  /** `World::add(oid, setHeight)`: the database's properties and preset location for `oid`. */
  function AddFromDb(db: map<int, DbEntry>, oid: int, setHeight: bool): (r: Result<AddRequest>)
    ensures r.Ok? <==> oid in db
    ensures r.Ok? ==> r.value.properties == db[oid].properties && r.value.location == db[oid].location
    ensures r.Ok? ==> r.value.setHeight == setHeight
  {
    match DbGet(db, oid)
    case Ok(entry) => Ok(AddRequest(entry.properties, entry.location, setHeight))
    case Err(e) => Err(e)
  }

  /** Adding by OID alone is adding by OID at the preset location; both fail on the same OIDs. */
  lemma {:induction false} PresetLocationOverload(db: map<int, DbEntry>, oid: int, setHeight: bool)
    ensures oid in db ==> AddFromDb(db, oid, setHeight) == AddFromDbAt(db, oid, db[oid].location, setHeight)
    ensures oid !in db ==> AddFromDb(db, oid, setHeight).Err? && AddFromDbAt(db, oid, DEFAULT_LOCATION, setHeight).Err?
  {
  }
}
