/** Object metadata of the world (ext/world/WorldMeta.hpp): the static properties and initial
    location of an object, the object database keyed by OID, and the identity of world objects. */
module WorldMeta {
  import opened Prelude

  /** `ObjectAerodynamics_t`: resistance on the terrain, in the air, and vertically in the air. */
  datatype Aerodynamics = Aerodynamics(terrain: real, air: real, airVertical: real)

  const DEFAULT_AERODYNAMICS: Aerodynamics := Aerodynamics(0.8, 0.95, 0.9)

  /** `ObjectTerrainBehavior_t`. */
  datatype TerrainBehavior = TerrainBehavior(scratchingNew: real, climbLimit: real, fallLimit: real,
                                             rideHeightSeamless: real)

  const DEFAULT_TERRAIN_BEHAVIOR: TerrainBehavior := TerrainBehavior(0.6, 0.3, 0.3, 5.0)

  /** `ObjectAnimation_t`: an optional spin around each axis and a pulse of the scale. */
  datatype Animation = Animation(enabled: bool, deltaRotation: Vec3, scalePulse: real)

  const NO_ANIMATION: Animation := Animation(false, Vec3(0.0, 0.0, 0.0), 0.0)

  /** `ObjectProperties_t`: what an object is, independently of where it is. */
  datatype ObjectProperties = ObjectProperties(
    className: string,
    radius: real,
    mass: real,
    elasticity: real,
    crashEfficiency: real,
    aero: Aerodynamics,
    terrain: TerrainBehavior,
    animation: Animation,
    isStatic: bool,
    drawRadiusMultiplier: real)

  /** The properties of a class given only its name: every member takes its initialiser. */
  function DefaultProperties(className: string): (p: ObjectProperties)
    ensures p.className == className && p.radius == 1.0 && p.mass == 1.0 && !p.isStatic
    ensures p.drawRadiusMultiplier == 1.0 && p.elasticity == 0.8 && p.crashEfficiency == 0.75
  {
    ObjectProperties(className, 1.0, 1.0, 0.8, 0.75, DEFAULT_AERODYNAMICS, DEFAULT_TERRAIN_BEHAVIOR,
                     NO_ANIMATION, false, 1.0)
  }

  const ZERO: Vec3 := Vec3(0.0, 0.0, 0.0)

  /** `ObjectLocation_t`: where an object starts and how it moves at first. */
  datatype ObjectLocation = ObjectLocation(position: Vec3, rotation: Vec3, initialSpeed: Vec3,
                                           initialAcceleration: Vec3)

  /** `ObjectLocation_t{}`: the default location, all vectors zero. */
  const DEFAULT_LOCATION: ObjectLocation := ObjectLocation(ZERO, ZERO, ZERO, ZERO)

  /** `ObjectDbEntry_t`: properties paired with a preset location. */
  datatype DbEntry = DbEntry(properties: ObjectProperties, location: ObjectLocation)

  /** The database after `Database.insert({code, entry})`: `std::map::insert` adds the entry
      when `code` is new and keeps the stored entry when it is not. */
  function DbInsert(db: map<int, DbEntry>, code: int, entry: DbEntry): (db': map<int, DbEntry>)
    ensures code in db' && db'[code] == (if code in db then db[code] else entry)
    ensures forall k :: k != code ==> (k in db' <==> k in db)
    ensures forall k :: k != code && k in db ==> db'[k] == db[k]
  {
    if code in db then db else db[code := entry]
  }

  /** `Database.at(oid)`: the stored entry, or an error (`std::out_of_range`) for an unknown OID. */
  function DbGet(db: map<int, DbEntry>, oid: int): (r: Result<DbEntry>)
    ensures r.Ok? <==> oid in db
    ensures r.Ok? ==> r.value == db[oid]
  {
    if oid in db then Ok(db[oid]) else Err("out_of_range")
  }

  /** After inserting under a fresh code, looking the code up yields the inserted entry. */
  lemma {:induction false} GetAfterInsertFresh(db: map<int, DbEntry>, code: int, entry: DbEntry)
    requires code !in db
    ensures DbGet(DbInsert(db, code, entry), code) == Ok(entry)
  {
  }

  /** Inserting under a code already present changes nothing at all. */
  lemma {:induction false} InsertKeepsExisting(db: map<int, DbEntry>, code: int, entry: DbEntry)
    requires code in db
    ensures DbInsert(db, code, entry) == db
  {
  }

  /** Once a code is stored, later inserts never change what it reads as. */
  lemma {:induction false} FirstInsertWins(db: map<int, DbEntry>, code: int, first: DbEntry, second: DbEntry)
    ensures DbGet(DbInsert(DbInsert(db, code, first), code, second), code) == DbGet(DbInsert(db, code, first), code)
  {
  }

  /** `ObjectDb`: the static map from OID to entry. One instance stands for the static member. */
  class ObjectDb {
    var database: map<int, DbEntry>

    constructor ()
      ensures database == map[]
    {
      database := map[];
    }

    /** `ObjectDb::insert(code, meta, location)`; the location defaults to `ObjectLocation_t{}`. */
    method Insert(code: int, meta: ObjectProperties, location: ObjectLocation)
      modifies this
      ensures database == DbInsert(old(database), code, DbEntry(meta, location))
    {
      if code !in database {
        database := database[code := DbEntry(meta, location)];
      }
    }

    /** `ObjectDb::get(oid)`: the stored entry, or an error for an unknown OID. */
    method Get(oid: int) returns (r: Result<DbEntry>)
      ensures r == DbGet(database, oid)
      ensures r.Ok? <==> oid in database
    {
      if oid in database {
        return Ok(database[oid]);
      }
      return Err("out_of_range");
    }
  }

  /** The ID rule of the `WorldObjectBase` constructor, `overrideId >= 0 ? overrideId :
      instanceCounter++`, as the pair (ID, counter afterwards). */
  function AssignId(counter: int, overrideId: int): (r: (int, int))
    ensures overrideId >= 0 ==> r.0 == overrideId && r.1 == counter
    ensures overrideId < 0 ==> r.0 == counter && r.1 == counter + 1
  {
    if overrideId >= 0 then (overrideId, counter) else (counter, counter + 1)
  }

  /** The IDs handed out to objects constructed one after another with the given override IDs. */
  function AssignIds(counter: int, overrides: seq<int>): (ids: seq<int>)
    ensures |ids| == |overrides|
    decreases overrides
  {
    if overrides == [] then []
    else
      var r := AssignId(counter, overrides[0]);
      [r.0] + AssignIds(r.1, overrides[1..])
  }

  /** How many of the given override IDs ask for an automatic ID. */
  function AutomaticCount(overrides: seq<int>): nat
    decreases overrides
  {
    if overrides == [] then 0
    else (if overrides[0] < 0 then 1 else 0) + AutomaticCount(overrides[1..])
  }

  /** The counter after those constructions: one more for every automatic ID. */
  function CounterAfter(counter: int, overrides: seq<int>): (r: int)
    ensures r == counter + AutomaticCount(overrides)
    decreases overrides
  {
    if overrides == [] then counter
    else CounterAfter(AssignId(counter, overrides[0]).1, overrides[1..])
  }

  /** Automatic IDs come from the counter, in order: every one is at least the starting counter
      and below the final counter, and a later automatic ID is larger than an earlier one. So no
      two automatically numbered objects share an ID. */
  lemma {:induction false} AutomaticIdsIncrease(counter: int, overrides: seq<int>)
    ensures var ids := AssignIds(counter, overrides);
      forall i :: 0 <= i < |overrides| && overrides[i] < 0 ==>
        counter <= ids[i] < CounterAfter(counter, overrides)
    ensures var ids := AssignIds(counter, overrides);
      forall i, j :: 0 <= i < j < |overrides| && overrides[i] < 0 && overrides[j] < 0 ==> ids[i] < ids[j]
    decreases overrides
  {
    if overrides != [] {
      var r := AssignId(counter, overrides[0]);
      var rest := overrides[1..];
      AutomaticIdsIncrease(r.1, rest);
      CounterNeverDecreases(r.1, rest);
      var ids := AssignIds(counter, overrides);
      assert forall i :: 0 < i < |overrides| ==> ids[i] == AssignIds(r.1, rest)[i - 1] && overrides[i] == rest[i - 1];
    }
  }

  lemma {:induction false} CounterNeverDecreases(counter: int, overrides: seq<int>)
    ensures counter <= CounterAfter(counter, overrides)
    decreases overrides
  {
    if overrides != [] {
      CounterNeverDecreases(AssignId(counter, overrides[0]).1, overrides[1..]);
    }
  }

  /** Overridden IDs are exactly the override values. */
  lemma {:induction false} OverriddenIdsKept(counter: int, overrides: seq<int>)
    ensures var ids := AssignIds(counter, overrides);
      forall i :: 0 <= i < |overrides| && overrides[i] >= 0 ==> ids[i] == overrides[i]
    decreases overrides
  {
    if overrides != [] {
      var r := AssignId(counter, overrides[0]);
      OverriddenIdsKept(r.1, overrides[1..]);
      var ids := AssignIds(counter, overrides);
      assert forall i :: 0 < i < |overrides| ==> ids[i] == AssignIds(r.1, overrides[1..])[i - 1];
    }
  }

  /** `drawRadius()`: the collision radius times the draw multiplier, in thousandths. */
  function DrawRadius(p: ObjectProperties): (r: real)
    ensures r * 1000.0 == p.radius * p.drawRadiusMultiplier
    ensures p.drawRadiusMultiplier == 1.0 ==> r * 1000.0 == p.radius
  {
    p.radius * p.drawRadiusMultiplier / 1000.0
  }

  /** `instanceCounter`, the static counter shared by every `WorldObjectBase`. */
  class InstanceCounter {
    var next: int

    constructor (start: int)
      ensures next == start
    {
      next := start;
    }
  }

  /** `WorldObject`: an object with fixed properties placed in the world. */
  class WorldObject {
    const classId: nat
    const id: int
    const className: string
    const config: ObjectProperties
    var radiusAnimator: real
    var location: ObjectLocation

    /** The `WorldObject` constructor with its `WorldObjectBase` part: the class name comes from
        the properties, and the ID from `AssignId`. */
    constructor (counter: InstanceCounter, meta: ObjectProperties, loc: ObjectLocation, cid: nat, overrideId: int)
      modifies counter
      ensures id == AssignId(old(counter.next), overrideId).0
      ensures counter.next == AssignId(old(counter.next), overrideId).1
      ensures overrideId >= 0 ==> id == overrideId && counter.next == old(counter.next)
      ensures overrideId < 0 ==> id == old(counter.next) && counter.next == old(counter.next) + 1
      ensures classId == cid && className == meta.className && config == meta
      ensures location == loc && radiusAnimator == 0.0
    {
      classId := cid;
      className := meta.className;
      config := meta;
      location := loc;
      radiusAnimator := 0.0;
      var next := counter.next;
      if overrideId >= 0 {
        id := overrideId;
      } else {
        id := next;
        next := next + 1;
      }
      new;
      counter.next := next;
    }

    /** `radius()`: the configured collision radius. */
    function Radius(): (r: real)
      reads this
      ensures r == config.radius
    {
      config.radius
    }

    /** `drawRadius()`. */
    function GetDrawRadius(): (r: real)
      reads this
      ensures r * 1000.0 == Radius() * config.drawRadiusMultiplier
    {
      DrawRadius(config)
    }
  }
}
