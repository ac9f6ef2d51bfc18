/** The DIS entity registry of `EntityManager`: it filters incoming Entity State PDUs
    down to session peers, classifies a first-seen entity, gives it the last model slot
    of its class's free list, and pushes a pose to the slot's property-tree node.

    The first half of the module specifies one PDU's effect as a function on a
    `RegistryState` value and proves the registry's invariants about it; the second half
    is the `EntityManager` class, whose methods follow the source step by step and are
    proved to have exactly that effect. */
module Registry {
  import opened DisPdu
  import opened EntityTypes
  import opened UnitTypes
  import opened ModelPaths

  // ===== slot pools =====

  const MODEL_COUNT_UH60: nat := 6
  const MODEL_COUNT_M1: nat := 14
  const MODEL_COUNT_T72: nat := 11

  /** Number of model slots handed out at construction, over all classes. */
  const HANDLE_COUNT: nat := MODEL_COUNT_UH60 + MODEL_COUNT_M1 + MODEL_COUNT_T72

  datatype VehicleClass = ClassT72 | ClassM1 | ClassAH64 | ClassUH60

  /** The constructor numbers the slots consecutively: UH60 first, then M1, then T72.
      The AH64 pool is never filled. */
  function PoolBase(c: VehicleClass): nat
  {
    match c
    case ClassUH60 => 0
    case ClassM1 => MODEL_COUNT_UH60
    case ClassT72 => MODEL_COUNT_UH60 + MODEL_COUNT_M1
    case ClassAH64 => 0
  }

  function PoolCount(c: VehicleClass): nat
  {
    match c
    case ClassUH60 => MODEL_COUNT_UH60
    case ClassM1 => MODEL_COUNT_M1
    case ClassT72 => MODEL_COUNT_T72
    case ClassAH64 => 0
  }

  /** The n consecutive handles lo, lo + 1, ..., lo + n - 1. */
  function Range(lo: nat, n: nat): (r: seq<nat>)
    ensures |r| == n
    ensures forall i :: 0 <= i < n ==> r[i] == lo + i
  {
    seq(n, i requires 0 <= i < n => lo + i)
  }

  function InitialPool(c: VehicleClass): seq<nat>
  {
    Range(PoolBase(c), PoolCount(c))
  }

  /** The class whose initial pool holds handle h, if any. */
  function ClassOfHandle(h: nat): Option<VehicleClass>
  {
    if h < MODEL_COUNT_UH60 then Some(ClassUH60)
    else if h < MODEL_COUNT_UH60 + MODEL_COUNT_M1 then Some(ClassM1)
    else if h < HANDLE_COUNT then Some(ClassT72)
    else None
  }

  lemma ClassOfHandleIsPoolRange(h: nat, c: VehicleClass)
    ensures ClassOfHandle(h) == Some(c) <==> PoolBase(c) <= h < PoolBase(c) + PoolCount(c)
  {
  }

  /** After construction the free lists are UH60 = [0..5], M1 = [6..19], T72 = [20..30]
      and AH64 = [], and no handle is in two of them. */
  lemma InitialPoolsLayout(c1: VehicleClass, c2: VehicleClass, i: nat, j: nat)
    ensures InitialPool(ClassUH60) == Range(0, 6)
    ensures InitialPool(ClassM1) == Range(6, 14)
    ensures InitialPool(ClassT72) == Range(20, 11)
    ensures InitialPool(ClassAH64) == []
    ensures c1 != c2 && i < |InitialPool(c1)| && j < |InitialPool(c2)| ==>
      InitialPool(c1)[i] != InitialPool(c2)[j]
  {
    if c1 != c2 && i < |InitialPool(c1)| && j < |InitialPool(c2)| {
      ClassOfHandleIsPoolRange(InitialPool(c1)[i], c1);
      ClassOfHandleIsPoolRange(InitialPool(c2)[j], c2);
    }
  }

  // ===== classification =====

  predicate Matches(c: VehicleClass, t: EntityType)
  {
    match c
    case ClassT72 => T72TankMatches(t)
    case ClassM1 => M1AbramsTankMatches(t)
    case ClassAH64 => AH64ApacheHelicopterMatches(t)
    case ClassUH60 => SikorskyS70AHelicopterMatches(t)
  }

  /** `AddEntityToScene` tries T72, then M1, then AH64, then UH60. */
  function Classify(t: EntityType): (r: Option<VehicleClass>)
    ensures r.Some? ==> Matches(r.value, t)
    ensures r.None? ==> forall c :: !Matches(c, t)
  {
    if T72TankMatches(t) then Some(ClassT72)
    else if M1AbramsTankMatches(t) then Some(ClassM1)
    else if AH64ApacheHelicopterMatches(t) then Some(ClassAH64)
    else if SikorskyS70AHelicopterMatches(t) then Some(ClassUH60)
    else None
  }

  /** As the classes are disjoint the trial order never decides anything: the class
      found is the one class that matches, and no class is found when none matches. */
  lemma ClassifyIsTheUniqueMatch(t: EntityType, c: VehicleClass)
    ensures Classify(t) == Some(c) <==> Matches(c, t)
    ensures Classify(t) == None <==> (forall d :: !Matches(d, t))
  {
    MatchesDisjoint(t);
    if Classify(t) == None {
      forall d ensures !Matches(d, t) {
      }
    } else {
      assert Matches(Classify(t).value, t);
    }
  }

  lemma ClassifyIgnoresSpecificAndExtra(t: EntityType, specific: u8, extra: u8)
    ensures Classify(t.(specific := specific, extra := extra)) == Classify(t)
  {
    MatchesIgnoresSpecificAndExtra(t, specific, extra);
  }

  // ===== key ordering =====

  /** `EntityIDCompare`: only the entity number is compared. */
  predicate EntityIdLess(a: EntityId, b: EntityId)
  {
    a.entity < b.entity
  }

  /** `std::map` treats two keys as the same key when neither is less than the other. */
  predicate EntityIdEquivalent(a: EntityId, b: EntityId)
  {
    !EntityIdLess(a, b) && !EntityIdLess(b, a)
  }

  /** The key the model's map uses for an Entity ID. */
  function MapKey(id: EntityId): u16
  {
    id.entity
  }

  lemma EntityIdLessIsStrictWeakOrder(a: EntityId, b: EntityId, c: EntityId)
    ensures !EntityIdLess(a, a)
    ensures EntityIdLess(a, b) && EntityIdLess(b, c) ==> EntityIdLess(a, c)
    ensures EntityIdEquivalent(a, b) && EntityIdEquivalent(b, c) ==> EntityIdEquivalent(a, c)
  {
  }

  /** Keying the model's map by entity number is exact: two IDs land on one key of the
      source's map precisely when their entity numbers agree, whatever their site and
      application. */
  lemma EquivalentIffSameEntityNumber(a: EntityId, b: EntityId)
    ensures EntityIdEquivalent(a, b) <==> MapKey(a) == MapKey(b)
    ensures EntityIdEquivalent(a, a.(site := b.site, application := b.application))
  {
  }

  // ===== records and poses =====

  /** A tracked entity: the PDU it was first seen with and its model slot. The header
      declares the slot as a `std::string` model path; the implementation passes the
      `size_t` slot index, which is what is modelled. */
  datatype Entity = Entity(mostRecentPdu: EntityStatePdu, modelIndex: nat)

  datatype Lla = Lla(latitude: Angle, longitude: Angle, altitude: Distance)

  datatype Attitude = Attitude(headingDeg: real, pitchDeg: real, rollDeg: real)

  /** The six values `UpdateEntityInScene` writes below a model's property node. */
  datatype ModelPose = ModelPose(
    latitudeDeg: real, longitudeDeg: real, elevationFt: real,
    headingDeg: real, pitchDeg: real, rollDeg: real)

  /** What one pose push needs from the rest of the simulator: the number of loaded
      model instances, the ECEF-to-geodetic conversion, the terrain elevation at a
      position, and the Euler-angle computation relative to the local NED frame
      (including the source's 180 degree roll offset). All but the first are opaque
      here. */
  datatype Scene = Scene(
    instanceCount: nat,
    toLla: Vector3 -> Lla,
    groundLevelFt: Lla -> real,
    attitude: (Lla, Orientation) -> Attitude)

  function Max(a: real, b: real): real { if a < b then b else a }

  /** The ground clamp: an entity below the terrain is raised onto it. */
  function ClampToGround(lla: Lla, groundFt: real): (r: Lla)
    ensures r.latitude == lla.latitude && r.longitude == lla.longitude
    ensures r.altitude.InFeet() == Max(lla.altitude.InFeet(), groundFt)
    ensures r.altitude.InFeet() >= groundFt
  {
    FeetRoundTrip(groundFt);
    if lla.altitude.InFeet() < groundFt then lla.(altitude := DistanceFromFeet(groundFt)) else lla
  }

  function ResolvePose(pdu: EntityStatePdu, scene: Scene): (r: ModelPose)
    ensures var located := scene.toLla(pdu.location);
      && r.latitudeDeg == located.latitude.InDegrees()
      && r.longitudeDeg == located.longitude.InDegrees()
      && r.elevationFt >= scene.groundLevelFt(located)
      && r.elevationFt >= located.altitude.InFeet()
  {
    var located := scene.toLla(pdu.location);
    var lla := ClampToGround(located, scene.groundLevelFt(located));
    var attitude := scene.attitude(lla, pdu.orientation);
    ModelPose(
      lla.latitude.InDegrees(), lla.longitude.InDegrees(), lla.altitude.InFeet(),
      attitude.headingDeg, attitude.pitchDeg, attitude.rollDeg)
  }

  /** The sink after `UpdateEntityInScene(entity, pdu)`. */
  function PushPose(sink: map<string, ModelPose>, entity: Entity, pdu: EntityStatePdu, scene: Scene)
    : (r: map<string, ModelPose>)
    ensures sink.Keys <= r.Keys <= sink.Keys + {PropertyPath(entity.modelIndex)}
  {
    if entity.modelIndex < scene.instanceCount then
      sink[PropertyPath(entity.modelIndex) := ResolvePose(pdu, scene)]
    else
      sink
  }

  /** A pose is written only for a slot below the instance count, only to that slot's
      path, with the elevation clamped to the ground; every other slot keeps its pose. */
  lemma PushPoseWritesOneSlot(sink: map<string, ModelPose>, entity: Entity, pdu: EntityStatePdu,
                              scene: Scene, other: nat)
    ensures var r := PushPose(sink, entity, pdu, scene);
      && (entity.modelIndex >= scene.instanceCount ==> r == sink)
      && (entity.modelIndex < scene.instanceCount ==>
            && r.Keys == sink.Keys + {PropertyPath(entity.modelIndex)}
            && r[PropertyPath(entity.modelIndex)].elevationFt ==
                 Max(scene.toLla(pdu.location).altitude.InFeet(),
                     scene.groundLevelFt(scene.toLla(pdu.location))))
      && (other != entity.modelIndex && PropertyPath(other) in sink ==>
            PropertyPath(other) in r && r[PropertyPath(other)] == sink[PropertyPath(other)])
  {
    if other != entity.modelIndex && PropertyPath(other) == PropertyPath(entity.modelIndex) {
      PropertyPathInjective(other, entity.modelIndex);
    }
  }

  // ===== the registry as a value =====

  datatype RegistryState = RegistryState(
    ah64: seq<nat>, m1: seq<nat>, t72: seq<nat>, uh60: seq<nat>,
    entities: map<u16, Entity>,
    poses: map<string, ModelPose>)

  function PoolOf(s: RegistryState, c: VehicleClass): seq<nat>
  {
    match c
    case ClassAH64 => s.ah64
    case ClassM1 => s.m1
    case ClassT72 => s.t72
    case ClassUH60 => s.uh60
  }

  function WithPool(s: RegistryState, c: VehicleClass, pool: seq<nat>): (r: RegistryState)
    ensures PoolOf(r, c) == pool
    ensures forall d :: d != c ==> PoolOf(r, d) == PoolOf(s, d)
    ensures r.entities == s.entities && r.poses == s.poses
  {
    match c
    case ClassAH64 => s.(ah64 := pool)
    case ClassM1 => s.(m1 := pool)
    case ClassT72 => s.(t72 := pool)
    case ClassUH60 => s.(uh60 := pool)
  }

  function InitialState(): RegistryState
  {
    RegistryState(
      InitialPool(ClassAH64), InitialPool(ClassM1), InitialPool(ClassT72), InitialPool(ClassUH60),
      map[], map[])
  }

  /** `AddEntityToScene` for an entity not yet in the map: classify, take the last
      handle of the class's pool, push the pose and insert. An unclassifiable entity,
      or one whose pool is empty, changes nothing. */
  function AddEntity(s: RegistryState, pdu: EntityStatePdu, scene: Scene): (r: RegistryState)
    ensures r != s ==> Classify(pdu.entityType).Some? && PoolOf(s, Classify(pdu.entityType).value) != []
    ensures r.entities != s.entities ==> MapKey(pdu.entityId) in r.entities
  {
    match Classify(pdu.entityType)
    case None => s
    case Some(c) =>
      var pool := PoolOf(s, c);
      if pool == [] then s
      else
        var entity := Entity(pdu, pool[|pool| - 1]);
        WithPool(s, c, pool[..|pool| - 1]).(
          entities := s.entities[MapKey(pdu.entityId) := entity],
          poses := PushPose(s.poses, entity, pdu, scene))
  }

  /** `CreateT72` and its siblings for class c: pop the pool's last handle and push the
      pose, or, with an empty pool, create nothing. */
  function CreateOfClass(s: RegistryState, c: VehicleClass, pdu: EntityStatePdu, scene: Scene)
    : (RegistryState, Option<Entity>)
  {
    var pool := PoolOf(s, c);
    if pool == [] then (s, None)
    else
      var entity := Entity(pdu, pool[|pool| - 1]);
      (WithPool(s, c, pool[..|pool| - 1]).(poses := PushPose(s.poses, entity, pdu, scene)), Some(entity))
  }

  /** Adding an entity of class c is creating one and, if that succeeded, inserting it. */
  lemma AddEntityIsCreateThenInsert(s: RegistryState, pdu: EntityStatePdu, scene: Scene, c: VehicleClass)
    requires Classify(pdu.entityType) == Some(c)
    ensures var (t, entity) := CreateOfClass(s, c, pdu, scene);
      AddEntity(s, pdu, scene) ==
        if entity.Some? then t.(entities := t.entities[MapKey(pdu.entityId) := entity.value]) else t
  {
  }

  /** `HandleEntityStatePDU`: a known entity only gets a pose push (with the new PDU);
      its stored record is not refreshed. */
  function HandleEntityState(s: RegistryState, pdu: EntityStatePdu, scene: Scene): (r: RegistryState)
    ensures MapKey(pdu.entityId) in s.entities ==> r.(poses := s.poses) == s
  {
    var key := MapKey(pdu.entityId);
    if key in s.entities then s.(poses := PushPose(s.poses, s.entities[key], pdu, scene))
    else AddEntity(s, pdu, scene)
  }

  /** `ProcessEntityStatePDU`. */
  function ProcessEntityState(s: RegistryState, ownship: EntityId, pdu: EntityStatePdu, scene: Scene)
    : (r: RegistryState)
    ensures pdu.entityId == ownship ==> r == s
    ensures pdu.entityId.site != ownship.site || pdu.entityId.application != ownship.application ==> r == s
  {
    if IsSessionPeer(ownship, pdu.entityId) then HandleEntityState(s, pdu, scene) else s
  }

  /** A stream of PDUs, each delivered with the scene of its tick. */
  function Run(s: RegistryState, ownship: EntityId, deliveries: seq<(EntityStatePdu, Scene)>)
    : (r: RegistryState)
    ensures forall k :: k in s.entities ==> k in r.entities && r.entities[k] == s.entities[k]
    decreases |deliveries|
  {
    if deliveries == [] then s
    else Run(ProcessEntityState(s, ownship, deliveries[0].0, deliveries[0].1), ownship, deliveries[1..])
  }

  // ===== the registry invariant =====

  /** Handle h has been taken from its class's pool. */
  predicate Issued(s: RegistryState, h: nat)
  {
    match ClassOfHandle(h)
    case None => false
    case Some(c) => h - PoolBase(c) >= |PoolOf(s, c)|
  }

  /** Some record holds handle h. */
  ghost predicate Held(s: RegistryState, h: nat)
  {
    exists k :: k in s.entities && s.entities[k].modelIndex == h
  }

  /** Handle h is still in some free list. */
  ghost predicate Pooled(s: RegistryState, h: nat)
  {
    exists c :: h in PoolOf(s, c)
  }

  predicate PoolIsPrefix(s: RegistryState, c: VehicleClass)
  {
    |PoolOf(s, c)| <= PoolCount(c) && PoolOf(s, c) == InitialPool(c)[..|PoolOf(s, c)|]
  }

  /** Each pool is what its initial pool leaves after pops from the back; every record
      sits under its entity number, was classified into the class its handle comes from,
      and holds a handle that has left the pool; no two records share a handle; and every
      handle that has left a pool is held by a record. */
  ghost predicate Invariant(s: RegistryState)
  {
    && (forall c :: PoolIsPrefix(s, c))
    && (forall k | k in s.entities :: s.entities[k].mostRecentPdu.entityId.entity == k)
    && (forall k | k in s.entities ::
          && Classify(s.entities[k].mostRecentPdu.entityType) == ClassOfHandle(s.entities[k].modelIndex)
          && Issued(s, s.entities[k].modelIndex))
    && (forall k1, k2 | k1 in s.entities && k2 in s.entities && k1 != k2 ::
          s.entities[k1].modelIndex != s.entities[k2].modelIndex)
    && (forall h: nat | Issued(s, h) :: Held(s, h))
  }

  lemma InitialStateInvariant()
    ensures Invariant(InitialState())
  {
    var s := InitialState();
    forall c ensures PoolIsPrefix(s, c) {
      assert InitialPool(c)[..|InitialPool(c)|] == InitialPool(c);
    }
    forall h: nat ensures !Issued(s, h) {
      if ClassOfHandle(h).Some? {
        ClassOfHandleIsPoolRange(h, ClassOfHandle(h).value);
      }
    }
  }

  /** Handles only ever leave the pools, so whatever was issued stays issued. */
  lemma IssuedAfterPop(s: RegistryState, c: VehicleClass, h: nat)
    requires PoolOf(s, c) != []
    requires Issued(s, h)
    ensures Issued(WithPool(s, c, PoolOf(s, c)[..|PoolOf(s, c)| - 1]), h)
  {
  }

  /** Popping the back of one pool keeps every pool a prefix of its initial pool, and
      issues exactly the popped handle. */
  lemma PopKeepsPrefixesAndIssuesOne(s: RegistryState, r: RegistryState, c: VehicleClass)
    requires forall d :: PoolIsPrefix(s, d)
    requires PoolOf(s, c) != []
    requires PoolOf(r, c) == PoolOf(s, c)[..|PoolOf(s, c)| - 1]
    requires forall d :: d != c ==> PoolOf(r, d) == PoolOf(s, d)
    ensures forall d :: PoolIsPrefix(r, d)
    ensures PoolOf(s, c)[|PoolOf(s, c)| - 1] == PoolBase(c) + |PoolOf(s, c)| - 1
    ensures !Issued(s, PoolOf(s, c)[|PoolOf(s, c)| - 1])
    ensures forall h: nat :: Issued(r, h) <==> (Issued(s, h) || h == PoolOf(s, c)[|PoolOf(s, c)| - 1])
  {
    var pool := PoolOf(s, c);
    var n := |pool|;
    assert PoolIsPrefix(s, c);
    assert pool[n - 1] == PoolBase(c) + n - 1;
    ClassOfHandleIsPoolRange(pool[n - 1], c);
    forall d ensures PoolIsPrefix(r, d) {
      assert PoolIsPrefix(s, d);
      if d == c {
        assert InitialPool(c)[..n - 1] == InitialPool(c)[..n][..n - 1];
      }
    }
    forall h: nat ensures Issued(r, h) <==> (Issued(s, h) || h == pool[n - 1]) {
      if ClassOfHandle(h) == Some(c) {
        ClassOfHandleIsPoolRange(h, c);
      }
    }
  }

  /** Popping the back of class c's pool and inserting a record of class c that holds
      the popped handle, under a fresh entity number, keeps the invariant. */
  lemma InsertPreservesInvariant(s: RegistryState, r: RegistryState, c: VehicleClass, key: u16, e: Entity)
    requires Invariant(s)
    requires key !in s.entities && e.mostRecentPdu.entityId.entity == key
    requires PoolOf(s, c) != [] && e.modelIndex == PoolOf(s, c)[|PoolOf(s, c)| - 1]
    requires Classify(e.mostRecentPdu.entityType) == Some(c)
    requires PoolOf(r, c) == PoolOf(s, c)[..|PoolOf(s, c)| - 1]
    requires forall d :: d != c ==> PoolOf(r, d) == PoolOf(s, d)
    requires r.entities == s.entities[key := e]
    ensures Invariant(r)
  {
    var h := e.modelIndex;
    PopKeepsPrefixesAndIssuesOne(s, r, c);
    ClassOfHandleIsPoolRange(h, c);
    forall k | k in r.entities
      ensures r.entities[k].mostRecentPdu.entityId.entity == k
      ensures Classify(r.entities[k].mostRecentPdu.entityType) == ClassOfHandle(r.entities[k].modelIndex)
      ensures Issued(r, r.entities[k].modelIndex)
    {
      if k != key {
        assert r.entities[k] == s.entities[k];
      }
    }
    forall k1, k2 | k1 in r.entities && k2 in r.entities && k1 != k2
      ensures r.entities[k1].modelIndex != r.entities[k2].modelIndex
    {
      if k1 != key && k2 != key {
        assert r.entities[k1] == s.entities[k1] && r.entities[k2] == s.entities[k2];
      } else if k1 == key {
        assert Issued(s, s.entities[k2].modelIndex);
      } else {
        assert Issued(s, s.entities[k1].modelIndex);
      }
    }
    forall h': nat | Issued(r, h') ensures Held(r, h') {
      if h' == h {
        assert r.entities[key].modelIndex == h;
      } else {
        var k :| k in s.entities && s.entities[k].modelIndex == h';
        assert r.entities[k].modelIndex == h';
      }
    }
  }

  lemma AddEntityPreservesInvariant(s: RegistryState, pdu: EntityStatePdu, scene: Scene)
    requires Invariant(s)
    requires MapKey(pdu.entityId) !in s.entities
    ensures Invariant(AddEntity(s, pdu, scene))
  {
    var found := Classify(pdu.entityType);
    if found.Some? && PoolOf(s, found.value) != [] {
      var c, pool := found.value, PoolOf(s, found.value);
      var e := Entity(pdu, pool[|pool| - 1]);
      var r := AddEntity(s, pdu, scene);
      assert r.entities == s.entities[MapKey(pdu.entityId) := e];
      InsertPreservesInvariant(s, r, c, MapKey(pdu.entityId), e);
    }
  }

  lemma HandleEntityStatePreservesInvariant(s: RegistryState, pdu: EntityStatePdu, scene: Scene)
    requires Invariant(s)
    ensures Invariant(HandleEntityState(s, pdu, scene))
  {
    if MapKey(pdu.entityId) !in s.entities {
      AddEntityPreservesInvariant(s, pdu, scene);
    } else {
      var poses := PushPose(s.poses, s.entities[MapKey(pdu.entityId)], pdu, scene);
      assert HandleEntityState(s, pdu, scene) == s.(poses := poses);
      InvariantIgnoresPoses(s, poses);
    }
  }

  /** The invariant does not look at the poses written. */
  lemma InvariantIgnoresPoses(s: RegistryState, poses: map<string, ModelPose>)
    requires Invariant(s)
    ensures Invariant(s.(poses := poses))
  {
    var r := s.(poses := poses);
    forall c ensures PoolIsPrefix(r, c) {
      assert PoolOf(r, c) == PoolOf(s, c) && PoolIsPrefix(s, c);
    }
    assert forall h: nat :: Issued(r, h) == Issued(s, h);
    forall h: nat | Issued(r, h) ensures Held(r, h) {
      assert Held(s, h);
    }
  }

  lemma ProcessEntityStatePreservesInvariant(s: RegistryState, ownship: EntityId, pdu: EntityStatePdu, scene: Scene)
    requires Invariant(s)
    ensures Invariant(ProcessEntityState(s, ownship, pdu, scene))
  {
    if IsSessionPeer(ownship, pdu.entityId) {
      HandleEntityStatePreservesInvariant(s, pdu, scene);
    }
  }

  lemma {:induction false} RunPreservesInvariant(s: RegistryState, ownship: EntityId,
                                                 deliveries: seq<(EntityStatePdu, Scene)>)
    requires Invariant(s)
    ensures Invariant(Run(s, ownship, deliveries))
    decreases |deliveries|
  {
    if deliveries != [] {
      var next := ProcessEntityState(s, ownship, deliveries[0].0, deliveries[0].1);
      ProcessEntityStatePreservesInvariant(s, ownship, deliveries[0].0, deliveries[0].1);
      RunPreservesInvariant(next, ownship, deliveries[1..]);
    }
  }

  // ===== properties of one PDU =====

  /** Only a session peer's PDU changes anything: map, pools and sink stay as they
      were for any other PDU. */
  lemma OnlySessionPeersChangeState(s: RegistryState, ownship: EntityId, pdu: EntityStatePdu, scene: Scene)
    requires ProcessEntityState(s, ownship, pdu, scene) != s
    ensures IsSessionPeer(ownship, pdu.entityId)
  {
  }

  /** A PDU for a known entity leaves the keys, the records and all pools unchanged;
      only a pose push happens. */
  lemma KnownEntityOnlyPushesPose(s: RegistryState, pdu: EntityStatePdu, scene: Scene)
    requires MapKey(pdu.entityId) in s.entities
    ensures var r := HandleEntityState(s, pdu, scene);
      && r.entities == s.entities
      && (forall c :: PoolOf(r, c) == PoolOf(s, c))
      && r.poses == PushPose(s.poses, s.entities[MapKey(pdu.entityId)], pdu, scene)
  {
  }

  /** A new, classifiable entity whose pool is not empty gets that pool's last handle;
      exactly that handle is popped, the map gains exactly one entry (under the PDU's
      entity number) and the record keeps the PDU. */
  lemma {:induction false} NewEntityTakesLastHandle(s: RegistryState, pdu: EntityStatePdu, scene: Scene, c: VehicleClass)
    requires Invariant(s)
    requires MapKey(pdu.entityId) !in s.entities
    requires Matches(c, pdu.entityType)
    requires PoolOf(s, c) != []
    ensures var r := HandleEntityState(s, pdu, scene);
      var pool := PoolOf(s, c);
      var key := MapKey(pdu.entityId);
      && r.entities.Keys == s.entities.Keys + {key}
      && |r.entities| == |s.entities| + 1
      && r.entities[key] == Entity(pdu, pool[|pool| - 1])
      && (forall k | k in s.entities :: r.entities[k] == s.entities[k])
      && PoolOf(r, c) == pool[..|pool| - 1]
      && (forall d :: d != c ==> PoolOf(r, d) == PoolOf(s, d))
      && pool[|pool| - 1] == PoolBase(c) + |pool| - 1
      && !Pooled(r, pool[|pool| - 1])
  {
    ClassifyIsTheUniqueMatch(pdu.entityType, c);
    var r := HandleEntityState(s, pdu, scene);
    var pool := PoolOf(s, c);
    var n := |pool|;
    var key := MapKey(pdu.entityId);
    var e := Entity(pdu, pool[n - 1]);
    var t := WithPool(s, c, pool[..n - 1]);
    assert r == t.(entities := s.entities[key := e], poses := PushPose(s.poses, e, pdu, scene));
    InsertNewKey(s.entities, r.entities, key, e);
    PoppedHandleLeavesThePools(s, r, c);
  }

  /** Inserting an absent key adds exactly that key and keeps every other entry. */
  lemma InsertNewKey(m: map<u16, Entity>, m': map<u16, Entity>, key: u16, e: Entity)
    requires key !in m
    requires m' == m[key := e]
    ensures m'.Keys == m.Keys + {key}
    ensures |m'| == |m| + 1
    ensures m'[key] == e
    ensures forall k | k in m :: m'[k] == m[k]
  {
  }

  /** After a pop the popped handle is in no pool, and it is the pool's base plus its
      old size minus one. */
  lemma PoppedHandleLeavesThePools(s: RegistryState, r: RegistryState, c: VehicleClass)
    requires forall d :: PoolIsPrefix(s, d)
    requires PoolOf(s, c) != []
    requires PoolOf(r, c) == PoolOf(s, c)[..|PoolOf(s, c)| - 1]
    requires forall d :: d != c ==> PoolOf(r, d) == PoolOf(s, d)
    ensures PoolOf(s, c)[|PoolOf(s, c)| - 1] == PoolBase(c) + |PoolOf(s, c)| - 1
    ensures !Pooled(r, PoolOf(s, c)[|PoolOf(s, c)| - 1])
  {
    var h := PoolOf(s, c)[|PoolOf(s, c)| - 1];
    PopKeepsPrefixesAndIssuesOne(s, r, c);
    if Pooled(r, h) {
      var d :| h in PoolOf(r, d);
      assert PoolIsPrefix(r, d);
      var i :| 0 <= i < |PoolOf(r, d)| && PoolOf(r, d)[i] == h;
      ClassOfHandleIsPoolRange(h, d);
    }
  }

  /** A type that matches no class, or a class whose pool is empty, leaves everything
      unchanged: such entities are never tracked. */
  lemma UntrackableEntityChangesNothing(s: RegistryState, pdu: EntityStatePdu, scene: Scene)
    requires MapKey(pdu.entityId) !in s.entities
    requires forall c :: Matches(c, pdu.entityType) ==> PoolOf(s, c) == []
    ensures HandleEntityState(s, pdu, scene) == s
  {
    match Classify(pdu.entityType)
    case None =>
    case Some(c) =>
      ClassifyIsTheUniqueMatch(pdu.entityType, c);
  }

  /** The AH64 pool starts empty and is never refilled, so no AH64 is ever tracked. */
  lemma NoAH64EverTracked(s: RegistryState)
    requires Invariant(s)
    ensures PoolOf(s, ClassAH64) == []
    ensures forall k | k in s.entities :: !Matches(ClassAH64, s.entities[k].mostRecentPdu.entityType)
  {
    assert PoolIsPrefix(s, ClassAH64);
    forall k | k in s.entities
      ensures !Matches(ClassAH64, s.entities[k].mostRecentPdu.entityType)
    {
      var t := s.entities[k].mostRecentPdu.entityType;
      var h := s.entities[k].modelIndex;
      ClassifyIsTheUniqueMatch(t, ClassAH64);
      ClassOfHandleIsPoolRange(h, ClassAH64);
    }
  }

  /** The handles held by records and those left in the free lists are pairwise
      distinct, and together they are exactly the handles set up at construction. */
  lemma HandlesPartitioned(s: RegistryState)
    requires Invariant(s)
    ensures forall c1, c2, i, j ::
      0 <= i < |PoolOf(s, c1)| && 0 <= j < |PoolOf(s, c2)| && (c1 != c2 || i != j) ==>
        PoolOf(s, c1)[i] != PoolOf(s, c2)[j]
    ensures forall k, c, i :: k in s.entities && 0 <= i < |PoolOf(s, c)| ==>
      s.entities[k].modelIndex != PoolOf(s, c)[i]
    ensures forall k1, k2 :: k1 in s.entities && k2 in s.entities && k1 != k2 ==>
      s.entities[k1].modelIndex != s.entities[k2].modelIndex
    ensures forall h: nat :: (Pooled(s, h) || Held(s, h)) <==> h < HANDLE_COUNT
  {
    forall c1, c2, i, j |
      0 <= i < |PoolOf(s, c1)| && 0 <= j < |PoolOf(s, c2)| && (c1 != c2 || i != j)
      ensures PoolOf(s, c1)[i] != PoolOf(s, c2)[j]
    {
      assert PoolIsPrefix(s, c1) && PoolIsPrefix(s, c2);
      InitialPoolsLayout(c1, c2, i, j);
    }
    forall k, c, i | k in s.entities && 0 <= i < |PoolOf(s, c)|
      ensures s.entities[k].modelIndex != PoolOf(s, c)[i]
    {
      assert PoolIsPrefix(s, c);
      var h := s.entities[k].modelIndex;
      if h == PoolOf(s, c)[i] {
        ClassOfHandleIsPoolRange(h, c);
      }
    }
    forall h: nat ensures (Pooled(s, h) || Held(s, h)) <==> h < HANDLE_COUNT {
      if h < HANDLE_COUNT {
        var c := ClassOfHandle(h).value;
        ClassOfHandleIsPoolRange(h, c);
        assert PoolIsPrefix(s, c);
        if h - PoolBase(c) < |PoolOf(s, c)| {
          assert PoolOf(s, c)[h - PoolBase(c)] == h;
        } else {
          assert Issued(s, h);
        }
      } else {
        if Pooled(s, h) {
          var c :| h in PoolOf(s, c);
          assert PoolIsPrefix(s, c);
          ClassOfHandleIsPoolRange(h, c);
        }
      }
    }
  }

  /** One PDU at most pops the back of one pool. */
  lemma StepOnlyPops(s: RegistryState, ownship: EntityId, pdu: EntityStatePdu, scene: Scene, c: VehicleClass)
    ensures var r := ProcessEntityState(s, ownship, pdu, scene);
      |PoolOf(r, c)| <= |PoolOf(s, c)| && PoolOf(r, c) == PoolOf(s, c)[..|PoolOf(r, c)|]
  {
    var r := ProcessEntityState(s, ownship, pdu, scene);
    if PoolOf(r, c) == PoolOf(s, c) {
      assert PoolOf(s, c)[..|PoolOf(s, c)|] == PoolOf(s, c);
    }
  }

  /** Nothing is ever released: along any stream of PDUs the pools only lose handles
      from the back and the records already made stay as they are. */
  lemma {:induction false} RunNeverReleases(s: RegistryState, ownship: EntityId,
                                            deliveries: seq<(EntityStatePdu, Scene)>)
    ensures var r := Run(s, ownship, deliveries);
      && (forall c :: |PoolOf(r, c)| <= |PoolOf(s, c)| && PoolOf(r, c) == PoolOf(s, c)[..|PoolOf(r, c)|])
      && (forall k | k in s.entities :: k in r.entities && r.entities[k] == s.entities[k])
    decreases |deliveries|
  {
    var r := Run(s, ownship, deliveries);
    if deliveries == [] {
      forall c ensures PoolOf(s, c)[..|PoolOf(s, c)|] == PoolOf(s, c) {
      }
    } else {
      var next := ProcessEntityState(s, ownship, deliveries[0].0, deliveries[0].1);
      RunNeverReleases(next, ownship, deliveries[1..]);
      assert r == Run(next, ownship, deliveries[1..]);
      forall c ensures |PoolOf(r, c)| <= |PoolOf(s, c)| && PoolOf(r, c) == PoolOf(s, c)[..|PoolOf(r, c)|] {
        StepOnlyPops(s, ownship, deliveries[0].0, deliveries[0].1, c);
        assert PoolOf(next, c) == PoolOf(s, c)[..|PoolOf(next, c)|];
        assert PoolOf(r, c) == PoolOf(next, c)[..|PoolOf(r, c)|];
      }
    }
  }

  // ===== the entity manager =====

  class EntityManager {
    const ownship: EntityStatePdu

    // Model allocation arrays: free lists of slot handles, used from the back.
    var availableAH64: seq<nat>
    var availableM1: seq<nat>
    var availableT72: seq<nat>
    var availableUH60: seq<nat>

    // Entity number -> Entity.
    var entityMap: map<u16, Entity>

    // The poses last written below "/models/model[...]", by property path.
    var modelPoses: map<string, ModelPose>

    function State(): RegistryState
      reads this
    {
      RegistryState(availableAH64, availableM1, availableT72, availableUH60, entityMap, modelPoses)
    }

    ghost predicate Valid()
      reads this
    {
      Invariant(State())
    }

    constructor (ownship: EntityStatePdu)
      ensures this.ownship == ownship
      ensures State() == InitialState()
      ensures Valid()
    {
      this.ownship := ownship;
      var globalModelIndex: nat := 0;

      var uh60: seq<nat> := [];
      for modelIndex := 0 to MODEL_COUNT_UH60
        invariant uh60 == Range(globalModelIndex, modelIndex)
      {
        uh60 := uh60 + [globalModelIndex + modelIndex];
      }
      globalModelIndex := globalModelIndex + MODEL_COUNT_UH60;

      var m1: seq<nat> := [];
      for modelIndex := 0 to MODEL_COUNT_M1
        invariant m1 == Range(globalModelIndex, modelIndex)
      {
        m1 := m1 + [globalModelIndex + modelIndex];
      }
      globalModelIndex := globalModelIndex + MODEL_COUNT_M1;

      var t72: seq<nat> := [];
      for modelIndex := 0 to MODEL_COUNT_T72
        invariant t72 == Range(globalModelIndex, modelIndex)
      {
        t72 := t72 + [globalModelIndex + modelIndex];
      }

      availableAH64 := [];
      availableM1 := m1;
      availableT72 := t72;
      availableUH60 := uh60;
      entityMap := map[];
      modelPoses := map[];
      new;
      InitialStateInvariant();
    }

    /** The exercise-ID check is still a TODO in the source: nothing is ignored. */
    function ShouldIgnorePdu(exerciseId: u8): (ignore: bool)
      ensures !ignore
    {
      false
    }

    method ShouldIgnoreEntityStatePdu(pdu: EntityStatePdu) returns (shouldIgnore: bool)
      ensures shouldIgnore <==> !IsSessionPeer(ownship.entityId, pdu.entityId)
    {
      shouldIgnore := true;
      if !ShouldIgnorePdu(pdu.exerciseId) {
        var incoming := pdu.entityId;
        var own := ownship.entityId;
        if incoming.site == own.site && incoming.application == own.application {
          if incoming.entity != own.entity {
            shouldIgnore := false;
          }
        }
        // otherwise the source logs the ignored site and application
      }
    }

    method ProcessEntityStatePdu(pdu: EntityStatePdu, scene: Scene)
      requires Valid()
      modifies this
      ensures Valid()
      ensures State() == ProcessEntityState(old(State()), ownship.entityId, pdu, scene)
    {
      ProcessEntityStatePreservesInvariant(State(), ownship.entityId, pdu, scene);
      var ignore := ShouldIgnoreEntityStatePdu(pdu);
      if !ignore {
        HandleEntityStatePdu(pdu, scene);
      }
    }

    method HandleEntityStatePdu(pdu: EntityStatePdu, scene: Scene)
      modifies this
      ensures State() == HandleEntityState(old(State()), pdu, scene)
    {
      var key := MapKey(pdu.entityId);
      if key !in entityMap {
        AddEntityToScene(pdu, scene);
      } else {
        UpdateEntityInScene(entityMap[key], pdu, scene);
      }
      RemoveExpiredEntities();
    }

    method AddEntityToScene(pdu: EntityStatePdu, scene: Scene)
      requires MapKey(pdu.entityId) !in entityMap
      modifies this
      ensures State() == AddEntity(old(State()), pdu, scene)
    {
      ghost var s0 := State();
      var entity: Option<Entity> := None;
      if T72TankMatches(pdu.entityType) {
        AddEntityIsCreateThenInsert(s0, pdu, scene, ClassT72);
        entity := CreateT72(pdu, scene);
      } else if M1AbramsTankMatches(pdu.entityType) {
        AddEntityIsCreateThenInsert(s0, pdu, scene, ClassM1);
        entity := CreateM1(pdu, scene);
      } else if AH64ApacheHelicopterMatches(pdu.entityType) {
        AddEntityIsCreateThenInsert(s0, pdu, scene, ClassAH64);
        entity := CreateAH64(pdu, scene);
      } else if SikorskyS70AHelicopterMatches(pdu.entityType) {
        AddEntityIsCreateThenInsert(s0, pdu, scene, ClassUH60);
        entity := CreateUH60(pdu, scene);
      }

      // If an entity was created above, add it to the map
      if entity.Some? {
        entityMap := entityMap[MapKey(pdu.entityId) := entity.value];
      }
    }

    method UpdateEntityInScene(entity: Entity, pdu: EntityStatePdu, scene: Scene)
      modifies this`modelPoses
      ensures modelPoses == PushPose(old(modelPoses), entity, pdu, scene)
    {
      if entity.modelIndex < scene.instanceCount {
        var lla := scene.toLla(pdu.location);
        var groundLevelInFeet := scene.groundLevelFt(lla);
        if lla.altitude.InFeet() < groundLevelInFeet {
          lla := lla.(altitude := DistanceFromFeet(groundLevelInFeet));
        }
        var attitude := scene.attitude(lla, pdu.orientation);
        var propertyPath := PropertyPath(entity.modelIndex);
        modelPoses := modelPoses[propertyPath := ModelPose(
          lla.latitude.InDegrees(), lla.longitude.InDegrees(), lla.altitude.InFeet(),
          attitude.headingDeg, attitude.pitchDeg, attitude.rollDeg)];
      }
    }

    /** Empty in the source: no entity ever expires and no handle is returned. */
    method RemoveExpiredEntities()
      modifies this
      ensures State() == old(State())
    {
    }

    method CreateT72(pdu: EntityStatePdu, scene: Scene) returns (entity: Option<Entity>)
      modifies this`availableT72, this`modelPoses
      ensures (State(), entity) == CreateOfClass(old(State()), ClassT72, pdu, scene)
      ensures old(availableT72) == [] ==>
        entity == None && availableT72 == [] && modelPoses == old(modelPoses)
      ensures old(availableT72) != [] ==>
        var pool := old(availableT72);
        && entity == Some(Entity(pdu, pool[|pool| - 1]))
        && availableT72 == pool[..|pool| - 1]
        && modelPoses == PushPose(old(modelPoses), entity.value, pdu, scene)
    {
      entity := None;
      if availableT72 != [] {
        entity := Some(Entity(pdu, availableT72[|availableT72| - 1]));
        availableT72 := availableT72[..|availableT72| - 1];
        UpdateEntityInScene(entity.value, pdu, scene);
      }
    }

    method CreateM1(pdu: EntityStatePdu, scene: Scene) returns (entity: Option<Entity>)
      modifies this`availableM1, this`modelPoses
      ensures (State(), entity) == CreateOfClass(old(State()), ClassM1, pdu, scene)
      ensures old(availableM1) == [] ==>
        entity == None && availableM1 == [] && modelPoses == old(modelPoses)
      ensures old(availableM1) != [] ==>
        var pool := old(availableM1);
        && entity == Some(Entity(pdu, pool[|pool| - 1]))
        && availableM1 == pool[..|pool| - 1]
        && modelPoses == PushPose(old(modelPoses), entity.value, pdu, scene)
    {
      entity := None;
      if availableM1 != [] {
        entity := Some(Entity(pdu, availableM1[|availableM1| - 1]));
        availableM1 := availableM1[..|availableM1| - 1];
        UpdateEntityInScene(entity.value, pdu, scene);
      }
    }

    method CreateAH64(pdu: EntityStatePdu, scene: Scene) returns (entity: Option<Entity>)
      modifies this`availableAH64, this`modelPoses
      ensures (State(), entity) == CreateOfClass(old(State()), ClassAH64, pdu, scene)
      ensures old(availableAH64) == [] ==>
        entity == None && availableAH64 == [] && modelPoses == old(modelPoses)
      ensures old(availableAH64) != [] ==>
        var pool := old(availableAH64);
        && entity == Some(Entity(pdu, pool[|pool| - 1]))
        && availableAH64 == pool[..|pool| - 1]
        && modelPoses == PushPose(old(modelPoses), entity.value, pdu, scene)
    {
      entity := None;
      if availableAH64 != [] {
        entity := Some(Entity(pdu, availableAH64[|availableAH64| - 1]));
        availableAH64 := availableAH64[..|availableAH64| - 1];
        UpdateEntityInScene(entity.value, pdu, scene);
      }
    }

    method CreateUH60(pdu: EntityStatePdu, scene: Scene) returns (entity: Option<Entity>)
      modifies this`availableUH60, this`modelPoses
      ensures (State(), entity) == CreateOfClass(old(State()), ClassUH60, pdu, scene)
      ensures old(availableUH60) == [] ==>
        entity == None && availableUH60 == [] && modelPoses == old(modelPoses)
      ensures old(availableUH60) != [] ==>
        var pool := old(availableUH60);
        && entity == Some(Entity(pdu, pool[|pool| - 1]))
        && availableUH60 == pool[..|pool| - 1]
        && modelPoses == PushPose(old(modelPoses), entity.value, pdu, scene)
    {
      entity := None;
      if availableUH60 != [] {
        entity := Some(Entity(pdu, availableUH60[|availableUH60| - 1]));
        availableUH60 := availableUH60[..|availableUH60| - 1];
        UpdateEntityInScene(entity.value, pdu, scene);
      }
    }

    /** Fire PDUs go through the same (always false) exercise check. */
    function ShouldIgnoreFirePdu(exerciseId: u8): (ignore: bool)
      ensures !ignore
    {
      ShouldIgnorePdu(exerciseId)
    }

    /** The Detonation check as evidently intended, mirroring the Fire check. The
        source's body instead calls itself; see `DetonationCheckAsWritten`. */
    function ShouldIgnoreDetonationPdu(exerciseId: u8): (ignore: bool)
      ensures !ignore
      ensures ignore == ShouldIgnoreFirePdu(exerciseId)
    {
      ShouldIgnorePdu(exerciseId)
    }
  }

  /** `ShouldIgnoreDetonationPDU` as written: its body is a call to itself with the same
      argument. However far it is unfolded (`fuel` times), it has produced no answer,
      so the check never returns. */
  function DetonationCheckAsWritten(exerciseId: u8, fuel: nat): (r: Option<bool>)
    ensures r == None
    decreases fuel
  {
    if fuel == 0 then None else DetonationCheckAsWritten(exerciseId, fuel - 1)
  }
}
