# DIS entity ingestion and aircraft start states, modelled in Dafny

This project models two parts of FlightGear.

The first is the entity bookkeeping of its OpenDIS network module. Other simulators
send Distributed Interactive Simulation (IEEE 1278.1) Entity State PDUs. The
`EntityManager` handles each one in four steps:

- it keeps only PDUs from session peers: the same site and application as ownship,
  and a different entity number;
- it looks the entity up in a map that is keyed, through `EntityIDCompare`, by the
  entity number alone;
- it classifies a first-seen entity as a T72, M1, AH64 or UH60 by five of the seven
  fields of its DIS Entity Type record (section 6.2.30 of IEEE 1278.1-2012);
- it gives the entity the last free model slot of its class and then pushes a pose
  (latitude, longitude, ground-clamped elevation, heading, pitch, roll) to that slot's
  property node, "/models/model" or "/models/model[i]".

The earlier `EntityStateProcessor` revision is modelled too: it applies the same filter
but never inserts anything.

The second part is the start-state list of the launcher's aircraft panel
(`QmlAircraftInfo`). It sorts an aircraft's states with "auto" first and the rest by
tag, and prepends a "__default__" state when there is no "auto". The model also covers
the panel's state lookups and its variant selection.

Files and modules:

- `dis_pdu.dfy` (`DisPdu`): wire-level values. These are the 8- and 16-bit fields, the
  Entity ID and Entity Type records, the three PDUs, and the session-peer predicate.
- `enumerations.dfy` (`Enumerations`): the enumeration codes, taken from the SISO
  enumerations document SISO-STD-010.
- `unit_types.dfy` (`UnitTypes`): the `Angle` and `Distance` wrappers over exact reals.
- `entity_types.dfy` (`EntityTypes`): the four type constructors and their `matches`
  predicates.
- `model_paths.dfy` (`ModelPaths`): `std::to_string` and the property-path string.
- `registry.dfy` (`Registry`): two parts.
  - A specification of one PDU's effect as a function on a `RegistryState` value, with
    the registry invariant proved about it.
  - The `EntityManager` class. Its methods follow the source step by step and are
    proved to have exactly that effect.
- `entity_state_processor.dfy` (`EntityStateProcessing`): the earlier processor.
- `aircraft_states.dfy` (`AircraftStates`): `StatesModel`, the tag order and the sort.
- `aircraft_info.dfy` (`AircraftInfo`): variant counting, resolution and selection.

Behaviour of the code that a reader might not expect, and that the model follows:

- The map's comparator looks only at the entity number (`EntityManager.hxx:19`), so IDs
  that differ only in site or application share one record.
- An entity whose class's pool is empty is not tracked at all
  (`EntityManager.cxx:207-210`), and nothing is logged.
- The stored PDU of a known entity is never replaced (`EntityManager.cxx:136`).
- `RemoveExpiredEntities` is empty (`EntityManager.cxx:296-298`), so no slot is ever
  returned to its pool.
- The header types the pools and the record's slot as `std::string` model paths.
  The implementation stores `size_t` slot indices (`EntityManager.cxx:38`, `302`), and
  the model does the same.

## Model

| member | source | states |
|---|---|---|
| Enumerations.PduTypeCodesDistinct | src/Network/OpenDIS/Enumerations.hxx:7-13 | The PDU type codes 1-4 are pairwise distinct: two PDU types share a code exactly when they are the same type. |
| Enumerations.EntityKindCodesDistinct | src/Network/OpenDIS/Enumerations.hxx:15-27 | The entity kind codes (PLATFORM = 1 among them) are pairwise distinct. |
| Enumerations.CountryCodesDistinct | src/Network/OpenDIS/Enumerations.hxx:29-35 | The country codes 45, 222, 225 and 260 are pairwise distinct. |
| Enumerations.DomainCodesDistinct | src/Network/OpenDIS/Enumerations.hxx:37-45 | The domain codes (LAND = 1, AIR = 2) are pairwise distinct. |
| Enumerations.CategoryCodesDistinct | src/Network/OpenDIS/Enumerations.hxx:47-52 | The codes TANK = 1, ATTACK_HELICOPTER = 20 and UTILITY_HELICOPTER = 21 are pairwise distinct. |
| Enumerations.SubCategoryCodes | src/Network/OpenDIS/Enumerations.hxx:59-115 | SIKORSKY_S70A has the implicit value 0. The other subcategories the classes use are at least 1, and T80 and T72 differ. |
| UnitTypes.DegreesToRadians | src/Network/OpenDIS/UnitTypes.hxx:17-20 | The conversion keeps the sign and zero, and converting the result back to degrees gives the input. |
| UnitTypes.RadiansToDegrees | src/Network/OpenDIS/UnitTypes.hxx:32-35 | The conversion keeps the sign and zero. |
| UnitTypes.NewAngle | src/Network/OpenDIS/UnitTypes.hxx:22-25 | The angle stores the given radians, 0 by default. |
| UnitTypes.AngleFromRadians | src/Network/OpenDIS/UnitTypes.hxx:12-15 | The angle stores the given radians unchanged. |
| UnitTypes.AngleFromDegrees | src/Network/OpenDIS/UnitTypes.hxx:17-20 | The stored radians times 180 equal the degrees times pi. |
| UnitTypes.Angle.InRadians | src/Network/OpenDIS/UnitTypes.hxx:27-30 | Building an angle from the value read gives the same angle back. |
| UnitTypes.Angle.InDegrees | src/Network/OpenDIS/UnitTypes.hxx:32-35 | Building an angle from the degrees read gives the same angle back. |
| UnitTypes.NewDistance | src/Network/OpenDIS/UnitTypes.hxx:54-57 | The distance stores the given metres, 0 by default. |
| UnitTypes.DistanceFromMeters | src/Network/OpenDIS/UnitTypes.hxx:44-47 | The distance stores the given metres unchanged. |
| UnitTypes.DistanceFromFeet | src/Network/OpenDIS/UnitTypes.hxx:49-52 | The stored metres times the metre-to-feet factor equal the feet. |
| UnitTypes.Distance.InMeters | src/Network/OpenDIS/UnitTypes.hxx:59-62 | Building a distance from the metres read gives the same distance back. |
| UnitTypes.Distance.InFeet | src/Network/OpenDIS/UnitTypes.hxx:64-67 | Building a distance from the feet read gives the same distance back. |
| UnitTypes.ConstantsPositive | src/Network/OpenDIS/UnitTypes.hxx:17-20 | Pi and the metre-to-feet factor are positive, so every conversion divides by a non-zero value. |
| UnitTypes.DefaultsAreZero | src/Network/OpenDIS/UnitTypes.hxx:22-57 | A default Angle is 0 in radians and in degrees. A default Distance is 0 in metres and in feet. |
| UnitTypes.RadiansRoundTrip | src/Network/OpenDIS/UnitTypes.hxx:12-30 | `fromRadians(r).inRadians() == r`. |
| UnitTypes.DegreesRoundTrip | src/Network/OpenDIS/UnitTypes.hxx:17-35 | `fromDegrees(d).inDegrees() == d` over exact reals. |
| UnitTypes.MetersRoundTrip | src/Network/OpenDIS/UnitTypes.hxx:44-62 | `fromMeters(m).inMeters() == m`. |
| UnitTypes.FeetRoundTrip | src/Network/OpenDIS/UnitTypes.hxx:49-67 | `fromFeet(f).inFeet() == f` over exact reals, because the value is divided by the factor when stored and multiplied by it when read. |
| UnitTypes.FeetOrderMatchesMeters | src/Network/OpenDIS/UnitTypes.hxx:59-67 | Comparing two distances in feet gives the same answer as comparing them in metres. |
| EntityTypes.CountryCastLossless | src/Network/OpenDIS/EntityTypes.hxx:23-35 | Casting the US and CIS country codes to `unsigned char` loses nothing, but casting RUSSIA (260) would. |
| EntityTypes.AH64ApacheHelicopterMatches | src/Network/OpenDIS/EntityTypes.hxx:23-35 | True exactly when kind, domain, country, category and subcategory are 1, 2, 225, 20, 1. |
| EntityTypes.SikorskyS70AHelicopterMatches | src/Network/OpenDIS/EntityTypes.hxx:52-64 | True exactly when the five fields are 1, 2, 225, 21, 0. |
| EntityTypes.M1AbramsTankMatches | src/Network/OpenDIS/EntityTypes.hxx:81-93 | True exactly when the five fields are 1, 1, 225, 1, 1. |
| EntityTypes.T72TankMatches | src/Network/OpenDIS/EntityTypes.hxx:110-122 | True exactly when the five fields are 1, 1, 222, 1, 2. |
| EntityTypes.MatchesCompareFiveFields | src/Network/OpenDIS/EntityTypes.hxx:23-122 | Each class's `matches` holds exactly when kind, domain, country, category and subcategory equal that class's codes: AH64 (1,2,225,20,1), S70A (1,2,225,21,0), M1 (1,1,225,1,1), T72 (1,1,222,1,2). |
| EntityTypes.MatchesIgnoresSpecificAndExtra | src/Network/OpenDIS/EntityTypes.hxx:23-122 | Changing `specific` or `extra` never changes any class's `matches`. |
| EntityTypes.MatchesDisjoint | src/Network/OpenDIS/EntityTypes.hxx:23-122 | No record satisfies two classes' `matches`. |
| EntityTypes.NewAH64ApacheHelicopter | src/Network/OpenDIS/EntityTypes.hxx:12-21 | The record built has kind PLATFORM, extra 0 and the given specific. It matches the AH64 class and no other class. |
| EntityTypes.NewSikorskyS70AHelicopter | src/Network/OpenDIS/EntityTypes.hxx:41-50 | The record built has kind PLATFORM, extra 0 and the given specific. It matches the S70A class and no other class. |
| EntityTypes.NewM1AbramsTank | src/Network/OpenDIS/EntityTypes.hxx:70-79 | The record built has kind PLATFORM, extra 0 and the given specific. It matches the M1 class and no other class. |
| EntityTypes.NewT72Tank | src/Network/OpenDIS/EntityTypes.hxx:99-108 | The record built has kind PLATFORM, extra 0 and the given specific. It matches the T72 class and no other class. |
| ModelPaths.NatToString | src/Network/OpenDIS/EntityManager.cxx:268 | `std::to_string` of a slot index is a non-empty string of decimal digits whose decimal value is that index. |
| ModelPaths.NatToStringNoLeadingZero | src/Network/OpenDIS/EntityManager.cxx:268 | The written number starts with '0' exactly when it is 0. |
| ModelPaths.NatToStringInjective | src/Network/OpenDIS/EntityManager.cxx:268 | Distinct indices are written as distinct strings. |
| ModelPaths.PropertyPathShape | src/Network/OpenDIS/EntityManager.cxx:268 | Slot 0 is "/models/model". Slot i > 0 is "/models/model[", then digits whose decimal value is i, then "]". |
| ModelPaths.PropertyPathInjective | src/Network/OpenDIS/EntityManager.cxx:268 | Two slots never share a property path. |
| Registry.ClassOfHandleIsPoolRange | src/Network/OpenDIS/EntityManager.cxx:35-51 | A handle belongs to a class exactly when it lies in that class's initial range. |
| Registry.InitialPoolsLayout | src/Network/OpenDIS/EntityManager.cxx:14-51 | After construction UH60 = [0..5], M1 = [6..19], T72 = [20..30] and AH64 = []. No handle is in two pools. |
| Registry.Classify | src/Network/OpenDIS/EntityManager.cxx:186-205 | A class found matches the type; when none is found, no class matches. |
| Registry.ClassifyIsTheUniqueMatch | src/Network/OpenDIS/EntityManager.cxx:186-205 | The T72, M1, AH64, UH60 trial order finds class c exactly when c's `matches` holds. It finds nothing exactly when no class matches. |
| Registry.ClassifyIgnoresSpecificAndExtra | src/Network/OpenDIS/EntityManager.cxx:186-205 | The class found never depends on `specific` or `extra`. |
| Registry.EntityIdLessIsStrictWeakOrder | src/Network/OpenDIS/EntityManager.hxx:15-21 | `EntityIDCompare` is irreflexive and transitive, and its incomparability is transitive, so it is a valid `std::map` ordering. |
| Registry.EquivalentIffSameEntityNumber | src/Network/OpenDIS/EntityManager.hxx:17-20 | Two IDs are the same map key exactly when their entity numbers agree; site and application never matter. |
| Registry.ClampToGround | src/Network/OpenDIS/EntityManager.cxx:226-236 | Latitude and longitude are kept. The elevation in feet becomes max(PDU elevation, ground level), so it is never below the ground. |
| Registry.ResolvePose | src/Network/OpenDIS/EntityManager.cxx:222-264 | The pose has the located position's latitude and longitude in degrees. Its elevation is at least the ground level and at least the located altitude. |
| Registry.PushPose | src/Network/OpenDIS/EntityManager.cxx:219-276 | The sink keeps every path it had and gains at most the entity's slot path. |
| Registry.WithPool | src/Network/OpenDIS/EntityManager.hxx:91-95 | Replacing one class's free list leaves the other three lists, the map and the poses unchanged. |
| Registry.PushPoseWritesOneSlot | src/Network/OpenDIS/EntityManager.cxx:219-276 | Nothing is written for a slot at or above the instance count. Otherwise exactly that slot's path gains the pose, with the elevation clamped to the ground, and every other slot's pose is kept. |
| Registry.InitialStateInvariant | src/Network/OpenDIS/EntityManager.cxx:31-51 | The constructed registry satisfies the registry invariant. |
| Registry.IssuedAfterPop | src/Network/OpenDIS/EntityManager.cxx:310-313 | A handle that has left its pool stays out of it after another pop. |
| Registry.PopKeepsPrefixesAndIssuesOne | src/Network/OpenDIS/EntityManager.cxx:310-313 | Popping a pool's back keeps every pool a prefix of its initial pool. The popped handle is base + size - 1, and it is exactly the one newly issued handle. |
| Registry.AddEntity | src/Network/OpenDIS/EntityManager.cxx:186-211 | The state changes only for a classified type whose pool is not empty, and a change to the map puts the PDU's entity number in it. |
| Registry.AddEntityIsCreateThenInsert | src/Network/OpenDIS/EntityManager.cxx:186-211 | Adding is the class's `Create*` step followed by inserting the created record, if any, under the entity number. |
| Registry.HandleEntityState | src/Network/OpenDIS/EntityManager.cxx:126-140 | For a known entity only the poses may change. |
| Registry.ProcessEntityState | src/Network/OpenDIS/EntityManager.cxx:87-93 | A PDU from ownship itself, or from another site or application, changes nothing. |
| Registry.Run | src/Network/OpenDIS/EntityManager.cxx:87-140 | Along any stream of PDUs every existing record stays under its key, unchanged. |
| Registry.InsertPreservesInvariant | src/Network/OpenDIS/EntityManager.cxx:186-211 | Popping a class's last handle and inserting a record for it under a new key keeps the registry invariant. |
| Registry.AddEntityPreservesInvariant | src/Network/OpenDIS/EntityManager.cxx:186-211 | Adding an entity that is not in the map preserves the registry invariant: pools are prefixes, keys are the entity numbers, handles are issued to their own class and held by at most one record, and every issued handle is held. |
| Registry.HandleEntityStatePreservesInvariant | src/Network/OpenDIS/EntityManager.cxx:126-140 | Handling any Entity State PDU preserves the registry invariant. |
| Registry.InvariantIgnoresPoses | src/Network/OpenDIS/EntityManager.cxx:129-137 | Writing poses cannot break the registry invariant. |
| Registry.ProcessEntityStatePreservesInvariant | src/Network/OpenDIS/EntityManager.cxx:87-93 | Processing any PDU, filtered or not, preserves the registry invariant. |
| Registry.RunPreservesInvariant | src/Network/OpenDIS/EntityManager.cxx:87-140 | The invariant holds after any stream of PDUs. |
| Registry.OnlySessionPeersChangeState | src/Network/OpenDIS/EntityManager.cxx:81-124 | If a PDU changes anything, its site and application equal ownship's and its entity number differs. |
| Registry.KnownEntityOnlyPushesPose | src/Network/OpenDIS/EntityManager.cxx:129-137 | For an entity already in the map, the keys, the records (including the stored PDU) and all pools stay the same; only the pose is pushed, using the stored record's slot. |
| Registry.NewEntityTakesLastHandle | src/Network/OpenDIS/EntityManager.cxx:305-321 | A new entity of a class with free slots gets that pool's last handle, and exactly that handle is popped. The map gains exactly one entry, under the PDU's entity number; the new record holds the PDU, and older records are untouched. |
| Registry.PoppedHandleLeavesThePools | src/Network/OpenDIS/EntityManager.cxx:310-313 | The popped handle is its class's base plus the old pool size minus one, and it is in no pool afterwards. |
| Registry.UntrackableEntityChangesNothing | src/Network/OpenDIS/EntityManager.cxx:207-210 | A new entity that matches no class, or whose class's pool is empty, leaves the whole state unchanged. |
| Registry.NoAH64EverTracked | src/Network/OpenDIS/EntityManager.cxx:341-357 | The AH64 pool is always empty, and no record is an AH64. |
| Registry.HandlesPartitioned | src/Network/OpenDIS/EntityManager.cxx:305-375 | Pooled handles are pairwise distinct, distinct from held handles, and held handles are distinct from each other. Together the pooled and held handles are exactly the 31 handles of construction. |
| Registry.StepOnlyPops | src/Network/OpenDIS/EntityManager.cxx:87-140 | One PDU leaves every pool a prefix of what it was, and keeps every existing record. |
| Registry.RunNeverReleases | src/Network/OpenDIS/EntityManager.cxx:296-298 | Along any stream of PDUs, pools only lose handles from the back, and every existing record stays as it is. |
| Registry.DetonationCheckAsWritten | src/Network/OpenDIS/EntityManager.cxx:172-175 | The as-written Detonation check, unfolded any number of times, still has no answer. |
| Registry.EntityManager.constructor | src/Network/OpenDIS/EntityManager.cxx:31-51 | The three fill loops produce the initial state: pools UH60 [0..5], M1 [6..19], T72 [20..30], AH64 empty, and an empty map. The invariant holds. |
| Registry.EntityManager.ShouldIgnorePdu | src/Network/OpenDIS/EntityManager.cxx:81-85 | No PDU is ignored by the common check. |
| DisPdu.IsSessionPeer | src/Network/OpenDIS/EntityManager.cxx:95-124 | A session peer is never ownship itself. |
| Registry.EntityManager.ShouldIgnoreEntityStatePdu | src/Network/OpenDIS/EntityManager.cxx:95-124 | The local flag ends false exactly when the PDU comes from a session peer. |
| Registry.EntityManager.ProcessEntityStatePdu | src/Network/OpenDIS/EntityManager.cxx:87-93 | The new state is the specified effect of that PDU, and the invariant is kept. |
| Registry.EntityManager.HandleEntityStatePdu | src/Network/OpenDIS/EntityManager.cxx:126-140 | A known entity gets only a pose push with its stored record. Otherwise the entity is added. |
| Registry.EntityManager.AddEntityToScene | src/Network/OpenDIS/EntityManager.cxx:186-211 | The trial-order dispatch to the `Create*` methods, followed by the insertion, has the specified add effect. |
| Registry.EntityManager.UpdateEntityInScene | src/Network/OpenDIS/EntityManager.cxx:213-294 | The sink becomes the pose push for the entity's slot: guard, ground clamp and property path. |
| Registry.EntityManager.RemoveExpiredEntities | src/Network/OpenDIS/EntityManager.cxx:296-298 | The state is unchanged. |
| Registry.EntityManager.CreateT72 | src/Network/OpenDIS/EntityManager.cxx:305-321 | With an empty pool, nothing is created, popped or pushed. Otherwise the record holds the PDU and the pool's last handle, that handle is popped, and its pose is pushed. |
| Registry.EntityManager.CreateM1 | src/Network/OpenDIS/EntityManager.cxx:323-339 | Same as `CreateT72`, for the M1 pool. |
| Registry.EntityManager.CreateAH64 | src/Network/OpenDIS/EntityManager.cxx:341-357 | Same as `CreateT72`, for the AH64 pool. |
| Registry.EntityManager.CreateUH60 | src/Network/OpenDIS/EntityManager.cxx:359-375 | Same as `CreateT72`, for the UH60 pool. |
| Registry.EntityManager.ShouldIgnoreFirePdu | src/Network/OpenDIS/EntityManager.cxx:150-153 | No Fire PDU is ignored. |
| Registry.EntityManager.ShouldIgnoreDetonationPdu | src/Network/OpenDIS/EntityManager.cxx:172-175 | Corrected: the Detonation check gives the Fire check's answer, and never ignores. |
| EntityStateProcessing.ProcessorRunKeepsMap | src/Network/OpenDIS/EntityStateProcessor.cxx:37-78 | Whatever stream of PDUs arrives, the processor's map stays what it was; started empty, it stays empty. |
| EntityStateProcessing.EntityStateProcessor.constructor | src/Network/OpenDIS/EntityStateProcessor.cxx:7-10 | The processor stores ownship, and its map starts empty. |
| EntityStateProcessing.EntityStateProcessor.ShouldIgnoreEntityPdu | src/Network/OpenDIS/EntityStateProcessor.cxx:16-35 | The result is false exactly when site and application equal ownship's and the entity number differs. |
| EntityStateProcessing.EntityStateProcessor.Process | src/Network/OpenDIS/EntityStateProcessor.cxx:71-78 | The map after the call is the specified step, which is the unchanged map, whether or not the PDU was ignored. |
| EntityStateProcessing.EntityStateProcessor.ProcessEntityPdu | src/Network/OpenDIS/EntityStateProcessor.cxx:37-51 | The lookup is by entity number, and neither branch changes the map. |
| EntityStateProcessing.EntityStateProcessor.AddEntityToScene | src/Network/OpenDIS/EntityStateProcessor.cxx:53-60 | Nothing is inserted, even for a T72. |
| EntityStateProcessing.EntityStateProcessor.UpdateEntityInScene | src/Network/OpenDIS/EntityStateProcessor.cxx:62-64 | The map is unchanged. |
| EntityStateProcessing.EntityStateProcessor.RemoveExpiredEntities | src/Network/OpenDIS/EntityStateProcessor.cxx:66-68 | The map is unchanged. |
| AircraftStates.HumanNameFromStateTag | src/GUI/QmlAircraftInfo.cxx:125-139 | The label differs from the tag exactly for the six known tags. "parking" and "cold-and-dark" share one label. Any other tag is its own label. |
| AircraftStates.StringLess | src/GUI/QmlAircraftInfo.cxx:152 | A string can be less only than a non-empty string. |
| AircraftStates.StringLessPrefixFirst | src/GUI/QmlAircraftInfo.cxx:152 | A proper prefix is less than the longer string. |
| AircraftStates.StringLessIrreflexive | src/GUI/QmlAircraftInfo.cxx:152 | No tag is less than itself. |
| AircraftStates.StringLessTransitive | src/GUI/QmlAircraftInfo.cxx:152 | The tag order is transitive. |
| AircraftStates.StringLessTotal | src/GUI/QmlAircraftInfo.cxx:152 | Any two distinct tags are ordered one way or the other. |
| AircraftStates.StateBeforeAsWritten | src/GUI/QmlAircraftInfo.cxx:149-153 | The source's comparator holds exactly when the corrected one does or both tags are "auto". |
| AircraftStates.StateBefore | src/GUI/QmlAircraftInfo.cxx:149-153 | Nothing is before an "auto" state. |
| AircraftStates.AsWrittenComparatorIsNotIrreflexive | src/GUI/QmlAircraftInfo.cxx:149-153 | As written, the sort comparator says that an "auto" state is before itself. |
| AircraftStates.ComparatorsAgreeUnlessBothAuto | src/GUI/QmlAircraftInfo.cxx:149-153 | The as-written and corrected comparators differ exactly on pairs of two "auto" states. |
| AircraftStates.StateBeforeIsStrictWeakOrder | src/GUI/QmlAircraftInfo.cxx:149-153 | The corrected comparator is irreflexive and transitive, and its incomparability is transitive. Two states are equivalent under it exactly when their tags agree. |
| AircraftStates.InsertState | src/GUI/QmlAircraftInfo.cxx:149-153 | Inserting grows the list by one entry. |
| AircraftStates.SortStates | src/GUI/QmlAircraftInfo.cxx:149-153 | Sorting keeps the length. |
| AircraftStates.InsertStatePermutes | src/GUI/QmlAircraftInfo.cxx:149-153 | Inserting a state adds exactly that state to the multiset of entries. |
| AircraftStates.InsertStateSorted | src/GUI/QmlAircraftInfo.cxx:149-153 | Inserting into a sorted list keeps it sorted. |
| AircraftStates.SortStatesCorrect | src/GUI/QmlAircraftInfo.cxx:149-153 | The sorted list is a permutation of the input and is in comparator order. |
| AircraftStates.NoAutoIffZeroCount | src/GUI/QmlAircraftInfo.cxx:149-153 | The "auto" count is 0 exactly when no entry is "auto". |
| AircraftStates.AtMostOneAutoIffCount | src/GUI/QmlAircraftInfo.cxx:149-153 | No two entries are "auto" exactly when the "auto" count is at most 1. |
| AircraftStates.InsertStateAutoCount | src/GUI/QmlAircraftInfo.cxx:149-153 | Inserting adds one to the "auto" count exactly for an "auto" state. |
| AircraftStates.SortStatesAutoCount | src/GUI/QmlAircraftInfo.cxx:149-153 | Sorting keeps the "auto" count. |
| AircraftStates.ComparatorsAgreeOnDistinctEntries | src/GUI/QmlAircraftInfo.cxx:149-153 | With at most one "auto" state, the source's and the corrected comparator agree on every two distinct entries. |
| AircraftStates.SortedUnderAsWrittenComparator | src/GUI/QmlAircraftInfo.cxx:149-153 | With at most one "auto" state, the sorted list is also ordered under the source's comparator. |
| AircraftStates.SortedFrontIsAutoIffPresent | src/GUI/QmlAircraftInfo.cxx:155-157 | After sorting, the first entry is "auto" exactly when the input has an "auto" state. |
| AircraftStates.ArrangedStates | src/GUI/QmlAircraftInfo.cxx:145-167 | The list has the input's length or one more, and starts with an "auto" state or with "__default__". |
| AircraftStates.ArrangedStatesWithAuto | src/GUI/QmlAircraftInfo.cxx:145-157 | With an "auto" state, the list is a sorted permutation of the input with the same length and "auto" at index 0. |
| AircraftStates.ArrangedStatesWithoutAuto | src/GUI/QmlAircraftInfo.cxx:155-165 | Without an "auto" state, "__default__" is inserted at index 0 and the length grows by one. No row is "auto", and the rest is a sorted permutation of the input. |
| AircraftStates.ArrangedTagsAscend | src/GUI/QmlAircraftInfo.cxx:145-167 | In either case, the non-"auto" entries after the first ascend by tag. |
| AircraftStates.IndexOfTag | src/GUI/QmlAircraftInfo.cxx:169-179 | The result is the first index whose tag is equal, or -1 exactly when no tag is equal. |
| AircraftStates.StatesModel.constructor | src/GUI/QmlAircraftInfo.cxx:145-167 | It needs a non-empty input with at most one "auto" state, which `std::sort` needs to be defined. `_data` becomes the arranged list, and `_explicitAutoState` holds exactly when the input has an "auto" state. |
| AircraftStates.StatesModel.IndexForTag | src/GUI/QmlAircraftInfo.cxx:169-179 | The result is -1 or a row whose tag is the one asked for. |
| AircraftStates.StatesModel.RowCount | src/GUI/QmlAircraftInfo.cxx:181-184 | A constructed model has as many rows as states, or one more. |
| AircraftStates.StatesModel.Data | src/GUI/QmlAircraftInfo.cxx:186-206 | There is no value (`at` throws) exactly for a row outside the list. |
| AircraftStates.ExplicitRoleAlwaysTrue | src/GUI/QmlAircraftInfo.cxx:199-203 | In a constructed model the explicit role is true for every row. An "auto" row exists only when the aircraft supplied it, and then `_explicitAutoState` is set. |
| AircraftStates.IndexForTagFindsFirst | src/GUI/QmlAircraftInfo.cxx:169-179 | `indexForTag` finds the first row with the tag, or -1 when there is none. "auto" is found at 0 when supplied; otherwise "__default__" is at 0 and "auto" is not found. |
| AircraftInfo.ResolveVariant | src/GUI/QmlAircraftInfo.cxx:437-444 | Variant 0 (or below) resolves to the primary item, and variant v > 0 to `variants[v-1]`. There is no item (`at` throws) exactly past the last variant. |
| AircraftInfo.PanelVariantOfCacheIndex | src/GUI/QmlAircraftInfo.cxx:483-487 | The panel variant is never negative, and a cache index of -1 or more is shifted up by one. |
| AircraftInfo.CacheIndexRoundTrip | src/GUI/QmlAircraftInfo.cxx:483-487 | After the cache index is shifted by one, resolving gives back the variant at that cache index, or the primary item for -1. |
| AircraftInfo.InRangeVariantsResolve | src/GUI/QmlAircraftInfo.cxx:249 | Every on-disk variant index below `numVariants` resolves: 0 to the primary item, v > 0 to `variants[v-1]`. |
| AircraftInfo.QmlAircraftInfo.constructor | src/GUI/QmlAircraftInfo.cxx:223-227 | A new panel has no item, no package, variant 0 and no states model. |
| AircraftInfo.QmlAircraftInfo.NumVariants | src/GUI/QmlAircraftInfo.cxx:245-256 | The count is never negative. On disk every variant below the count resolves to an item and the count itself does not. For a package it is the package's variant count. With neither it is 0. |
| AircraftInfo.QmlAircraftInfo.ResolveItem | src/GUI/QmlAircraftInfo.cxx:437-444 | On a consistent panel the selected variant always resolves, and variant 0 or below is the primary item. |
| AircraftInfo.QmlAircraftInfo.SelectLocalFile | src/GUI/QmlAircraftInfo.cxx:466-500 | The package and the states model are cleared, and the cache's item is selected. When it is not found, the variant is left as it was and there is no states model. When it is found, the variant is the cache index plus one, or 0 for the primary item, and the states are re-read: no model without a path or without states, otherwise a fresh model of exactly those states. |
| AircraftInfo.QmlAircraftInfo.SetVariant | src/GUI/QmlAircraftInfo.cxx:507-525 | The variant is unchanged and no signal is sent when nothing is selected or the index is outside [0, numVariants). Otherwise the variant becomes the argument, and the change signal is sent exactly when it differs from the old variant. Without a change the states model is kept; after a change the states are re-read as in `checkForStates`. |
| AircraftInfo.QmlAircraftInfo.CheckForStates | src/GUI/QmlAircraftInfo.cxx:446-464 | Without a path on disk, or with no states, there is no states model. Otherwise there is a fresh model of exactly those states, so the model's non-empty precondition always holds. The states read must hold at most one "auto" state. |
| AircraftInfo.SelectedVariantResolves | src/GUI/QmlAircraftInfo.cxx:437-444 | On a panel whose variant is in range, the selected on-disk variant always resolves, and variant 0 is the primary item. |

## Left out

- The coordinate-frame and WGS84 mathematics are not part of this model: the ECEF to geodetic conversion, the NED frame, the Euler-angle extraction, and the 180 degree roll offset (`EntityManager.cxx:222-264`). They are floating-point trigonometry built on SimGear routines that are not shown. A `Scene` parameter supplies them as opaque functions.
- The terrain elevation query and the number of loaded model instances come from the flight-dynamics and model-manager subsystems. They are `Scene` parameters.
- `fgSetDouble` is modelled as a map from property path to the pose written. The six separate property writes, and the `/models` property initialisation in the constructor (`EntityManager.cxx:53-74`), are not modelled.
- `PerformExtra` is debug-only test code.
- The `SG_LOG` calls are not modelled, including the `SG_ALERT` for an ignored Entity State PDU (`EntityManager.cxx:115`).
- The Fire and Detonation handlers (`EntityManager.cxx:155-162`, `177-184`) look an entity up and then do nothing, so they have no effect to model. Only their filters are modelled.
- Registry.EntityManager.ShouldIgnorePdu: it takes only the exercise ID, because the source's check ignores its argument.
- Socket I/O, PDU marshalling and the `OpenDIS.cxx` drain loop are not modelled. The handler registrations under type codes 1, 2 and 3 appear only as the `PduType` codes. The ownship ID defaults in `OpenDIS.cxx` are not needed, because ownship is a constructor parameter.
- The unchecked `static_cast` from the generic `DIS::Pdu` to the concrete PDU type (`PDUHandlers.hxx:19`, `EntityStateProcessor.cxx:73`) is not modelled: handlers receive PDUs of their own type.
- DIS PDU parsing and its byte layout belong to the Open-DIS library, which is not part of this model. PDUs are records here.
- UnitTypes: `double` rounding is not modelled. With exact reals the conversion round trips hold exactly; in the source they hold only up to rounding.
- Registry.Entity: `size_t` slot indices are unbounded `nat`s. Only 31 slots exist, so no wrap-around is possible.
- EntityStateProcessing: the processor's `Entity` type is not declared where it can be seen, so the registry's `Entity` record stands in for it. The processor's header does not declare the ownship constructor or the map that its implementation uses; the implementation is modelled.
- AircraftStates.SortStates: `std::sort` is not stable. The model's insertion sort fixes one order among states with equal tags. The properties stated (sorted, a permutation, "auto" first) hold for every order `std::sort` may produce.
- AircraftStates.StatesModel.Data: the display role's `QObject::tr` translation is not modelled. Labels are the English source strings. `roleNames` is not modelled.
- `readAircraftStates` is not modelled, because it loads XML from disk. Its result is the `statesOnDisk` parameter of `CheckForStates`.
- `pathOnDisk` and the package root are not modelled. The path is a parameter.
- AircraftInfo.QmlAircraftInfo.SetVariant: Qt signals appear only as the `notified` result. The states re-read after a change come from the disk, so the new variant's path and states are parameters.
- AircraftInfo.QmlAircraftInfo.SelectLocalFile: only the local-file branch of `setUri` is modelled. The package branch needs the package root, which is not shown. The early return for an unchanged URI compares `QUrl`s, which are not modelled. The `uriChanged`, `infoChanged` and `downloadChanged` signals are not modelled. The path and states that `checkForStates` reads are parameters.
- AircraftStates.StatesModel.constructor, AircraftInfo.QmlAircraftInfo.CheckForStates, SelectLocalFile and SetVariant require at most one "auto" state. With two, the source's comparator is not a strict weak order and `std::sort` has undefined behaviour (see Findings), so there is no defined result to model.
- AircraftStates.ComparatorsAgreeOnDistinctEntries: the comparators are compared only on entries at distinct positions; on one "auto" entry compared with itself they differ, as AsWrittenComparatorIsNotIrreflexive shows.
- Registry.AddEntity, Registry.HandleEntityState, Registry.ProcessEntityState, Registry.Run: their own contracts state only part of their effect. The complete effect is stated by AddEntityIsCreateThenInsert, KnownEntityOnlyPushesPose, NewEntityTakesLastHandle, UntrackableEntityChangesNothing, OnlySessionPeersChangeState and RunNeverReleases.
- The initial value of `_variant` is declared in a header that is not part of this model. The constructor assumes 0.
- AircraftInfo.PackageInfo: a package's variant list and `indexOfVariant` are not shown. Variants of packaged aircraft are only counted.

## Findings

| source | as written | input that shows it | evidently intended | confidence | as-written member | corrected member |
|---|---|---|---|---|---|---|
| src/Network/OpenDIS/EntityManager.cxx:172-175 | `ShouldIgnoreDetonationPDU` returns a call to itself with the same argument. | Any Detonation PDU: the call never returns. | Return `ShouldIgnorePDU(detonationPDU)`, as the Fire check does at line 152. | high; not executed | Registry.DetonationCheckAsWritten | Registry.EntityManager.ShouldIgnoreDetonationPdu |
| src/GUI/QmlAircraftInfo.cxx:149-153 | The comparator returns true whenever the first state's tag is "auto", including when both tags are "auto". | An aircraft whose set file declares two states tagged "auto". `std::sort` then gets a comparator that is not a strict weak order, because comp(x, x) is true, and the behaviour is undefined. | Return false when both tags are "auto", and order the rest by tag. | medium; not executed | AircraftStates.AsWrittenComparatorIsNotIrreflexive | AircraftStates.StateBeforeIsStrictWeakOrder |
