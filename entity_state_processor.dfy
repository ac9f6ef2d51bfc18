/** `EntityStateProcessor`, the earlier revision of the registry: the same session
    filter (without the exercise check), a map keyed by the entity number alone, and
    stubs where the registry inserts and updates. As written its map never changes. */
module EntityStateProcessing {
  import opened DisPdu
  import opened EntityTypes
  import Registry

  /** One PDU's effect on the processor's map. A peer's PDU for a known entity goes to
      the empty `UpdateEntityInScene`; one for a new entity goes to `AddEntityToScene`,
      whose T72 branch is a stub. */
  function ProcessorStep(m: map<u16, Registry.Entity>, ownship: EntityId, pdu: EntityStatePdu)
    : map<u16, Registry.Entity>
  {
    if !IsSessionPeer(ownship, pdu.entityId) then m
    else if pdu.entityId.entity in m then m
    else m
  }

  function ProcessorRun(m: map<u16, Registry.Entity>, ownship: EntityId, pdus: seq<EntityStatePdu>)
    : map<u16, Registry.Entity>
    decreases |pdus|
  {
    if pdus == [] then m else ProcessorRun(ProcessorStep(m, ownship, pdus[0]), ownship, pdus[1..])
  }

  /** Whatever PDUs arrive, the map is what it was; started empty it stays empty. */
  lemma {:induction false} ProcessorRunKeepsMap(m: map<u16, Registry.Entity>, ownship: EntityId,
                                                pdus: seq<EntityStatePdu>)
    ensures ProcessorRun(m, ownship, pdus) == m
    ensures m == map[] ==> |ProcessorRun(m, ownship, pdus)| == 0
    decreases |pdus|
  {
    if pdus != [] {
      ProcessorRunKeepsMap(ProcessorStep(m, ownship, pdus[0]), ownship, pdus[1..]);
    }
  }

  class EntityStateProcessor {
    const ownship: EntityStatePdu
    var entityMap: map<u16, Registry.Entity>

    constructor (ownship: EntityStatePdu)
      ensures this.ownship == ownship && entityMap == map[]
    {
      this.ownship := ownship;
      entityMap := map[];
    }

    method ShouldIgnoreEntityPdu(packet: EntityStatePdu) returns (shouldIgnore: bool)
      ensures shouldIgnore <==> !IsSessionPeer(ownship.entityId, packet.entityId)
    {
      shouldIgnore := true;
      var incomingEntityId := packet.entityId;
      var ownshipEntityId := ownship.entityId;

      // Only PDUs with ownship's site and application, and not ownship's own.
      if incomingEntityId.site == ownshipEntityId.site
         && incomingEntityId.application == ownshipEntityId.application
      {
        if incomingEntityId.entity != ownshipEntityId.entity {
          shouldIgnore := false;
        }
      }
    }

    method Process(packet: EntityStatePdu)
      modifies this
      ensures entityMap == ProcessorStep(old(entityMap), ownship.entityId, packet)
      ensures entityMap == old(entityMap)
    {
      var ignore := ShouldIgnoreEntityPdu(packet);
      if !ignore {
        ProcessEntityPdu(packet);
      }
    }

    method ProcessEntityPdu(entityPdu: EntityStatePdu)
      modifies this
      ensures entityMap == old(entityMap)
    {
      var key := entityPdu.entityId.entity;
      if key !in entityMap {
        AddEntityToScene(entityPdu);
      } else {
        UpdateEntityInScene(entityMap[key], entityPdu);
      }
      RemoveExpiredEntities();
    }

    method AddEntityToScene(entityPdu: EntityStatePdu)
      modifies this
      ensures entityMap == old(entityMap)
    {
      if T72TankMatches(entityPdu.entityType) {
        // the source adds nothing here
      }
    }

    method UpdateEntityInScene(entity: Registry.Entity, entityPdu: EntityStatePdu)
      modifies this
      ensures entityMap == old(entityMap)
    {
    }

    method RemoveExpiredEntities()
      modifies this
      ensures entityMap == old(entityMap)
    {
    }
  }
}
