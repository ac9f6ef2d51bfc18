/** Wire-level vocabulary of the DIS protocol (IEEE 1278.1) as far as the entity
    registry consumes it: the Entity ID triple, the seven-field Entity Type record and
    the few fields of the Entity State, Fire and Detonation PDUs that are read.
    The Open-DIS library classes that carry these values are not part of this model;
    only their fields are. */
module DisPdu {

  /** `unsigned char` on the wire. */
  newtype u8 = x: int | 0 <= x < 0x100

  /** `unsigned short` on the wire. */
  newtype u16 = x: int | 0 <= x < 0x1_0000

  datatype Option<T> = None | Some(value: T)

  /** `DIS::EntityID`: site, application and entity number. */
  datatype EntityId = EntityId(site: u16, application: u16, entity: u16)

  /** `DIS::EntityType`: the seven-field classification record (section 6.2.30 of
      IEEE 1278.1-2012). `country` is 16 bits wide, every other field 8 bits. */
  datatype EntityType = EntityType(
    kind: u8, domain: u8, country: u16, category: u8,
    subcategory: u8, specific: u8, extra: u8)

  /** The record a default-constructed `DIS::EntityType` holds: every field zero. */
  const ZeroEntityType := EntityType(0, 0, 0, 0, 0, 0, 0)

  /** Entity location in Earth-centred Earth-fixed metres. */
  datatype Vector3 = Vector3(x: real, y: real, z: real)

  /** Entity orientation as the DIS Euler triple (psi, theta, phi), radians. */
  datatype Orientation = Orientation(psi: real, theta: real, phi: real)

  /** The fields of an Entity State PDU (section 7.2.2 of IEEE 1278.1-2012) that the
      registry reads. */
  datatype EntityStatePdu = EntityStatePdu(
    exerciseId: u8,
    entityId: EntityId,
    entityType: EntityType,
    location: Vector3,
    orientation: Orientation)

  /** The identifying fields of a Fire and of a Detonation PDU. */
  datatype FirePdu = FirePdu(exerciseId: u8, firingEntityId: EntityId)
  datatype DetonationPdu = DetonationPdu(exerciseId: u8, targetEntityId: EntityId)

  /** Session filter shared by both entity processors: a PDU is of interest when it
      comes from the same site and application as ownship but is not ownship itself. */
  function IsSessionPeer(ownship: EntityId, incoming: EntityId): (r: bool)
    ensures r ==> incoming != ownship
  {
    && incoming.site == ownship.site
    && incoming.application == ownship.application
    && incoming.entity != ownship.entity
  }
}
