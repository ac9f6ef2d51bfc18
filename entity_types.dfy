/** The four vehicle classes the registry recognises. Each class has a constructor,
    which builds its Entity Type record by setting the seven fields one after another,
    and a `Matches` predicate, which compares five of the seven fields of an incoming
    record with the class's codes. */
module EntityTypes {
  import opened DisPdu
  import opened Enumerations

  /** `static_cast<unsigned char>` of an enumeration code. */
  function AsUnsignedChar(code: int): u8
  {
    (code % 0x100) as u8
  }

  /** `static_cast<unsigned short>`. */
  function AsUnsignedShort(code: int): u16
  {
    (code % 0x1_0000) as u16
  }

  /** `matches` casts the country code to `unsigned char` before comparing it with
      the 16-bit country field. For the two countries the classes use the cast loses
      nothing; for RUSSIA (260) it would. */
  lemma CountryCastLossless()
    ensures AsUnsignedChar(UnitedStates.Code() as int) as int == UnitedStates.Code() as int
    ensures AsUnsignedChar(Cis.Code() as int) as int == Cis.Code() as int
    ensures AsUnsignedChar(Russia.Code() as int) as int != Russia.Code() as int
  {
  }

  // ----- matches -----

  function AH64ApacheHelicopterMatches(check: EntityType): (r: bool)
    ensures r <==> HasCodes(check, 1, 2, 225, 20, 1)
  {
    && check.category == AsUnsignedChar(AttackHelicopter.Code() as int)
    && check.country as int == AsUnsignedChar(UnitedStates.Code() as int) as int
    && check.domain == AsUnsignedChar(Air.Code() as int)
    && check.kind == AsUnsignedChar(Platform.Code() as int)
    && check.subcategory == AsUnsignedChar(AH64Apache.Code() as int)
  }

  function SikorskyS70AHelicopterMatches(check: EntityType): (r: bool)
    ensures r <==> HasCodes(check, 1, 2, 225, 21, 0)
  {
    && check.category == AsUnsignedChar(UtilityHelicopter.Code() as int)
    && check.country as int == AsUnsignedChar(UnitedStates.Code() as int) as int
    && check.domain == AsUnsignedChar(Air.Code() as int)
    && check.kind == AsUnsignedChar(Platform.Code() as int)
    && check.subcategory == AsUnsignedChar(SikorskyS70A.Code() as int)
  }

  function M1AbramsTankMatches(check: EntityType): (r: bool)
    ensures r <==> HasCodes(check, 1, 1, 225, 1, 1)
  {
    && check.category == AsUnsignedChar(Tank.Code() as int)
    && check.country as int == AsUnsignedChar(UnitedStates.Code() as int) as int
    && check.domain == AsUnsignedChar(Land.Code() as int)
    && check.kind == AsUnsignedChar(Platform.Code() as int)
    && check.subcategory == AsUnsignedChar(M1Abrams.Code() as int)
  }

  function T72TankMatches(check: EntityType): (r: bool)
    ensures r <==> HasCodes(check, 1, 1, 222, 1, 2)
  {
    && check.category == AsUnsignedChar(Tank.Code() as int)
    && check.country as int == AsUnsignedChar(Cis.Code() as int) as int
    && check.domain == AsUnsignedChar(Land.Code() as int)
    && check.kind == AsUnsignedChar(Platform.Code() as int)
    && check.subcategory == AsUnsignedChar(T72Mbt.Code() as int)
  }

  /** The five fields every class compares; `specific` and `extra` are not among them. */
  predicate HasCodes(t: EntityType, kind: u8, domain: u8, country: u16, category: u8, subcategory: u8)
  {
    t.kind == kind && t.domain == domain && t.country == country
    && t.category == category && t.subcategory == subcategory
  }

  /** Each `matches` is exactly a comparison of the five class fields with the
      class's numeric codes. */
  lemma MatchesCompareFiveFields(t: EntityType)
    ensures AH64ApacheHelicopterMatches(t) <==> HasCodes(t, 1, 2, 225, 20, 1)
    ensures SikorskyS70AHelicopterMatches(t) <==> HasCodes(t, 1, 2, 225, 21, 0)
    ensures M1AbramsTankMatches(t) <==> HasCodes(t, 1, 1, 225, 1, 1)
    ensures T72TankMatches(t) <==> HasCodes(t, 1, 1, 222, 1, 2)
  {
  }

  lemma MatchesIgnoresSpecificAndExtra(t: EntityType, specific: u8, extra: u8)
    ensures var u := t.(specific := specific, extra := extra);
      && (AH64ApacheHelicopterMatches(u) <==> AH64ApacheHelicopterMatches(t))
      && (SikorskyS70AHelicopterMatches(u) <==> SikorskyS70AHelicopterMatches(t))
      && (M1AbramsTankMatches(u) <==> M1AbramsTankMatches(t))
      && (T72TankMatches(u) <==> T72TankMatches(t))
  {
  }

  /** No record satisfies two classes: tanks and helicopters differ in domain, the two
      tanks in country, the two helicopters in category. */
  lemma MatchesDisjoint(t: EntityType)
    ensures !(T72TankMatches(t) && M1AbramsTankMatches(t))
    ensures !(T72TankMatches(t) && AH64ApacheHelicopterMatches(t))
    ensures !(T72TankMatches(t) && SikorskyS70AHelicopterMatches(t))
    ensures !(M1AbramsTankMatches(t) && AH64ApacheHelicopterMatches(t))
    ensures !(M1AbramsTankMatches(t) && SikorskyS70AHelicopterMatches(t))
    ensures !(AH64ApacheHelicopterMatches(t) && SikorskyS70AHelicopterMatches(t))
  {
  }

  // ----- constructors -----

  method NewAH64ApacheHelicopter(specific: SpecificAH64Apache) returns (t: EntityType)
    ensures t.kind == Platform.Code() && t.extra == 0 && t.specific == specific.Code()
    ensures AH64ApacheHelicopterMatches(t)
    ensures !SikorskyS70AHelicopterMatches(t) && !M1AbramsTankMatches(t) && !T72TankMatches(t)
  {
    t := ZeroEntityType;
    t := t.(category := AsUnsignedChar(AttackHelicopter.Code() as int));
    t := t.(country := AsUnsignedShort(UnitedStates.Code() as int));
    t := t.(domain := AsUnsignedChar(Air.Code() as int));
    t := t.(kind := AsUnsignedChar(Platform.Code() as int));
    t := t.(extra := 0);
    t := t.(specific := AsUnsignedChar(specific.Code() as int));
    t := t.(subcategory := AsUnsignedChar(AH64Apache.Code() as int));
  }

  method NewSikorskyS70AHelicopter(specific: SpecificSikorskyS70A) returns (t: EntityType)
    ensures t.kind == Platform.Code() && t.extra == 0 && t.specific == specific.Code()
    ensures SikorskyS70AHelicopterMatches(t)
    ensures !AH64ApacheHelicopterMatches(t) && !M1AbramsTankMatches(t) && !T72TankMatches(t)
  {
    t := ZeroEntityType;
    t := t.(category := AsUnsignedChar(UtilityHelicopter.Code() as int));
    t := t.(country := AsUnsignedShort(UnitedStates.Code() as int));
    t := t.(domain := AsUnsignedChar(Air.Code() as int));
    t := t.(kind := AsUnsignedChar(Platform.Code() as int));
    t := t.(extra := 0);
    t := t.(specific := AsUnsignedChar(specific.Code() as int));
    t := t.(subcategory := AsUnsignedChar(SikorskyS70A.Code() as int));
  }

  method NewM1AbramsTank(specific: SpecificUsM1Abrams) returns (t: EntityType)
    ensures t.kind == Platform.Code() && t.extra == 0 && t.specific == specific.Code()
    ensures M1AbramsTankMatches(t)
    ensures !AH64ApacheHelicopterMatches(t) && !SikorskyS70AHelicopterMatches(t) && !T72TankMatches(t)
  {
    t := ZeroEntityType;
    t := t.(category := AsUnsignedChar(Tank.Code() as int));
    t := t.(country := AsUnsignedShort(UnitedStates.Code() as int));
    t := t.(domain := AsUnsignedChar(Land.Code() as int));
    t := t.(kind := AsUnsignedChar(Platform.Code() as int));
    t := t.(extra := 0);
    t := t.(specific := AsUnsignedChar(specific.Code() as int));
    t := t.(subcategory := AsUnsignedChar(M1Abrams.Code() as int));
  }

  method NewT72Tank(specific: SpecificT72) returns (t: EntityType)
    ensures t.kind == Platform.Code() && t.extra == 0 && t.specific == specific.Code()
    ensures T72TankMatches(t)
    ensures !AH64ApacheHelicopterMatches(t) && !SikorskyS70AHelicopterMatches(t) && !M1AbramsTankMatches(t)
  {
    t := ZeroEntityType;
    t := t.(category := AsUnsignedChar(Tank.Code() as int));
    t := t.(country := AsUnsignedShort(Cis.Code() as int));
    t := t.(domain := AsUnsignedChar(Land.Code() as int));
    t := t.(kind := AsUnsignedChar(Platform.Code() as int));
    t := t.(extra := 0);
    t := t.(specific := AsUnsignedChar(specific.Code() as int));
    t := t.(subcategory := AsUnsignedChar(T72Mbt.Code() as int));
  }
}
