/** The DIS enumeration constants the core uses, each an enumeration with the
    numeric code of the SISO enumerations document (SISO-STD-010). Every `Code`
    function gives the value the C++ `enum class` assigns, in the enum's underlying
    width; the lemmas state that distinct enumerators have distinct codes. */
module Enumerations {
  import opened DisPdu

  datatype PduType = EntityState | Fire | Detonation | Collision
  {
    function Code(): u8
    {
      match this
      case EntityState => 1
      case Fire => 2
      case Detonation => 3
      case Collision => 4
    }
  }

  datatype EntityKind =
    | KindOther | Platform | Munition | LifeForm | Environmental
    | CulturalFeature | Supply | Radio | Expendable | SensorEmitter
  {
    function Code(): u8
    {
      match this
      case KindOther => 0
      case Platform => 1
      case Munition => 2
      case LifeForm => 3
      case Environmental => 4
      case CulturalFeature => 5
      case Supply => 6
      case Radio => 7
      case Expendable => 8
      case SensorEmitter => 9
    }
  }

  datatype CountryCode = PeoplesRepublicOfChina | Cis | UnitedStates | Russia
  {
    function Code(): u16
    {
      match this
      case PeoplesRepublicOfChina => 45
      case Cis => 222
      case UnitedStates => 225
      case Russia => 260
    }
  }

  datatype Domain = DomainOther | Land | Air | Surface | Subsurface | Space
  {
    function Code(): u8
    {
      match this
      case DomainOther => 0
      case Land => 1
      case Air => 2
      case Surface => 3
      case Subsurface => 4
      case Space => 5
    }
  }

  datatype Category = Tank | AttackHelicopter | UtilityHelicopter
  {
    function Code(): u8
    {
      match this
      case Tank => 1
      case AttackHelicopter => 20
      case UtilityHelicopter => 21
    }
  }

  /** Subcategories, one enumeration per (country, category) pair as in the source. */
  datatype SubCategoryUsTank = M1Abrams
  {
    function Code(): u8 { 1 }
  }

  datatype SubCategoryUsAttackHelicopter = AH64Apache
  {
    function Code(): u8 { 1 }
  }

  /** The single enumerator has no initialiser, so C++ gives it the value 0. */
  datatype SubCategoryUsUtilityHelicopter = SikorskyS70A
  {
    function Code(): u8 { 0 }
  }

  datatype SubCategoryCisTank = T80Mbt | T72Mbt
  {
    function Code(): u8
    {
      match this
      case T80Mbt => 1
      case T72Mbt => 2
    }
  }

  datatype SpecificUsM1Abrams =
    | M1 | M1A1 | M1A2 | M1A1MineRollers | M1A1MinePlows
    | M1A1DuArmor | M1A2Cvcc | M1A2Sep | M1A1D
  {
    function Code(): u8
    {
      match this
      case M1 => 1
      case M1A1 => 2
      case M1A2 => 3
      case M1A1MineRollers => 4
      case M1A1MinePlows => 5
      case M1A1DuArmor => 6
      case M1A2Cvcc => 7
      case M1A2Sep => 8
      case M1A1D => 9
    }
  }

  datatype SpecificAH64Apache = AH64A | AH64B | AH64C | AH64DLongbow | Petan | AH64D
  {
    function Code(): u8
    {
      match this
      case AH64A => 1
      case AH64B => 2
      case AH64C => 3
      case AH64DLongbow => 4
      case Petan => 5
      case AH64D => 6
    }
  }

  /** The value 4 is skipped in the source. */
  datatype SpecificSikorskyS70A = UH60ABlackhawk | UH60LBlackhawk | EH60C | VH60N | UH60P
  {
    function Code(): u8
    {
      match this
      case UH60ABlackhawk => 1
      case UH60LBlackhawk => 2
      case EH60C => 3
      case VH60N => 5
      case UH60P => 6
    }
  }

  datatype SpecificT72 = T72 | T72M | T72K | T72A | T72AK | T72B | T72BK | T72B1 | T72B1K
  {
    function Code(): u8
    {
      match this
      case T72 => 1
      case T72M => 2
      case T72K => 3
      case T72A => 4
      case T72AK => 5
      case T72B => 6
      case T72BK => 7
      case T72B1 => 8
      case T72B1K => 9
    }
  }

  lemma PduTypeCodesDistinct(a: PduType, b: PduType)
    ensures a.Code() == b.Code() <==> a == b
  {
  }

  lemma EntityKindCodesDistinct(a: EntityKind, b: EntityKind)
    ensures a.Code() == b.Code() <==> a == b
  {
  }

  lemma CountryCodesDistinct(a: CountryCode, b: CountryCode)
    ensures a.Code() == b.Code() <==> a == b
  {
  }

  lemma DomainCodesDistinct(a: Domain, b: Domain)
    ensures a.Code() == b.Code() <==> a == b
  {
  }

  lemma CategoryCodesDistinct(a: Category, b: Category)
    ensures a.Code() == b.Code() <==> a == b
  {
  }

  /** The subcategory codes the four vehicle classes use: only the utility
      helicopter's is 0. */
  lemma SubCategoryCodes()
    ensures SikorskyS70A.Code() == 0
    ensures M1Abrams.Code() >= 1 && AH64Apache.Code() >= 1 && T72Mbt.Code() >= 1
    ensures T80Mbt.Code() != T72Mbt.Code()
  {
  }
}
