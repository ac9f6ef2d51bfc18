/** Immutable unit wrappers: an `Angle` stores radians and a `Distance` stores metres;
    the factories and accessors convert. The source computes in `double`; this model
    computes in exact reals, where every conversion round trip is exact. */
module UnitTypes {

  /** `osg::PI`. */
  const PI: real := 3.14159265358979323846

  /** SimGear's `SG_METER_TO_FEET`. */
  const METER_TO_FEET: real := 3.28083989501312335

  /** `osg::DegreesToRadians` and `osg::RadiansToDegrees`. */
  function DegreesToRadians(degrees: real): (r: real)
    ensures (r < 0.0 <==> degrees < 0.0) && (r == 0.0 <==> degrees == 0.0)
    ensures RadiansToDegrees(r) == degrees
  {
    degrees * PI / 180.0
  }

  function RadiansToDegrees(radians: real): (r: real)
    ensures (r < 0.0 <==> radians < 0.0) && (r == 0.0 <==> radians == 0.0)
  {
    radians * 180.0 / PI
  }

  datatype Angle = Angle(radians: real)
  {
    function InRadians(): (r: real)
      ensures AngleFromRadians(r) == this
    {
      radians
    }

    function InDegrees(): (r: real)
      ensures AngleFromDegrees(r) == this
    {
      RadiansToDegrees(radians)
    }
  }

  datatype Distance = Distance(meters: real)
  {
    function InMeters(): (r: real)
      ensures DistanceFromMeters(r) == this
    {
      meters
    }

    function InFeet(): (r: real)
      ensures DistanceFromFeet(r) == this
    {
      meters * METER_TO_FEET
    }
  }

  /** `Angle(double radians = 0.0)`. */
  function NewAngle(radians: real := 0.0): (a: Angle)
    ensures a.radians == radians
  {
    Angle(radians)
  }

  function AngleFromRadians(radians: real): (a: Angle)
    ensures a.radians == radians
  {
    NewAngle(radians)
  }

  function AngleFromDegrees(degrees: real): (a: Angle)
    ensures a.radians * 180.0 == degrees * PI
  {
    NewAngle(DegreesToRadians(degrees))
  }

  /** `Distance(double meters = 0.0)`. */
  function NewDistance(meters: real := 0.0): (d: Distance)
    ensures d.meters == meters
  {
    Distance(meters)
  }

  function DistanceFromMeters(meters: real): (d: Distance)
    ensures d.meters == meters
  {
    NewDistance(meters)
  }

  function DistanceFromFeet(feet: real): (d: Distance)
    ensures d.meters * METER_TO_FEET == feet
  {
    NewDistance(feet / METER_TO_FEET)
  }

  lemma ConstantsPositive()
    ensures PI > 0.0 && METER_TO_FEET > 0.0
  {
  }

  lemma DefaultsAreZero()
    ensures NewAngle().InRadians() == 0.0 && NewAngle().InDegrees() == 0.0
    ensures NewDistance().InMeters() == 0.0 && NewDistance().InFeet() == 0.0
  {
  }

  lemma RadiansRoundTrip(r: real)
    ensures AngleFromRadians(r).InRadians() == r
  {
  }

  lemma DegreesRoundTrip(d: real)
    ensures AngleFromDegrees(d).InDegrees() == d
  {
  }

  lemma MetersRoundTrip(m: real)
    ensures DistanceFromMeters(m).InMeters() == m
  {
  }

  lemma FeetRoundTrip(f: real)
    ensures DistanceFromFeet(f).InFeet() == f
  {
  }

  /** Both scales preserve order, so comparing in feet or in metres agrees. */
  lemma FeetOrderMatchesMeters(a: Distance, b: Distance)
    ensures a.InFeet() < b.InFeet() <==> a.InMeters() < b.InMeters()
  {
  }
}
