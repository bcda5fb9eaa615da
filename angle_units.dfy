/**
 * The angle unit registry: the unit tags, the suffix table `from_suffix`
 * looks up, and the conversions to radians and to degrees.
 */
module AngleUnits {
  import opened Options

  datatype AngleUnit = Degree | Radian

  /**
   * `std::f64::consts::PI`, exactly: the double nearest to pi is
   * 884279719003555 / 2^48.
   */
  const PI: real := 884279719003555.0 / 281474976710656.0

  /** The suffix each tag is documented with next to its declaration. */
  function Symbol(u: AngleUnit): (symbol: string) {
    match u
    case Degree => "deg"
    case Radian => "rad"
  }

  /** The registry's table, key by key. */
  const ANGLE_UNITS: map<string, AngleUnit> := map["deg" := Degree, "rad" := Radian]

  /**
   * `AngleUnit::from_suffix`: an exact, case-sensitive lookup. Each tag has
   * exactly one spelling, its symbol.
   */
  function FromSuffix(suffix: string): (r: Option<AngleUnit>)
    ensures forall u :: r == Some(u) <==> suffix == Symbol(u)
  {
    if suffix in ANGLE_UNITS then Some(ANGLE_UNITS[suffix]) else None
  }

  /** `AngleUnit::to_radians`: defined for both tags, radians unchanged. */
  function ToRadians(u: AngleUnit, v: real): (r: real)
    ensures u == Radian ==> r == v
    ensures (r > 0.0 <==> v > 0.0) && (r == 0.0 <==> v == 0.0)
  {
    match u
    case Radian => v
    case Degree => v * PI / 180.0
  }

  /** `AngleUnit::to_degrees`: defined for both tags, degrees unchanged. */
  function ToDegrees(u: AngleUnit, v: real): (r: real)
    ensures u == Degree ==> r == v
    ensures (r > 0.0 <==> v > 0.0) && (r == 0.0 <==> v == 0.0)
  {
    match u
    case Degree => v
    case Radian => v * 180.0 / PI
  }

  /**
   * The two conversions are inverse to each other: converting an angle to
   * degrees and reading those as degrees gives the same radians, and the
   * other way round.
   */
  lemma ConversionsInverse(u: AngleUnit, v: real)
    ensures ToRadians(Degree, ToDegrees(u, v)) == ToRadians(u, v)
    ensures ToDegrees(Radian, ToRadians(u, v)) == ToDegrees(u, v)
    ensures ToDegrees(Radian, ToRadians(Degree, v)) == v
  {
  }

  /** A half turn is 180 degrees and pi radians. */
  lemma HalfTurn()
    ensures ToRadians(Degree, 180.0) == PI && ToDegrees(Radian, PI) == 180.0
  {
  }

  /** Every tag is reached from its documented symbol, and nothing else is. */
  lemma SymbolRoundTrip(u: AngleUnit)
    ensures FromSuffix(Symbol(u)) == Some(u)
    ensures FromSuffix("DEG") == None && FromSuffix("") == None
  {
  }
}
