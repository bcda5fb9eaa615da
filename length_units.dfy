/**
 * The length unit registry: the unit tags, the suffix table `from_suffix`
 * looks up, and the conversions to pixels and to meters.
 */
module LengthUnits {
  import opened Options

  datatype LengthUnit =
    | Micrometer | Nanometer | Millimeter | Centimeter | Meter | Kilometer
    | Megameter | Mile | Em | Rem | Point | Inch | Pixel

  /** The suffix each tag is documented with next to its declaration. */
  function Symbol(u: LengthUnit): (symbol: string) {
    match u
    case Micrometer => "\U{00B5}m"
    case Nanometer => "nm"
    case Millimeter => "mm"
    case Centimeter => "cm"
    case Meter => "m"
    case Kilometer => "km"
    case Megameter => "Mm"
    case Mile => "mi"
    case Em => "em"
    case Rem => "rem"
    case Point => "pt"
    case Inch => "in"
    case Pixel => "px"
  }

  /**
   * Every spelling the registry accepts for a tag: its symbol, and for the
   * micrometer also the ASCII spelling `um`.
   */
  function Aliases(u: LengthUnit): (aliases: set<string>) {
    if u == Micrometer then {Symbol(u), "um"} else {Symbol(u)}
  }

  /** The registry's table, key by key. */
  const LENGTH_UNITS: map<string, LengthUnit> := map[
    "\U{00B5}m" := Micrometer,
    "um" := Micrometer,
    "nm" := Nanometer,
    "mm" := Millimeter,
    "cm" := Centimeter,
    "m" := Meter,
    "km" := Kilometer,
    "Mm" := Megameter,
    "mi" := Mile,
    "em" := Em,
    "rem" := Rem,
    "pt" := Point,
    "in" := Inch,
    "px" := Pixel
  ]

  /**
   * `LengthUnit::from_suffix`: an exact, case-sensitive lookup. A suffix
   * names a tag exactly when it is one of that tag's aliases.
   */
  function FromSuffix(suffix: string): (r: Option<LengthUnit>)
    ensures forall u :: r == Some(u) <==> suffix in Aliases(u)
  {
    if suffix in LENGTH_UNITS then Some(LENGTH_UNITS[suffix]) else None
  }

  /** The units `to_pixels` scales; pixels and every other unit are returned as is. */
  predicate HasPixelFormula(u: LengthUnit) {
    u == Inch || u == Point || u == Centimeter || u == Millimeter
  }

  /**
   * `LengthUnit::to_pixels` at 96 pixels per inch. Pixels and the units
   * without a formula give the value back unchanged; every formula keeps
   * the sign.
   */
  function ToPixels(u: LengthUnit, v: real): (r: real)
    ensures !HasPixelFormula(u) ==> r == v
    ensures (r > 0.0 <==> v > 0.0) && (r == 0.0 <==> v == 0.0)
  {
    match u
    case Pixel => v
    case Inch => v * 96.0
    case Point => v * 96.0 / 72.0
    case Centimeter => v * 96.0 / 2.54
    case Millimeter => v * 96.0 / 25.4
    case _ => v
  }

  /** The units `to_meters` scales; meters and every other unit are returned as is. */
  predicate HasMeterFormula(u: LengthUnit) {
    || u == Kilometer || u == Centimeter || u == Millimeter
    || u == Nanometer || u == Mile || u == Inch
  }

  /**
   * `LengthUnit::to_meters`. Meters and the units without a formula (the
   * micrometer, the megameter and the typographic units) give the value
   * back unchanged; every formula keeps the sign.
   */
  function ToMeters(u: LengthUnit, v: real): (r: real)
    ensures !HasMeterFormula(u) ==> r == v
    ensures (r > 0.0 <==> v > 0.0) && (r == 0.0 <==> v == 0.0)
  {
    match u
    case Meter => v
    case Kilometer => v * 1000.0
    case Centimeter => v / 100.0
    case Millimeter => v / 1000.0
    case Nanometer => v / 1_000_000_000.0
    case Mile => v * 1609.344
    case Inch => v * 0.0254
    case _ => v
  }

  /** Both conversions are monotone in the value, for every unit. */
  lemma ConversionsMonotone(u: LengthUnit, a: real, b: real)
    requires a <= b
    ensures ToPixels(u, a) <= ToPixels(u, b)
    ensures ToMeters(u, a) <= ToMeters(u, b)
  {
  }

  /**
   * The pixel formulas agree with each other: an inch is 72 points, 2.54
   * centimeters and 25.4 millimeters.
   */
  lemma PixelFormulasAgree(v: real)
    ensures ToPixels(Inch, v) == ToPixels(Point, 72.0 * v)
    ensures ToPixels(Inch, v) == ToPixels(Centimeter, 2.54 * v)
    ensures ToPixels(Inch, v) == ToPixels(Millimeter, 25.4 * v)
  {
  }

  /**
   * The meter formulas agree with each other: a kilometer is 1000 meters, a
   * meter 100 centimeters or 1000 millimeters or 10^9 nanometers, an inch
   * 2.54 centimeters and a mile 63360 inches.
   */
  lemma MeterFormulasAgree(v: real)
    ensures ToMeters(Kilometer, v) == ToMeters(Meter, 1000.0 * v)
    ensures ToMeters(Meter, v) == ToMeters(Centimeter, 100.0 * v)
    ensures ToMeters(Meter, v) == ToMeters(Millimeter, 1000.0 * v)
    ensures ToMeters(Meter, v) == ToMeters(Nanometer, 1_000_000_000.0 * v)
    ensures ToMeters(Inch, v) == ToMeters(Centimeter, 2.54 * v)
    ensures ToMeters(Mile, v) == ToMeters(Inch, 63360.0 * v)
  {
  }

  /**
   * For the physical units that have both formulas, pixels are meters at
   * 96 pixels per 0.0254 meters.
   */
  lemma PixelsAgreeWithMeters(u: LengthUnit, v: real)
    requires u == Inch || u == Centimeter || u == Millimeter
    ensures ToPixels(u, v) == ToMeters(u, v) * 96.0 / 0.0254
  {
  }

  /** Every tag is reached from its documented symbol. */
  lemma SymbolRoundTrip(u: LengthUnit)
    ensures FromSuffix(Symbol(u)) == Some(u)
  {
  }

  /** The registry knows exactly these fourteen suffixes and no other. */
  lemma FourteenKeys()
    ensures LENGTH_UNITS.Keys == {"\U{00B5}m", "um", "nm", "mm", "cm", "m", "km", "Mm", "mi", "em", "rem", "pt", "in", "px"}
  {
  }

  /**
   * The micro sign and the ASCII `u` both spell the micrometer; the lookup is
   * case-sensitive, so `mm` and `Mm` are different units.
   */
  lemma MicrometerAndCase()
    ensures FromSuffix("\U{00B5}m") == FromSuffix("um") == Some(Micrometer)
    ensures FromSuffix("mm") == Some(Millimeter) && FromSuffix("Mm") == Some(Megameter)
    ensures FromSuffix("\U{03BC}m") == None && FromSuffix("PX") == None && FromSuffix("") == None
  {
  }
}
