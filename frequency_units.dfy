/** The frequency unit registry: the unit tags and the suffix table `from_suffix` looks up. */
module FrequencyUnits {
  import opened Options
  import Text

  datatype FrequencyUnit = Hertz | Kilohertz | Megahertz | Gigahertz | Terahertz

  /** The suffix each tag is documented with next to its declaration. */
  function Symbol(u: FrequencyUnit): (symbol: string) {
    match u
    case Hertz => "Hz"
    case Kilohertz => "kHz"
    case Megahertz => "MHz"
    case Gigahertz => "GHz"
    case Terahertz => "THz"
  }

  /** Every spelling the registry accepts for a tag. */
  function Aliases(u: FrequencyUnit): (aliases: set<string>) {
    match u
    case Hertz => {"Hz", "hz"}
    case Kilohertz => {"kHz", "khz"}
    case Megahertz => {"MHz", "mhz"}
    case Gigahertz => {"GHz", "ghz"}
    case Terahertz => {"THz", "thz"}
  }

  /** The registry's table, key by key. */
  const FREQUENCY_UNITS: map<string, FrequencyUnit> := map[
    "Hz" := Hertz,
    "hz" := Hertz,
    "kHz" := Kilohertz,
    "khz" := Kilohertz,
    "MHz" := Megahertz,
    "mhz" := Megahertz,
    "GHz" := Gigahertz,
    "ghz" := Gigahertz,
    "THz" := Terahertz,
    "thz" := Terahertz
  ]

  /**
   * `FrequencyUnit::from_suffix`: an exact, case-sensitive lookup. A suffix
   * names a tag exactly when it is one of that tag's aliases.
   */
  function FromSuffix(suffix: string): (r: Option<FrequencyUnit>)
    ensures forall u :: r == Some(u) <==> suffix in Aliases(u)
  {
    if suffix in FREQUENCY_UNITS then Some(FREQUENCY_UNITS[suffix]) else None
  }

  /** Every tag is reached from its documented symbol. */
  lemma SymbolRoundTrip(u: FrequencyUnit)
    ensures FromSuffix(Symbol(u)) == Some(u)
  {
  }

  /**
   * Each tag has exactly two spellings: its symbol and the symbol in lower
   * case.
   */
  lemma SymbolAndLowerCase(u: FrequencyUnit)
    ensures Aliases(u) == {Symbol(u), Text.AsciiLower(Symbol(u))}
    ensures |Aliases(u)| == 2
  {
    match u
    case Hertz => assert Text.AsciiLower("Hz") == "hz";
    case Kilohertz => assert Text.AsciiLower("kHz") == "khz";
    case Megahertz => assert Text.AsciiLower("MHz") == "mhz";
    case Gigahertz => assert Text.AsciiLower("GHz") == "ghz";
    case Terahertz => assert Text.AsciiLower("THz") == "thz";
  }

  /** The registry knows exactly these ten suffixes and no other. */
  lemma TenKeys()
    ensures FREQUENCY_UNITS.Keys == {"Hz", "hz", "kHz", "khz", "MHz", "mhz", "GHz", "ghz", "THz", "thz"}
  {
  }

  /** Other casings do not match. */
  lemma OtherCasings()
    ensures FromSuffix("HZ") == None && FromSuffix("KHz") == None && FromSuffix("Mhz") == None
  {
  }
}
