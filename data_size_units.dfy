/** The data size unit registry: the unit tags and the suffix table `from_suffix` looks up. */
module DataSizeUnits {
  import opened Options
  import Text

  datatype DataSizeUnit = Kilobyte | Megabyte | Gigabyte | Terabyte

  /** The suffix each tag is documented with next to its declaration. */
  function Symbol(u: DataSizeUnit): (symbol: string) {
    match u
    case Kilobyte => "Kb"
    case Megabyte => "MB"
    case Gigabyte => "GB"
    case Terabyte => "TB"
  }

  /** Every spelling the registry accepts for a tag. */
  function Aliases(u: DataSizeUnit): (aliases: set<string>) {
    match u
    case Kilobyte => {"KB", "Kb", "kb"}
    case Megabyte => {"MB", "Mb", "mb"}
    case Gigabyte => {"GB", "Gb", "gb"}
    case Terabyte => {"TB", "Tb", "tb"}
  }

  /** The registry's table, key by key. */
  const DATA_SIZE_UNITS: map<string, DataSizeUnit> := map[
    "KB" := Kilobyte,
    "Kb" := Kilobyte,
    "kb" := Kilobyte,
    "MB" := Megabyte,
    "Mb" := Megabyte,
    "mb" := Megabyte,
    "GB" := Gigabyte,
    "Gb" := Gigabyte,
    "gb" := Gigabyte,
    "TB" := Terabyte,
    "Tb" := Terabyte,
    "tb" := Terabyte
  ]

  /**
   * `DataSizeUnit::from_suffix`: an exact, case-sensitive lookup. A suffix
   * names a tag exactly when it is one of that tag's aliases.
   */
  function FromSuffix(suffix: string): (r: Option<DataSizeUnit>)
    ensures forall u :: r == Some(u) <==> suffix in Aliases(u)
  {
    if suffix in DATA_SIZE_UNITS then Some(DATA_SIZE_UNITS[suffix]) else None
  }

  /** Every tag is reached from its documented symbol. */
  lemma SymbolRoundTrip(u: DataSizeUnit)
    ensures FromSuffix(Symbol(u)) == Some(u)
  {
  }

  /**
   * Each tag has exactly three spellings, all built on the initial of its
   * symbol: upper-case initial with `B`, upper-case initial with `b`, and
   * all lower case.
   */
  lemma ThreeCasings(u: DataSizeUnit)
    ensures var p := Symbol(u)[..1];
      Aliases(u) == {p + "B", p + "b", Text.AsciiLower(p) + "b"}
    ensures |Aliases(u)| == 3
  {
    match u
    case Kilobyte => assert "Kb"[..1] == "K" && Text.AsciiLower("K") == "k";
      assert "K" + "B" == "KB" && "K" + "b" == "Kb" && "k" + "b" == "kb";
    case Megabyte => assert "MB"[..1] == "M" && Text.AsciiLower("M") == "m";
      assert "M" + "B" == "MB" && "M" + "b" == "Mb" && "m" + "b" == "mb";
    case Gigabyte => assert "GB"[..1] == "G" && Text.AsciiLower("G") == "g";
      assert "G" + "B" == "GB" && "G" + "b" == "Gb" && "g" + "b" == "gb";
    case Terabyte => assert "TB"[..1] == "T" && Text.AsciiLower("T") == "t";
      assert "T" + "B" == "TB" && "T" + "b" == "Tb" && "t" + "b" == "tb";
  }

  /** The registry knows exactly these twelve suffixes and no other. */
  lemma TwelveKeys()
    ensures DATA_SIZE_UNITS.Keys == {"KB", "Kb", "kb", "MB", "Mb", "mb", "GB", "Gb", "gb", "TB", "Tb", "tb"}
  {
  }

  /** Only the listed casings match. */
  lemma OtherCasings()
    ensures FromSuffix("kB") == None && FromSuffix("mB") == None && FromSuffix("B") == None
  {
  }
}
