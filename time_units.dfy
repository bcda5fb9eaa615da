/** The time unit registry: the unit tags and the suffix table `from_suffix` looks up. */
module TimeUnits {
  import opened Options

  datatype TimeUnit =
    | Nanosecond | Microsecond | Millisecond | Second | Minute
    | Hour | Day | Week | Month | Year

  /** The suffix each tag is documented with next to its declaration. */
  function Symbol(u: TimeUnit): (symbol: string) {
    match u
    case Nanosecond => "ns"
    case Microsecond => "\U{03BC}s"
    case Millisecond => "ms"
    case Second => "sec"
    case Minute => "min"
    case Hour => "hour"
    case Day => "day"
    case Week => "week"
    case Month => "month"
    case Year => "year"
  }

  /** Every spelling the registry accepts for a tag. */
  function Aliases(u: TimeUnit): (aliases: set<string>) {
    match u
    case Nanosecond => {"ns"}
    case Microsecond => {"\U{03BC}s", "us"}
    case Millisecond => {"ms"}
    case Second => {"sec", "s"}
    case Minute => {"min"}
    case Hour => {"hour", "h"}
    case Day => {"day", "d"}
    case Week => {"week", "w"}
    case Month => {"month"}
    case Year => {"year", "y"}
  }

  /** The registry's table, key by key. */
  const TIME_UNITS: map<string, TimeUnit> := map[
    "ns" := Nanosecond,
    "\U{03BC}s" := Microsecond,
    "us" := Microsecond,
    "ms" := Millisecond,
    "sec" := Second,
    "s" := Second,
    "min" := Minute,
    "hour" := Hour,
    "h" := Hour,
    "day" := Day,
    "d" := Day,
    "week" := Week,
    "w" := Week,
    "month" := Month,
    "year" := Year,
    "y" := Year
  ]

  /**
   * `TimeUnit::from_suffix`: an exact, case-sensitive lookup. A suffix names
   * a tag exactly when it is one of that tag's aliases.
   */
  function FromSuffix(suffix: string): (r: Option<TimeUnit>)
    ensures forall u :: r == Some(u) <==> suffix in Aliases(u)
  {
    if suffix in TIME_UNITS then Some(TIME_UNITS[suffix]) else None
  }

  /** Every tag is reached from its documented symbol. */
  lemma SymbolRoundTrip(u: TimeUnit)
    ensures FromSuffix(Symbol(u)) == Some(u)
  {
  }

  /**
   * The second, hour, day, week and year are also spelled by the first
   * letter of their symbol; the minute and the month have no one-letter
   * form, so a lone `m` is no time suffix.
   */
  lemma OneLetterForms(u: TimeUnit)
    ensures u in {Second, Hour, Day, Week, Year} ==> Aliases(u) == {Symbol(u), Symbol(u)[..1]}
    ensures u in {Minute, Month} ==> Aliases(u) == {Symbol(u)}
    ensures FromSuffix("m") == None
  {
    match u
    case Second => assert "sec"[..1] == "s";
    case Hour => assert "hour"[..1] == "h";
    case Day => assert "day"[..1] == "d";
    case Week => assert "week"[..1] == "w";
    case Year => assert "year"[..1] == "y";
    case _ =>
  }

  /** The registry knows exactly these sixteen suffixes and no other. */
  lemma SixteenKeys()
    ensures TIME_UNITS.Keys == {"ns", "\U{03BC}s", "us", "ms", "sec", "s", "min", "hour", "h", "day", "d", "week", "w", "month", "year", "y"}
  {
  }

  /**
   * The Greek small mu and the ASCII `u` both spell the microsecond, but the
   * micro sign does not.
   */
  lemma MicrosecondSpellings()
    ensures FromSuffix("\U{03BC}s") == FromSuffix("us") == Some(Microsecond)
    ensures FromSuffix("\U{00B5}s") == None && FromSuffix("S") == None
  {
  }
}
