/**
 * The typed-scalar recogniser: turns one token of a LaCoN document into a
 * `LaCoNValue` by trying keywords, seven suffix families, and plain numbers
 * in a fixed order, the first success winning.
 */
module Parser {
  import opened Options
  import opened Text
  import opened Numbers
  import opened LengthUnits
  import opened AngleUnits
  import opened TimeUnits
  import opened DataSizeUnits
  import opened FrequencyUnits
  import opened Value

  /** `parse_string_literal`: quoted text is kept verbatim, whatever it looks like. */
  function ParseStringLiteral(input: string): (r: LaCoNValue)
    ensures r.StringLiteral? && r.literal == input
    ensures r.AsString() == Options.None
  {
    StringLiteral(input)
  }

  /*
   * The suffix tables the family recognisers search, in their order. They
   * are the recogniser's own and differ from the unit registries: no
   * micrometer, only four time units, no lower-case data sizes, and only two
   * frequencies.
   */
  const LENGTH_SUFFIXES: seq<(string, LengthUnit)> := [
    ("nm", Nanometer), ("mm", Millimeter), ("cm", Centimeter), ("Mm", Megameter),
    ("km", Kilometer), ("mi", Mile), ("em", Em), ("rem", Rem),
    ("pt", Point), ("in", Inch), ("px", Pixel), ("m", Meter)
  ]
  const ANGLE_SUFFIXES: seq<(string, AngleUnit)> := [("deg", Degree), ("rad", Radian)]
  const TIME_SUFFIXES: seq<(string, TimeUnit)> := [
    ("sec", Second), ("min", Minute), ("hour", Hour), ("day", Day)
  ]
  const DATA_SIZE_SUFFIXES: seq<(string, DataSizeUnit)> := [
    ("KB", Kilobyte), ("MB", Megabyte), ("GB", Gigabyte), ("TB", Terabyte),
    ("Kb", Kilobyte), ("Mb", Megabyte), ("Gb", Gigabyte), ("Tb", Terabyte)
  ]
  const FREQUENCY_SUFFIXES: seq<(string, FrequencyUnit)> := [("kHz", Kilohertz), ("Hz", Hertz)]

  /**
   * `s` carries `suffix` on a number: it ends with `suffix` and what comes
   * before the suffix parses as an `f64`.
   */
  predicate Carries(s: string, suffix: string)
    ensures Carries(s, suffix) <==> exists p :: p + suffix == s && ParseF64(p).Some?
  {
    assert forall p {:trigger p + suffix} :: p + suffix == s ==> StripSuffix(s, suffix) == Some(p) by {
      forall p | p + suffix == s {
        StripAppended(p, suffix);
      }
    }
    var rest := StripSuffix(s, suffix);
    rest.Some? && ParseF64(rest.value).Some?
  }

  /** The number in front of a suffix that `s` carries. */
  function Amount(s: string, suffix: string): (v: F64)
    requires Carries(s, suffix)
    ensures exists p :: p + suffix == s && ParseF64(p) == Some(v)
  {
    ParseF64(StripSuffix(s, suffix).value).value
  }

  /**
   * The first entry of `table` whose suffix `s` carries, if any: the loop of
   * every family recogniser, which returns at the first entry that works.
   */
  function FirstCarried<U>(table: seq<(string, U)>, s: string): (r: Option<nat>)
    ensures r.Some? ==> r.value < |table| && Carries(s, table[r.value].0)
    ensures r.Some? ==> forall j {:trigger Carries(s, table[j].0)} :: 0 <= j < r.value ==> !Carries(s, table[j].0)
    ensures r.None? ==> forall j {:trigger Carries(s, table[j].0)} :: 0 <= j < |table| ==> !Carries(s, table[j].0)
  {
    if table == [] then Options.None
    else if Carries(s, table[0].0) then Some(0)
    else
      match FirstCarried(table[1..], s)
      case None => Options.None
      case Some(i) => Some(i + 1)
  }

  /** A family's search: the number and the tag of the first entry that works. */
  function ScanSuffixes<U>(table: seq<(string, U)>, s: string): (r: Option<(F64, U)>)
    ensures r.None? <==> forall j {:trigger Carries(s, table[j].0)} :: 0 <= j < |table| ==> !Carries(s, table[j].0)
    ensures r.Some? ==> r.value.1 in Tags(table)
  {
    match FirstCarried(table, s)
    case None => Options.None
    case Some(i) => Some((Amount(s, table[i].0), table[i].1))
  }

  /** `parse_length`. */
  function ParseLength(input: string): (v: Option<LaCoNValue>)
    ensures v.Some? ==> v.value.Length? && v.value.lengthUnit != Micrometer
  {
    assert forall u :: u in Tags(LENGTH_SUFFIXES) ==> u != Micrometer;
    match ScanSuffixes(LENGTH_SUFFIXES, Trim(input))
    case None => Options.None
    case Some((v, u)) => Some(Length(v, u))
  }

  /** `parse_angle`. */
  function ParseAngle(input: string): (v: Option<LaCoNValue>)
    ensures v.Some? ==> v.value.Angle?
  {
    match ScanSuffixes(ANGLE_SUFFIXES, Trim(input))
    case None => Options.None
    case Some((v, u)) => Some(Angle(v, u))
  }

  /** `parse_time`. */
  function ParseTime(input: string): (v: Option<LaCoNValue>)
    ensures v.Some? ==> v.value.Time? && v.value.timeUnit in {Second, Minute, Hour, Day}
  {
    assert forall u :: u in Tags(TIME_SUFFIXES) ==> u in {Second, Minute, Hour, Day};
    match ScanSuffixes(TIME_SUFFIXES, Trim(input))
    case None => Options.None
    case Some((v, u)) => Some(Time(v, u))
  }

  /** `parse_data_size`. */
  function ParseDataSize(input: string): (v: Option<LaCoNValue>)
    ensures v.Some? ==> v.value.DataSize?
  {
    match ScanSuffixes(DATA_SIZE_SUFFIXES, Trim(input))
    case None => Options.None
    case Some((v, u)) => Some(DataSize(v, u))
  }

  /** `parse_frequency`. */
  function ParseFrequency(input: string): (v: Option<LaCoNValue>)
    ensures v.Some? ==> v.value.Frequency? && v.value.frequencyUnit in {Kilohertz, Hertz}
  {
    assert forall u :: u in Tags(FREQUENCY_SUFFIXES) ==> u in {Kilohertz, Hertz};
    match ScanSuffixes(FREQUENCY_SUFFIXES, Trim(input))
    case None => Options.None
    case Some((v, u)) => Some(Frequency(v, u))
  }

  /** `parse_percentage`: a number followed by `%`. */
  function ParsePercentage(input: string): (v: Option<LaCoNValue>)
    ensures v.Some? ==> v.value.Percentage?
  {
    var t := Trim(input);
    if Carries(t, "%") then Some(Percentage(Amount(t, "%"))) else Options.None
  }

  /** `parse_fraction`: a number followed by `fr`. */
  function ParseFraction(input: string): (v: Option<LaCoNValue>)
    ensures v.Some? ==> v.value.Fraction?
  {
    var t := Trim(input);
    if Carries(t, "fr") then Some(Fraction(Amount(t, "fr"))) else Options.None
  }

  /**
   * `parse_percentage` answers exactly when the trimmed token is a number
   * followed by `%`, and then with that number.
   */
  lemma PercentageReads(input: string)
    ensures ParsePercentage(input).Some? <==> exists p :: p + "%" == Trim(input) && ParseF64(p).Some?
    ensures forall p {:trigger p + "%"} :: p + "%" == Trim(input) && ParseF64(p).Some? ==>
      ParsePercentage(input) == Some(Percentage(ParseF64(p).value))
  {
    forall p | p + "%" == Trim(input) {
      StripAppended(p, "%");
    }
  }

  /**
   * `parse_fraction` answers exactly when the trimmed token is a number
   * followed by `fr`, and then with that number.
   */
  lemma FractionReads(input: string)
    ensures ParseFraction(input).Some? <==> exists p :: p + "fr" == Trim(input) && ParseF64(p).Some?
    ensures forall p {:trigger p + "fr"} :: p + "fr" == Trim(input) && ParseF64(p).Some? ==>
      ParseFraction(input) == Some(Fraction(ParseF64(p).value))
  {
    forall p | p + "fr" == Trim(input) {
      StripAppended(p, "fr");
    }
  }

  /** The keyword a token spells once lower-cased, if it spells one. */
  function Keyword(t: string): (v: Option<LaCoNValue>)
    ensures v.Some? ==> v.value.Auto? || v.value.None? || v.value.Bool?
  {
    if FoldsTo(t, "auto") then Some(Auto)
    else if FoldsTo(t, "none") then Some(LaCoNValue.None)
    else if FoldsTo(t, "true") then Some(Bool(true))
    else if FoldsTo(t, "false") then Some(Bool(false))
    else Options.None
  }

  /**
   * Neither a keyword nor any of the seven suffix families claims the
   * trimmed token `t`: only the `i64` and `f64` readings are left for it.
   */
  predicate Unclaimed(t: string) {
    Keyword(t).None? && ParseLength(t).None? && ParseAngle(t).None? &&
    ParseTime(t).None? && ParseDataSize(t).None? && ParseFrequency(t).None? &&
    ParsePercentage(t).None? && ParseFraction(t).None?
  }

  /**
   * `parse_typed_value`: trims the token, then tries the keywords, the
   * length, angle, time, data size, frequency, percentage and fraction
   * families, an `i64` and an `f64`, in that order, and answers with the
   * first that succeeds.
   */
  function ParseTypedValue(input: string): (r: Option<LaCoNValue>)
    ensures r.Some? ==> !r.value.String? && !r.value.StringLiteral? &&
                        !r.value.Array? && !r.value.Dictionary?
    ensures r.Some? && r.value.Length? ==> r.value.lengthUnit != Micrometer
    ensures r.Some? && r.value.Time? ==> r.value.timeUnit in {Second, Minute, Hour, Day}
    ensures r.Some? && r.value.Frequency? ==> r.value.frequencyUnit in {Kilohertz, Hertz}
  {
    var t := Trim(input);
    var keyword := Keyword(t);
    if keyword.Some? then keyword
    else if ParseLength(t).Some? then ParseLength(t)
    else if ParseAngle(t).Some? then ParseAngle(t)
    else if ParseTime(t).Some? then ParseTime(t)
    else if ParseDataSize(t).Some? then ParseDataSize(t)
    else if ParseFrequency(t).Some? then ParseFrequency(t)
    else if ParsePercentage(t).Some? then ParsePercentage(t)
    else if ParseFraction(t).Some? then ParseFraction(t)
    else if ParseI64(t).Some? then Some(Int(ParseI64(t).value))
    else if ParseF64(t).Some? then Some(Float(ParseF64(t).value))
    else Options.None
  }

  /** The tags a suffix table can answer with. */
  function Tags<U>(table: seq<(string, U)>): (tags: set<U>) {
    set i | 0 <= i < |table| :: table[i].1
  }

  /**
   * `parse_value`: the typed reading when there is one, and otherwise the
   * untrimmed input as `String`; it always answers.
   */
  function ParseValue(input: string): (r: Option<LaCoNValue>)
    ensures r.Some?
    ensures r.value.String? <==> ParseTypedValue(input).None?
    ensures r.value.String? ==> r.value.text == input
    ensures ParseTypedValue(input).Some? ==> r == ParseTypedValue(input)
  {
    ParseTypedValue(input).Or(Some(String(input)))
  }

  /**
   * Quoted and unquoted text never meet: a quoted token is always a
   * `StringLiteral`, which the unquoted path never produces, so `"true"` in
   * quotes is not `Bool(true)`.
   */
  lemma QuotedIsNeverTyped(input: string)
    ensures ParseStringLiteral(input) != ParseValue(input).value
  {
  }

  /**
   * First match wins: each recogniser answers exactly when every earlier
   * one stays silent and it recognises the trimmed token itself, and when
   * all of them are silent there is no typed reading.
   */
  lemma Precedence(input: string)
    ensures var t := Trim(input);
      Keyword(t).Some? ==> ParseTypedValue(input) == Keyword(t)
    ensures var t := Trim(input);
      Keyword(t).None? && ParseLength(t).Some? ==>
      ParseTypedValue(input) == ParseLength(t)
    ensures var t := Trim(input);
      Keyword(t).None? && ParseLength(t).None? && ParseAngle(t).Some? ==>
      ParseTypedValue(input) == ParseAngle(t)
    ensures var t := Trim(input);
      Keyword(t).None? && ParseLength(t).None? && ParseAngle(t).None? &&
      ParseTime(t).Some? ==>
      ParseTypedValue(input) == ParseTime(t)
    ensures var t := Trim(input);
      Keyword(t).None? && ParseLength(t).None? && ParseAngle(t).None? &&
      ParseTime(t).None? && ParseDataSize(t).Some? ==>
      ParseTypedValue(input) == ParseDataSize(t)
    ensures var t := Trim(input);
      Keyword(t).None? && ParseLength(t).None? && ParseAngle(t).None? &&
      ParseTime(t).None? && ParseDataSize(t).None? && ParseFrequency(t).Some? ==>
      ParseTypedValue(input) == ParseFrequency(t)
    ensures var t := Trim(input);
      Keyword(t).None? && ParseLength(t).None? && ParseAngle(t).None? &&
      ParseTime(t).None? && ParseDataSize(t).None? && ParseFrequency(t).None? &&
      ParsePercentage(t).Some? ==>
      ParseTypedValue(input) == ParsePercentage(t)
    ensures var t := Trim(input);
      Keyword(t).None? && ParseLength(t).None? && ParseAngle(t).None? &&
      ParseTime(t).None? && ParseDataSize(t).None? && ParseFrequency(t).None? &&
      ParsePercentage(t).None? && ParseFraction(t).Some? ==>
      ParseTypedValue(input) == ParseFraction(t)
    ensures var t := Trim(input);
      Unclaimed(t) && ParseI64(t).Some? ==> ParseTypedValue(input) == Some(Int(ParseI64(t).value))
    ensures var t := Trim(input);
      Unclaimed(t) && ParseI64(t).None? && ParseF64(t).Some? ==>
      ParseTypedValue(input) == Some(Float(ParseF64(t).value))
    ensures var t := Trim(input);
      ParseTypedValue(input).None? <==> Unclaimed(t) && ParseI64(t).None? && ParseF64(t).None?
  {
  }

  /**
   * The chain of `parse_typed_value` over its readings alone: `r` is the
   * first of them that succeeds, and each reading answers only with its own
   * kind of value. Then a value of each kind comes from its own reading,
   * after every earlier one stayed silent.
   */
  lemma ChainOutcome(r: Option<LaCoNValue>, k: Option<LaCoNValue>, l: Option<LaCoNValue>,
                     a: Option<LaCoNValue>, ti: Option<LaCoNValue>, d: Option<LaCoNValue>,
                     f: Option<LaCoNValue>, p: Option<LaCoNValue>, fr: Option<LaCoNValue>,
                     i: Option<I64>, x: Option<F64>)
    requires r == if k.Some? then k else if l.Some? then l else if a.Some? then a
                  else if ti.Some? then ti else if d.Some? then d else if f.Some? then f
                  else if p.Some? then p else if fr.Some? then fr
                  else if i.Some? then Some(Int(i.value))
                  else if x.Some? then Some(Float(x.value))
                  else Options.None
    requires k.Some? ==> k.value.Auto? || k.value.None? || k.value.Bool?
    requires l.Some? ==> l.value.Length? && l.value.lengthUnit != Micrometer
    requires a.Some? ==> a.value.Angle?
    requires ti.Some? ==> ti.value.Time? && ti.value.timeUnit in {Second, Minute, Hour, Day}
    requires d.Some? ==> d.value.DataSize?
    requires f.Some? ==> f.value.Frequency? && f.value.frequencyUnit in {Kilohertz, Hertz}
    requires p.Some? ==> p.value.Percentage?
    requires fr.Some? ==> fr.value.Fraction?
    ensures r.Some? && (r.value.Auto? || r.value.None? || r.value.Bool?) ==> r == k
    ensures r.Some? && r.value.Length? ==> k.None? && r == l
    ensures r.Some? && r.value.Angle? ==> k.None? && l.None? && r == a
    ensures r.Some? && r.value.Time? ==> k.None? && l.None? && a.None? && r == ti
    ensures r.Some? && r.value.DataSize? ==> k.None? && l.None? && a.None? && ti.None? && r == d
    ensures r.Some? && r.value.Frequency? ==>
      k.None? && l.None? && a.None? && ti.None? && d.None? && r == f
    ensures r.Some? && r.value.Percentage? ==>
      k.None? && l.None? && a.None? && ti.None? && d.None? && f.None? && r == p
    ensures r.Some? && r.value.Fraction? ==>
      k.None? && l.None? && a.None? && ti.None? && d.None? && f.None? && p.None? && r == fr
    ensures r.Some? && r.value.Int? ==>
      k.None? && l.None? && a.None? && ti.None? && d.None? && f.None? && p.None? && fr.None? &&
      i == Some(r.value.integer)
    ensures r.Some? && r.value.Float? ==>
      k.None? && l.None? && a.None? && ti.None? && d.None? && f.None? && p.None? && fr.None? &&
      i.None? && x == Some(r.value.number)
    ensures r.Some? ==> !r.value.String? && !r.value.StringLiteral? &&
                        !r.value.Array? && !r.value.Dictionary?
    ensures r.Some? && r.value.Length? ==> r.value.lengthUnit != Micrometer
    ensures r.Some? && r.value.Time? ==> r.value.timeUnit in {Second, Minute, Hour, Day}
    ensures r.Some? && r.value.Frequency? ==> r.value.frequencyUnit in {Kilohertz, Hertz}
  {
  }

  /**
   * Which recogniser an answer comes from: a value of each kind comes only
   * from its own recogniser, after every earlier one stayed silent.
   */
  lemma Provenance(input: string)
    ensures var t := Trim(input); var r := ParseTypedValue(input);
      r.Some? && (r.value.Auto? || r.value.None? || r.value.Bool?) ==> r == Keyword(t)
    ensures var t := Trim(input); var r := ParseTypedValue(input);
      r.Some? && r.value.Length? ==> Keyword(t).None? && r == ParseLength(t)
    ensures var t := Trim(input); var r := ParseTypedValue(input);
      r.Some? && r.value.Angle? ==>
      Keyword(t).None? && ParseLength(t).None? && r == ParseAngle(t)
    ensures var t := Trim(input); var r := ParseTypedValue(input);
      r.Some? && r.value.Time? ==>
      Keyword(t).None? && ParseLength(t).None? && ParseAngle(t).None? &&
      r == ParseTime(t)
    ensures var t := Trim(input); var r := ParseTypedValue(input);
      r.Some? && r.value.DataSize? ==>
      Keyword(t).None? && ParseLength(t).None? && ParseAngle(t).None? &&
      ParseTime(t).None? && r == ParseDataSize(t)
    ensures var t := Trim(input); var r := ParseTypedValue(input);
      r.Some? && r.value.Frequency? ==>
      Keyword(t).None? && ParseLength(t).None? && ParseAngle(t).None? &&
      ParseTime(t).None? && ParseDataSize(t).None? && r == ParseFrequency(t)
    ensures var t := Trim(input); var r := ParseTypedValue(input);
      r.Some? && r.value.Percentage? ==>
      Keyword(t).None? && ParseLength(t).None? && ParseAngle(t).None? &&
      ParseTime(t).None? && ParseDataSize(t).None? && ParseFrequency(t).None? &&
      r == ParsePercentage(t)
    ensures var t := Trim(input); var r := ParseTypedValue(input);
      r.Some? && r.value.Fraction? ==>
      Keyword(t).None? && ParseLength(t).None? && ParseAngle(t).None? &&
      ParseTime(t).None? && ParseDataSize(t).None? && ParseFrequency(t).None? &&
      ParsePercentage(t).None? && r == ParseFraction(t)
    ensures var t := Trim(input); var r := ParseTypedValue(input);
      r.Some? && r.value.Int? ==> Unclaimed(t) && ParseI64(t) == Some(r.value.integer)
    ensures var t := Trim(input); var r := ParseTypedValue(input);
      r.Some? && r.value.Float? ==>
      Unclaimed(t) && ParseI64(t).None? && ParseF64(t) == Some(r.value.number)
  {
    var t := Trim(input);
    ChainOutcome(ParseTypedValue(input), Keyword(t), ParseLength(t), ParseAngle(t),
      ParseTime(t), ParseDataSize(t), ParseFrequency(t), ParsePercentage(t), ParseFraction(t),
      ParseI64(t), ParseF64(t));
  }

  /**
   * The keywords come first: once trimmed and lower-cased, `auto`, `none`,
   * `true` and `false` answer `Auto`, `None` and the two booleans, and no
   * other token answers any of them.
   */
  lemma KeywordsFirst(input: string)
    ensures ParseTypedValue(input) == Some(Auto) <==> AsciiLower(Trim(input)) == "auto"
    ensures ParseTypedValue(input) == Some(LaCoNValue.None) <==> AsciiLower(Trim(input)) == "none"
    ensures ParseTypedValue(input) == Some(Bool(true)) <==> AsciiLower(Trim(input)) == "true"
    ensures ParseTypedValue(input) == Some(Bool(false)) <==> AsciiLower(Trim(input)) == "false"
  {
    FoldsToLower(Trim(input), "auto");
    FoldsToLower(Trim(input), "none");
    FoldsToLower(Trim(input), "true");
    FoldsToLower(Trim(input), "false");
    Precedence(input);
    Provenance(input);
  }

  /**
   * Integer-looking tokens are `Int`, never `Float`, although every one of
   * them reads as an `f64` too (`IntIsFloat`): when no keyword or unit
   * family claims the token and it reads as an `i64`, that is the answer.
   */
  lemma IntegersBeforeFloats(input: string)
    ensures ParseTypedValue(input).Some? && ParseTypedValue(input).value.Float? ==>
      ParseI64(Trim(input)).None?
    ensures Unclaimed(Trim(input)) && ParseI64(Trim(input)).Some? ==>
      ParseTypedValue(input) == Some(Int(ParseI64(Trim(input)).value)) &&
      ParseF64(Trim(input)) == Some(Finite(ParseI64(Trim(input)).value as real))
  {
    Precedence(input);
    Provenance(input);
    if ParseI64(Trim(input)).Some? {
      IntIsFloat(Trim(input));
    }
  }

  /**
   * Within a family the first entry that works decides: if entry `i` is the
   * first whose suffix `s` carries, the family answers with entry `i`'s tag
   * and the number in front of its suffix.
   */
  lemma FirstEntryDecides<U>(table: seq<(string, U)>, s: string, i: int)
    requires 0 <= i < |table| && Carries(s, table[i].0)
    requires forall j {:trigger Carries(s, table[j].0)} :: 0 <= j < i ==> !Carries(s, table[j].0)
    ensures ScanSuffixes(table, s) == Some((Amount(s, table[i].0), table[i].1))
  {
    var k := FirstCarried(table, s).value;
    assert !(k < i) && !(i < k);
  }

  /**
   * A suffix is carried only on a non-empty number written right against it:
   * a bare suffix, or white space between the number and the suffix, does not
   * count.
   */
  lemma CarriedNeedsNumber(s: string, suffix: string)
    requires Carries(s, suffix)
    ensures |s| > |suffix|
    ensures !IsWhitespace(s[0]) && !IsWhitespace(s[|s| - |suffix| - 1])
  {
    var p := StripSuffix(s, suffix).value;
    assert p != [] && IsTrimmed(p);
    assert s == p + suffix;
    assert s[|s| - |suffix| - 1] == p[|p| - 1];
  }

  /** A suffix can only be carried by a token that ends in its last character. */
  lemma EndsLikeSuffix(s: string, suffix: string)
    requires Carries(s, suffix) && suffix != []
    ensures s != [] && s[|s| - 1] == suffix[|suffix| - 1]
  {
    assert s[|s| - |suffix|..][|suffix| - 1] == s[|s| - 1];
  }

  /** The last characters of a table's non-empty suffixes. */
  function Finals<U>(table: seq<(string, U)>): (finals: set<char>) {
    set j | 0 <= j < |table| && table[j].0 != [] :: table[j].0[|table[j].0| - 1]
  }

  /** A family only answers for a token ending in one of its table's final characters. */
  lemma ScanNeedsFinal<U>(table: seq<(string, U)>, s: string)
    requires forall j :: 0 <= j < |table| ==> table[j].0 != []
    requires ScanSuffixes(table, s).Some?
    ensures s != [] && s[|s| - 1] in Finals(table)
  {
    var i := FirstCarried(table, s).value;
    EndsLikeSuffix(s, table[i].0);
  }

  /** Only `o`/`O` fold to `o`, and only `e`/`E` to `e`. */
  lemma FoldsToOE(c: char)
    ensures LowerChar(c) == 'o' ==> c == 'o' || c == 'O'
    ensures LowerChar(c) == 'e' ==> c == 'e' || c == 'E'
  {
  }

  /** Every keyword ends in `o` or `e`, in either case. */
  lemma KeywordFinal(t: string)
    requires Keyword(t).Some?
    ensures t != [] && t[|t| - 1] in {'o', 'O', 'e', 'E'}
  {
    FoldsToEnds(t, "auto");
    FoldsToEnds(t, "none");
    FoldsToEnds(t, "true");
    FoldsToEnds(t, "false");
    FoldsToOE(t[|t| - 1]);
  }

  /** Every character a keyword, a family suffix, `%` or `fr` can end in. */
  const UNIT_FINALS: set<char> := {
    'o', 'O', 'e', 'E',                  // keywords
    'm', 'i', 't', 'n', 'x',             // lengths
    'g', 'd',                            // angles
    'c', 'r', 'y',                       // times (and `fr`)
    'B', 'b', 'z', '%'                   // data sizes, frequencies, percentages
  }

  /** A family misses every token that does not end in a final character of its table. */
  lemma FamilyMisses<U>(table: seq<(string, U)>, s: string, finals: set<char>)
    requires forall j :: 0 <= j < |table| ==> table[j].0 != []
    requires Finals(table) <= finals
    requires s == [] || s[|s| - 1] !in finals
    ensures ScanSuffixes(table, s).None?
  {
    if ScanSuffixes(table, s).Some? {
      ScanNeedsFinal(table, s);
    }
  }

  /** The suffixes of the five tables are non-empty, and these are their final characters. */
  lemma SuffixTablesShape()
    ensures forall j :: 0 <= j < |LENGTH_SUFFIXES| ==> LENGTH_SUFFIXES[j].0 != []
    ensures Finals(LENGTH_SUFFIXES) <= {'m', 'i', 't', 'n', 'x'}
    ensures forall j :: 0 <= j < |ANGLE_SUFFIXES| ==> ANGLE_SUFFIXES[j].0 != []
    ensures Finals(ANGLE_SUFFIXES) <= {'g', 'd'}
    ensures forall j :: 0 <= j < |TIME_SUFFIXES| ==> TIME_SUFFIXES[j].0 != []
    ensures Finals(TIME_SUFFIXES) <= {'c', 'n', 'r', 'y'}
    ensures forall j :: 0 <= j < |DATA_SIZE_SUFFIXES| ==> DATA_SIZE_SUFFIXES[j].0 != []
    ensures Finals(DATA_SIZE_SUFFIXES) <= {'B', 'b'}
    ensures forall j :: 0 <= j < |FREQUENCY_SUFFIXES| ==> FREQUENCY_SUFFIXES[j].0 != []
    ensures Finals(FREQUENCY_SUFFIXES) <= {'z'}
  {
  }

  /** `t` is empty or ends in a character outside `finals`. */
  predicate EndsOutside(t: string, finals: set<char>) {
    t == [] || t[|t| - 1] !in finals
  }

  /** A token not ending in `o` or `e`, in either case, is no keyword. */
  lemma KeywordMisses(t: string)
    requires EndsOutside(t, {'o', 'O', 'e', 'E'})
    ensures Keyword(t).None?
  {
    if Keyword(t).Some? {
      KeywordFinal(t);
    }
  }

  /** A trimmed token ending in none of `m`, `i`, `t`, `n`, `x` carries no length suffix. */
  lemma LengthMisses(t: string)
    requires IsTrimmed(t) && EndsOutside(t, {'m', 'i', 't', 'n', 'x'})
    ensures ParseLength(t).None?
  {
    TrimOfTrimmed(t);
    SuffixTablesShape();
    FamilyMisses(LENGTH_SUFFIXES, t, {'m', 'i', 't', 'n', 'x'});
  }

  /** A trimmed token ending in none of `g`, `d` carries no angle suffix. */
  lemma AngleMisses(t: string)
    requires IsTrimmed(t) && EndsOutside(t, {'g', 'd'})
    ensures ParseAngle(t).None?
  {
    TrimOfTrimmed(t);
    SuffixTablesShape();
    FamilyMisses(ANGLE_SUFFIXES, t, {'g', 'd'});
  }

  /** A trimmed token ending in none of `c`, `n`, `r`, `y` carries no time suffix. */
  lemma TimeMisses(t: string)
    requires IsTrimmed(t) && EndsOutside(t, {'c', 'n', 'r', 'y'})
    ensures ParseTime(t).None?
  {
    TrimOfTrimmed(t);
    SuffixTablesShape();
    FamilyMisses(TIME_SUFFIXES, t, {'c', 'n', 'r', 'y'});
  }

  /** A trimmed token ending in none of `B`, `b` carries no data size suffix. */
  lemma DataSizeMisses(t: string)
    requires IsTrimmed(t) && EndsOutside(t, {'B', 'b'})
    ensures ParseDataSize(t).None?
  {
    TrimOfTrimmed(t);
    SuffixTablesShape();
    FamilyMisses(DATA_SIZE_SUFFIXES, t, {'B', 'b'});
  }

  /** A trimmed token not ending in `z` carries no frequency suffix. */
  lemma FrequencyMisses(t: string)
    requires IsTrimmed(t) && EndsOutside(t, {'z'})
    ensures ParseFrequency(t).None?
  {
    TrimOfTrimmed(t);
    SuffixTablesShape();
    FamilyMisses(FREQUENCY_SUFFIXES, t, {'z'});
  }

  /** A trimmed token not ending in `%` is no percentage. */
  lemma PercentageMisses(t: string)
    requires IsTrimmed(t) && EndsOutside(t, {'%'})
    ensures ParsePercentage(t).None?
  {
    TrimOfTrimmed(t);
    if Carries(t, "%") { EndsLikeSuffix(t, "%"); }
  }

  /** A trimmed token not ending in `r` is no fraction. */
  lemma FractionMisses(t: string)
    requires IsTrimmed(t) && EndsOutside(t, {'r'})
    ensures ParseFraction(t).None?
  {
    TrimOfTrimmed(t);
    if Carries(t, "fr") { EndsLikeSuffix(t, "fr"); }
  }

  /**
   * A token that does not end in one of `UNIT_FINALS` (one ending in a digit
   * or a dot, say) is neither a keyword nor a unit value: only the `i64` and
   * `f64` readings are left for it.
   */
  lemma OnlyNumbersWithoutFinal(input: string)
    requires EndsOutside(Trim(input), UNIT_FINALS)
    ensures Unclaimed(Trim(input))
  {
    var t := Trim(input);
    KeywordMisses(t);
    LengthMisses(t);
    AngleMisses(t);
    TimeMisses(t);
    DataSizeMisses(t);
    FrequencyMisses(t);
    PercentageMisses(t);
    FractionMisses(t);
  }
}
