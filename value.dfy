/**
 * The resolved value of a LaCoN token: a closed tagged union, and its
 * accessors, each of which projects exactly one variant.
 */
module Value {
  import Options
  import opened Numbers
  import opened LengthUnits
  import opened AngleUnits
  import opened TimeUnits
  import opened DataSizeUnits
  import opened FrequencyUnits

  datatype LaCoNValue =
    | Int(integer: I64)
    | Float(number: F64)
    | Bool(flag: bool)
    | Array(items: seq<LaCoNValue>)
    | Dictionary(entries: map<string, LaCoNValue>)
    | Length(length: F64, lengthUnit: LengthUnit)
    | Angle(angle: F64, angleUnit: AngleUnit)
    | Time(time: F64, timeUnit: TimeUnit)
    | DataSize(size: F64, sizeUnit: DataSizeUnit)
    | Frequency(frequency: F64, frequencyUnit: FrequencyUnit)
    | Percentage(percentage: F64)
    | Fraction(fraction: F64)
    | Auto
    | None
    /** Text that was quoted in the document: never read as a typed scalar. */
    | StringLiteral(literal: string)
    /** Text that no recogniser claimed. */
    | String(text: string)
  {
    /** `as_string`: the text of a `String`; a `StringLiteral` is not one. */
    function AsString(): (r: Options.Option<string>)
      ensures r.Some? <==> this.String?
      ensures r.Some? ==> this == String(r.value)
    {
      match this
      case String(s) => Options.Some(s)
      case _ => Options.None
    }

    /** `as_int`: the payload of an `Int`, and of nothing else. */
    function AsInt(): (r: Options.Option<I64>)
      ensures r.Some? <==> this.Int?
      ensures r.Some? ==> this == Int(r.value)
    {
      match this
      case Int(i) => Options.Some(i)
      case _ => Options.None
    }

    /** `as_float`: the payload of a `Float`; an `Int` is not widened. */
    function AsFloat(): (r: Options.Option<F64>)
      ensures r.Some? <==> this.Float?
      ensures r.Some? ==> this == Float(r.value)
    {
      match this
      case Float(f) => Options.Some(f)
      case _ => Options.None
    }

    /** `as_bool`: the payload of a `Bool`, and of nothing else. */
    function AsBool(): (r: Options.Option<bool>)
      ensures r.Some? <==> this.Bool?
      ensures r.Some? ==> this == Bool(r.value)
    {
      match this
      case Bool(b) => Options.Some(b)
      case _ => Options.None
    }

    /** `as_array`: the elements of an `Array`, and of nothing else. */
    function AsArray(): (r: Options.Option<seq<LaCoNValue>>)
      ensures r.Some? <==> this.Array?
      ensures r.Some? ==> this == Array(r.value)
    {
      match this
      case Array(a) => Options.Some(a)
      case _ => Options.None
    }

    /** `as_dict`: the entries of a `Dictionary`, and of nothing else. */
    function AsDict(): (r: Options.Option<map<string, LaCoNValue>>)
      ensures r.Some? <==> this.Dictionary?
      ensures r.Some? ==> this == Dictionary(r.value)
    {
      match this
      case Dictionary(d) => Options.Some(d)
      case _ => Options.None
    }

    /** `is_auto`. */
    predicate IsAuto()
      ensures IsAuto() <==> this == Auto
    {
      this.Auto?
    }

    /** `is_none`. */
    predicate IsNone()
      ensures IsNone() <==> this == None
    {
      this.None?
    }

    /** How many of the eight accessors answer `Some` or `true`. */
    function AnswerCount(): (count: nat) {
      (if AsString().Some? then 1 else 0) + (if AsInt().Some? then 1 else 0)
      + (if AsFloat().Some? then 1 else 0) + (if AsBool().Some? then 1 else 0)
      + (if AsArray().Some? then 1 else 0) + (if AsDict().Some? then 1 else 0)
      + (if IsAuto() then 1 else 0) + (if IsNone() then 1 else 0)
    }
  }

  /**
   * At most one accessor answers for any value, and exactly one does for the
   * variants that have an accessor.
   */
  lemma AtMostOneAccessor(v: LaCoNValue)
    ensures v.AnswerCount() <= 1
    ensures v.AnswerCount() == 1 <==> v.String? || v.Int? || v.Float? || v.Bool? || v.Array? || v.Dictionary? || v.Auto? || v.None?
  {
  }

  /** Quoted text is invisible to `as_string`, and `as_float` does not widen an `Int`. */
  lemma AccessorExamples()
    ensures StringLiteral("x").AsString() == Options.None && String("x").AsString() == Options.Some("x")
    ensures Int(3).AsFloat() == Options.None && Int(3).AsInt() == Options.Some(3)
  {
  }
}
