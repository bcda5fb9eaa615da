/**
 * What the recogniser makes of particular shapes of token, and the worked
 * tokens its precedence rules single out.
 */
module ParserTokens {
  import opened Options
  import opened Text
  import opened Numbers
  import opened LengthUnits
  import opened TimeUnits
  import opened Value
  import opened Parser

  /** A bare numeral that reads as an `i64` is `Int`. */
  lemma NumeralIsInt(input: string)
    requires EndsOutside(Trim(input), UNIT_FINALS) && ParseI64(Trim(input)).Some?
    ensures ParseTypedValue(input) == Some(Int(ParseI64(Trim(input)).value))
  {
    OnlyNumbersWithoutFinal(input);
    Precedence(input);
  }

  /** A bare numeral that is no `i64` but reads as an `f64` is `Float`. */
  lemma NumeralIsFloat(input: string)
    requires EndsOutside(Trim(input), UNIT_FINALS)
    requires ParseI64(Trim(input)).None? && ParseF64(Trim(input)).Some?
    ensures ParseTypedValue(input) == Some(Float(ParseF64(Trim(input)).value))
  {
    OnlyNumbersWithoutFinal(input);
    Precedence(input);
  }

  /**
   * A token that ends outside every suffix and reads as no number has no
   * typed reading, and `parse_value` keeps it, untrimmed, as `String`.
   */
  lemma UnreadableIsText(input: string)
    requires EndsOutside(Trim(input), UNIT_FINALS)
    requires ParseI64(Trim(input)).None? && ParseF64(Trim(input)).None?
    ensures ParseTypedValue(input).None?
    ensures ParseValue(input) == Some(String(input))
  {
    OnlyNumbersWithoutFinal(input);
    Precedence(input);
  }

  /**
   * A token that ends in a character no unit suffix and no number ends with
   * (a letter such as `s`, say) is kept as `String`.
   */
  lemma StrayEndingIsText(input: string)
    requires Trim(input) != [] && EndsOutside(Trim(input), UNIT_FINALS)
    requires !FloatEnding(Trim(input)[|Trim(input)| - 1])
    ensures ParseValue(input) == Some(String(input))
  {
    F64Ending(Trim(input));
    UnreadableIsText(input);
  }

  /** No keyword, unit suffix, `%` or `fr` ends in a digit. */
  lemma DigitEndsOutside(t: string)
    requires t != [] && IsDigit(t[|t| - 1])
    ensures EndsOutside(t, UNIT_FINALS)
  {
  }

  /** A run of digits spelling a number within range of `i64` is `Int`. */
  lemma WholeNumber(p: string)
    requires p != [] && AllDigits(p) && DigitsValue(p) <= 0x7FFF_FFFF_FFFF_FFFF
    ensures ParseTypedValue(p) == Some(Int(DigitsValue(p) as I64))
  {
    DigitsAreI64(p);
    TrimOfTrimmed(p);
    DigitEndsOutside(p);
    NumeralIsInt(p);
  }

  /** `12` reads as an `i64` and so is `Int(12)`, though it is a valid `f64` too. */
  lemma Twelve()
    ensures ParseTypedValue("12") == Some(Int(12))
  {
    assert DigitsValue("12") == 12;
    WholeNumber("12");
  }

  /** How `12.5` reads as a number. */
  lemma TwelveAndAHalfReads()
    ensures ParseI64("12.5").None?
    ensures ParseF64("12.5") == Some(Finite(12.5))
  {
    assert !IsDigit("12.5"[|"12.5"| - 1 - 1]);
    DigitFirstIsDecimal("12.5");
    assert ScanNumber("12.5", false) == Some(Digits(125, 3, 1, 0));
  }

  /** A trimmed token ending in a digit that is no `i64` but an `f64` is `Float`. */
  lemma FloatNumeral(t: string)
    requires IsTrimmed(t) && t != [] && IsDigit(t[|t| - 1])
    requires ParseI64(t).None? && ParseF64(t).Some?
    ensures ParseTypedValue(t) == Some(Float(ParseF64(t).value))
  {
    TrimOfTrimmed(t);
    DigitEndsOutside(t);
    NumeralIsFloat(t);
  }

  /** `12.5` is no `i64`, so it is `Float(12.5)`. */
  lemma TwelveAndAHalf()
    ensures ParseTypedValue("12.5") == Some(Float(Finite(12.5)))
  {
    TwelveAndAHalfReads();
    FloatNumeral("12.5");
  }

  /**
   * No entry from `lo` to `hi` can be carried when each of their suffixes
   * ends in a character other than the token's last one.
   */
  lemma EntriesEndElsewhere<U>(table: seq<(string, U)>, s: string, lo: int, hi: int)
    requires 0 <= lo <= hi <= |table| && s != []
    requires forall j :: lo <= j < hi ==> table[j].0 != [] && table[j].0[|table[j].0| - 1] != s[|s| - 1]
    ensures forall j {:trigger Carries(s, table[j].0)} :: lo <= j < hi ==> !Carries(s, table[j].0)
  {
  }

  /**
   * A token that is no keyword and whose first carried length suffix is
   * entry `i` is the `Length` of that entry.
   */
  lemma LengthToken(input: string, i: int)
    requires 0 <= i < |LENGTH_SUFFIXES|
    requires EndsOutside(Trim(input), {'o', 'O', 'e', 'E'})
    requires Carries(Trim(input), LENGTH_SUFFIXES[i].0)
    requires forall j {:trigger Carries(Trim(input), LENGTH_SUFFIXES[j].0)} :: 0 <= j < i ==>
      !Carries(Trim(input), LENGTH_SUFFIXES[j].0)
    ensures ParseTypedValue(input) ==
      Some(Length(Amount(Trim(input), LENGTH_SUFFIXES[i].0), LENGTH_SUFFIXES[i].1))
  {
    var t := Trim(input);
    TrimIdempotent(input);
    KeywordMisses(t);
    FirstEntryDecides(LENGTH_SUFFIXES, t, i);
    Precedence(input);
  }

  /** Any number followed by `px` is that many pixels: no earlier suffix ends in `x`. */
  lemma Pixels(p: string)
    requires IsTrimmed(p + "px") && ParseF64(p).Some?
    ensures ParseTypedValue(p + "px") == Some(Length(ParseF64(p).value, Pixel))
  {
    var t := p + "px";
    TrimOfTrimmed(t);
    StripAppended(p, "px");
    assert Carries(t, LENGTH_SUFFIXES[10].0);
    EntriesEndElsewhere(LENGTH_SUFFIXES, t, 0, 10);
    LengthToken(t, 10);
  }

  /** `12.5px` is `Length(12.5, Pixel)`. */
  lemma TwelveAndAHalfPixels()
    ensures ParseTypedValue("12.5px") == Some(Length(Finite(12.5), Pixel))
  {
    TwelveAndAHalfReads();
    assert "12.5" + "px" == "12.5px";
    TrimOfTrimmed("12.5px");
    Pixels("12.5");
  }

  /** No keyword and none of the five unit families claims a trimmed token ending in `%`. */
  lemma PercentEndsFamilies(t: string)
    requires IsTrimmed(t) && t != [] && t[|t| - 1] == '%'
    ensures Keyword(t).None? && ParseLength(t).None? && ParseAngle(t).None? &&
            ParseTime(t).None? && ParseDataSize(t).None? && ParseFrequency(t).None?
  {
    KeywordMisses(t);
    LengthMisses(t);
    AngleMisses(t);
    TimeMisses(t);
    DataSizeMisses(t);
    FrequencyMisses(t);
  }

  /**
   * Any number followed by `%` is that percentage: `%` ends no keyword and
   * no suffix of the five families tried before it.
   */
  lemma Percent(p: string)
    requires ParseF64(p).Some?
    ensures ParseTypedValue(p + "%") == Some(Percentage(ParseF64(p).value))
  {
    var t := p + "%";
    assert t[0] == p[0] && t[|t| - 1] == '%';
    PercentEndsFamilies(t);
    TrimOfTrimmed(t);
    PercentageReads(t);
    Precedence(t);
  }

  /** `12.5%` is `Percentage(12.5)`. */
  lemma TwelveAndAHalfPercent()
    ensures ParseTypedValue("12.5%") == Some(Percentage(Finite(12.5)))
  {
    TwelveAndAHalfReads();
    assert "12.5" + "%" == "12.5%";
    Percent("12.5");
  }

  /**
   * The time family misses a trimmed token ending in `fr`: only `hour` among
   * its suffixes ends in `r`, and `hour` does not end in `fr`.
   */
  lemma FrIsNoTime(t: string)
    requires IsTrimmed(t) && |t| >= 2 && t[|t| - 2] == 'f' && t[|t| - 1] == 'r'
    ensures ParseTime(t).None?
  {
    TrimOfTrimmed(t);
    EntriesEndElsewhere(TIME_SUFFIXES, t, 0, 2);
    EntriesEndElsewhere(TIME_SUFFIXES, t, 3, 4);
  }

  /**
   * No keyword and none of the six families tried before fractions claims a
   * trimmed token ending in `fr`.
   */
  lemma FrEndsFamilies(t: string)
    requires IsTrimmed(t) && |t| >= 2 && t[|t| - 2] == 'f' && t[|t| - 1] == 'r'
    ensures Keyword(t).None? && ParseLength(t).None? && ParseAngle(t).None? &&
            ParseTime(t).None? && ParseDataSize(t).None? && ParseFrequency(t).None? &&
            ParsePercentage(t).None?
  {
    KeywordMisses(t);
    LengthMisses(t);
    AngleMisses(t);
    FrIsNoTime(t);
    DataSizeMisses(t);
    FrequencyMisses(t);
    PercentageMisses(t);
  }

  /** Any number followed by `fr` is that fraction. */
  lemma FractionOf(p: string)
    requires ParseF64(p).Some?
    ensures ParseTypedValue(p + "fr") == Some(Fraction(ParseF64(p).value))
  {
    var t := p + "fr";
    assert t[0] == p[0] && t[|t| - 2] == 'f' && t[|t| - 1] == 'r';
    FrEndsFamilies(t);
    TrimOfTrimmed(t);
    FractionReads(t);
    Precedence(t);
  }

  /** `2fr` is `Fraction(2)`. */
  lemma TwoFr()
    ensures ParseTypedValue("2fr") == Some(Fraction(Finite(2.0)))
  {
    assert DigitsValue("2") == 2;
    DigitsAreF64("2");
    assert "2" + "fr" == "2fr";
    FractionOf("2");
  }

  /**
   * Before `rem`, the entry `em` is tried on the token and leaves `p`
   * followed by `r`, which no `f64` literal ends in.
   */
  lemma RemTriesEmFirst(p: string)
    ensures forall j {:trigger Carries(p + "rem", LENGTH_SUFFIXES[j].0)} :: 0 <= j < 7 ==>
      !Carries(p + "rem", LENGTH_SUFFIXES[j].0)
  {
    F64Ending(p + "r");
    assert (p + "r")[|p|] == 'r';
    var t := p + "rem";
    assert t[|t| - 2..] == "em";
    assert forall j :: 0 <= j < 6 ==> !EndsWith(t, LENGTH_SUFFIXES[j].0);
    assert t == (p + "r") + "em";
    StripAppended(p + "r", "em");
    assert LENGTH_SUFFIXES[6].0 == "em";
  }

  /**
   * Any number followed by `rem` is in `Rem`, although `em` comes first in
   * the table.
   */
  lemma RemAfterEm(p: string)
    requires ParseF64(p).Some?
    ensures ParseTypedValue(p + "rem") == Some(Length(ParseF64(p).value, Rem))
  {
    var t := p + "rem";
    assert t[0] == p[0] && t[|t| - 1] == 'm';
    StripAppended(p, "rem");
    TrimOfTrimmed(t);
    RemTriesEmFirst(p);
    assert EndsOutside(t, {'o', 'O', 'e', 'E'});
    LengthToken(t, 7);
  }

  /** So every whole number followed by `rem` is that many `Rem`. */
  lemma WholeRem(p: string)
    requires p != [] && AllDigits(p)
    ensures ParseTypedValue(p + "rem") == Some(Length(Finite(DigitsValue(p) as real), Rem))
  {
    DigitsAreF64(p);
    RemAfterEm(p);
  }

  /** `10rem` is `Length(10, Rem)`: the entry `em` leaves `10r`, which is no number. */
  lemma TenRem()
    ensures ParseTypedValue("10rem") == Some(Length(Finite(10.0), Rem))
  {
    assert "10" + "rem" == "10rem";
    assert DigitsValue("10") == 10;
    WholeRem("10");
  }

  /**
   * The length entry `in` is tried on `p` followed by `min`, and leaves `p`
   * followed by `m`, which no `f64` literal ends in.
   */
  lemma InLeavesM(p: string)
    ensures !Carries(p + "min", "in")
  {
    F64Ending(p + "m");
    assert (p + "m")[|p|] == 'm';
    assert p + "min" == (p + "m") + "in";
    StripAppended(p + "m", "in");
  }

  /** So `p` followed by `min` carries no length suffix. */
  lemma MinCarriesNoLength(p: string)
    ensures forall j {:trigger Carries(p + "min", LENGTH_SUFFIXES[j].0)} :: 0 <= j < |LENGTH_SUFFIXES| ==>
      !Carries(p + "min", LENGTH_SUFFIXES[j].0)
  {
    var t := p + "min";
    InLeavesM(p);
    assert LENGTH_SUFFIXES[9].0 == "in";
    EntriesEndElsewhere(LENGTH_SUFFIXES, t, 0, 9);
    EntriesEndElsewhere(LENGTH_SUFFIXES, t, 10, 12);
  }

  /** After the length family, `min` is the time family's second entry. */
  lemma MinIsMinute(p: string)
    requires ParseF64(p).Some?
    ensures ParseTime(p + "min") == Some(Time(ParseF64(p).value, Minute))
  {
    var t := p + "min";
    assert t[0] == p[0] && t[|t| - 1] == 'n';
    TrimOfTrimmed(t);
    StripAppended(p, "min");
    assert Carries(t, TIME_SUFFIXES[1].0);
    EntriesEndElsewhere(TIME_SUFFIXES, t, 0, 1);
    FirstEntryDecides(TIME_SUFFIXES, t, 1);
  }

  /**
   * Any number followed by `min` is in `Minute`, although length's `in`
   * comes first.
   */
  lemma MinutesAfterInches(p: string)
    requires ParseF64(p).Some?
    ensures ParseTypedValue(p + "min") == Some(Time(ParseF64(p).value, Minute))
  {
    var t := p + "min";
    assert t[0] == p[0] && t[|t| - 1] == 'n';
    TrimOfTrimmed(t);
    KeywordMisses(t);
    MinCarriesNoLength(p);
    assert ParseLength(t).None?;
    AngleMisses(t);
    MinIsMinute(p);
    Precedence(t);
  }

  /** So every whole number followed by `min` is that many minutes. */
  lemma WholeMinutes(p: string)
    requires p != [] && AllDigits(p)
    ensures ParseTypedValue(p + "min") == Some(Time(Finite(DigitsValue(p) as real), Minute))
  {
    DigitsAreF64(p);
    MinutesAfterInches(p);
  }

  /** `5min` is `Time(5, Minute)`: length's `in` leaves `5m`, which is no number. */
  lemma FiveMinutes()
    ensures ParseTypedValue("5min") == Some(Time(Finite(5.0), Minute))
  {
    assert "5" + "min" == "5min";
    assert DigitsValue("5") == 5;
    WholeMinutes("5");
  }

  /** If what comes before `px` is no number, the token carries no length suffix. */
  lemma PixelsCarryNothing(p: string)
    requires ParseF64(p).None?
    ensures forall j {:trigger Carries(p + "px", LENGTH_SUFFIXES[j].0)} :: 0 <= j < |LENGTH_SUFFIXES| ==>
      !Carries(p + "px", LENGTH_SUFFIXES[j].0)
  {
    var t := p + "px";
    StripAppended(p, "px");
    assert !Carries(t, LENGTH_SUFFIXES[10].0);
    EntriesEndElsewhere(LENGTH_SUFFIXES, t, 0, 10);
    EntriesEndElsewhere(LENGTH_SUFFIXES, t, 11, 12);
  }

  /**
   * A trimmed token made of `px` after something that is no number is no
   * length, whether that is nothing at all or a number and a space.
   */
  lemma PixelsNeedNumber(p: string)
    requires IsTrimmed(p + "px") && ParseF64(p).None?
    ensures ParseLength(p + "px").None?
    ensures !(ParseTypedValue(p + "px").Some? && ParseTypedValue(p + "px").value.Length?)
  {
    var t := p + "px";
    TrimOfTrimmed(t);
    PixelsCarryNothing(p);
    assert ParseLength(t).None?;
    Provenance(t);
  }

  /** `px` alone becomes no `Length`. */
  lemma BarePixels()
    ensures !(ParseTypedValue("px").Some? && ParseTypedValue("px").value.Length?)
  {
    assert [] + "px" == "px";
    PixelsNeedNumber([]);
  }

  /** `10 px` becomes no `Length`: the space before the suffix is part of the number. */
  lemma SpacedPixels()
    ensures !(ParseTypedValue("10 px").Some? && ParseTypedValue("10 px").value.Length?)
  {
    assert "10 " + "px" == "10 px";
    PixelsNeedNumber("10 ");
  }

  /** Whatever case the keyword `true` is written in, it is `Bool(true)`. */
  lemma TrueKeyword(input: string)
    requires AsciiLower(Trim(input)) == "true"
    ensures ParseValue(input) == Some(Bool(true))
  {
    KeywordsFirst(input);
  }

  /** `true` is already trimmed and in lower case. */
  lemma TrueIsItsOwnForm()
    ensures Trim("true") == "true"
    ensures AsciiLower("true") == "true"
  {
    LowerOfLower("true");
    TrimOfTrimmed("true");
  }

  /**
   * A quoted `true` stays the text it was, while the same token unquoted is
   * the keyword.
   */
  lemma QuotedTrue()
    ensures ParseStringLiteral("true") == StringLiteral("true")
    ensures ParseValue("true") == Some(Bool(true))
  {
    TrueIsItsOwnForm();
    TrueKeyword("true");
  }

  /** A trimmed token ending in a letter no suffix and no number ends with is `String`. */
  lemma TextToken(t: string)
    requires IsTrimmed(t) && t != [] && t[|t| - 1] !in UNIT_FINALS && !FloatEnding(t[|t| - 1])
    ensures ParseValue(t) == Some(String(t))
  {
    TrimOfTrimmed(t);
    StrayEndingIsText(t);
  }

  /** `5ms` is not a `Time` value: the recogniser does not know the suffix `ms`. */
  lemma MillisecondsAreText()
    ensures ParseValue("5ms") == Some(String("5ms"))
  {
    TextToken("5ms");
  }

  /** `5s` is not a `Time` value either: `s` is no suffix of the recogniser. */
  lemma SecondsAreText()
    ensures ParseValue("5s") == Some(String("5s"))
  {
    TextToken("5s");
  }
}
