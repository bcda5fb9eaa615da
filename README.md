# LaCoN typed-value recogniser in Dafny

LaCoN is a line-oriented configuration language whose values may be typed
scalars: lengths, angles, durations, data sizes, frequencies, percentages,
fractions, keywords and plain numbers. This project models the part of the
Rust implementation that turns one bare token into a `LaCoNValue`:

- `parse_typed_value`, which tries a fixed chain of recognisers, the first
  success winning;
- `parse_value`, its total fallback to `String`;
- `parse_string_literal`, for quoted text;
- the five unit registries with their suffix tables and conversions;
- the value union and its accessors.

Everything in the core is pure, so the model is datatypes, functions and lemmas.

Modules:

- `Options`: Rust's `Option`, and `Option::or`.
- `Text`: the pieces of Rust's `str` the recogniser relies on.
  - `trim`, with the exact Unicode `White_Space` set.
  - ASCII lower-casing, and the character-by-character comparison `FoldsTo`.
  - `strip_suffix`.
- `Numbers`: which strings `parse::<i64>` and `parse::<f64>` accept, and the
  value of each accepted string.
  - `I64` is a newtype with the exact 64-bit range, so an integer literal out
    of range falls through to `Float`, as it does in Rust.
  - `F64` is `Finite(real) | Infinity(negative) | NaN`, so `inf`,
    `infinity` and `nan` (signed, any case) read as they do in Rust.
- `LengthUnits`, `AngleUnits`, `TimeUnits`, `DataSizeUnits`, `FrequencyUnits`:
  - the unit tags;
  - each `from_suffix` table, as a constant `map`;
  - the conversions, over `real`.
- `Value`: the `LaCoNValue` union and its eight accessors.
- `Parser`: the recogniser.
  - Its own inline suffix tables, which differ from the registries, as
    `seq<(string, Unit)>` in source order.
  - The first-match search `FirstCarried` over a table.
  - The seven family recognisers, the keyword check, `ParseTypedValue`,
    `ParseValue` and `ParseStringLiteral`.
  - The lemmas on precedence, provenance and the tags that can never come out.
- `ParserTokens`: what the recogniser makes of particular token shapes, and
  the worked examples:
  - `12` is `Int`, `12.5` is `Float`, `12.5px` is `Length(12.5, Pixel)`;
  - `10rem` is `Rem` although `em` comes first;
  - `5min` is `Minute` although length's `in` comes first;
  - a bare `px` and `10 px` are no length;
  - a quoted `true` stays text;
  - `5ms` and `5s` are `String`.

Notes on the code's behaviour:

- `parse_value` returns `Option<LaCoNValue>`, and it is always `Some`.
- Keywords are checked before any unit family.
- Each family tries its table in the order written in the source, not
  longest suffix first: `em` is tried before `rem`, and length's `in` before
  time's `min`. `10rem` and `5min` come out right only because no `f64`
  literal ends in `r` or `m`.

## Model

| member | source | states |
|---|---|---|
| `Options.Option.Or` | src/parser.rs:54 | `a.or(b)` is `a` when `a` holds a value and `b` otherwise |
| `Text.Trim` | src/parser.rs:8 | the result has no white space at either end, and is the input with only white space cut from its two ends |
| `Text.TrimOfTrimmed` | src/parser.rs:58 | a string with no white space at either end is its own trim, so the families' second `trim` changes nothing |
| `Text.TrimIdempotent` | src/parser.rs:58 | trimming twice is trimming once |
| `Text.AsciiLower` | src/parser.rs:9 | lower-casing keeps the length and folds each character on its own |
| `Text.FoldsToLower` | src/parser.rs:12 | comparing character by character with folding is the same as comparing the lower-cased token with the keyword |
| `Text.StripSuffix` | src/parser.rs:76 | there is a remainder exactly when the string ends with the suffix, and the remainder followed by the suffix is the string |
| `Text.StripAppended` | src/parser.rs:76 | stripping an appended suffix gives back what it was appended to |
| `Numbers.ParseI64` | src/parser.rs:43 | an accepted `i64` literal is non-empty, has no white space at either end and ends in a digit |
| `Numbers.ParseF64` | src/parser.rs:77 | an accepted `f64` literal is non-empty and has no white space at either end, so the empty string and `10 ` are rejected |
| `Numbers.IntIsFloat` | src/parser.rs:43-48 | every string `i64` accepts is an `f64` too, with the same value |
| `Numbers.F64Ending` | src/parser.rs:77 | an accepted `f64` literal ends in a digit, a dot, or the last letter of `inf`, `infinity` or `nan` |
| `Numbers.DigitsAreI64` | src/parser.rs:43 | a run of digits within range reads as the `i64` it spells |
| `Numbers.DigitsAreF64` | src/parser.rs:77 | a run of digits reads as the finite `f64` it spells |
| `Numbers.SplitSign` | src/parser.rs:43 | at most one leading `+` or `-` is removed, and the reading is negative exactly when that sign was `-` |
| `Numbers.ScanNumber` | src/parser.rs:46 | a scanned mantissa starts with a digit, a dot or an exponent mark and ends in a digit or a dot; one that starts with the exponent mark has no mantissa digits |
| `Numbers.ParseExponent` | src/parser.rs:46 | an accepted exponent ends in a digit |
| `Numbers.ParseDecimal` | src/parser.rs:46 | an accepted unsigned decimal is non-empty, has no white space at either end, and ends in a digit or a dot |
| `Numbers.ScanDigits` | src/parser.rs:46 | a run of digits scans as the number it spells, with that many mantissa digits and no exponent |
| `Parser.ParseStringLiteral` | src/parser.rs:3-5 | the result is `StringLiteral` holding the input unchanged, and `as_string` does not see it |
| `Parser.Carries` | src/parser.rs:76-77 | a token carries a suffix exactly when it is some `f64` literal followed by that suffix |
| `Parser.Amount` | src/parser.rs:76-77 | the number of a carried suffix is the `f64` reading of the text in front of the suffix |
| `Parser.FirstCarried` | src/parser.rs:75-81 | the index found is carried and no earlier entry is; when there is none, no entry is carried |
| `Parser.ScanSuffixes` | src/parser.rs:75-83 | a family answers exactly when some entry of its table is carried, and only with a tag in its table |
| `Parser.ParseLength` | src/parser.rs:57-84 | only a `Length`, and never in micrometres |
| `Parser.ParseAngle` | src/parser.rs:86-100 | only an `Angle` |
| `Parser.ParseTime` | src/parser.rs:102-121 | only a `Time`, in seconds, minutes, hours or days |
| `Parser.ParseDataSize` | src/parser.rs:123-146 | only a `DataSize` |
| `Parser.ParseFrequency` | src/parser.rs:148-165 | only a `Frequency`, in kilohertz or hertz |
| `Parser.ParsePercentage` | src/parser.rs:167-177 | only a `Percentage` |
| `Parser.ParseFraction` | src/parser.rs:179-189 | only a `Fraction` |
| `Parser.PercentageReads` | src/parser.rs:167-177 | there is a percentage exactly when the trimmed token is an `f64` literal followed by `%`, and it is that literal's number |
| `Parser.FractionReads` | src/parser.rs:179-189 | there is a fraction exactly when the trimmed token is an `f64` literal followed by `fr`, and it is that literal's number |
| `Parser.Keyword` | src/parser.rs:12-18 | only `Auto`, `None` or a `Bool` |
| `Parser.ParseValue` | src/parser.rs:53-55 | always answers; it is `String` exactly when there is no typed reading, and that `String` holds the untrimmed input; otherwise it is the typed reading |
| `Parser.QuotedIsNeverTyped` | src/parser.rs:3-5 | the quoted reading of a token never equals its unquoted reading |
| `Parser.Precedence` | src/parser.rs:7-50 | when every earlier recogniser on the trimmed token is silent and one answers, its answer is the result; with all eight silent, `i64` comes before `f64`; there is no typed reading exactly when all ten are silent |
| `Parser.ChainOutcome` | src/parser.rs:7-50 | over any readings of the ten recognisers, each kind of value comes from its own reading after all earlier readings were silent |
| `Parser.Provenance` | src/parser.rs:7-50 | a value of each kind comes only from its own recogniser, after every earlier one stayed silent |
| `Parser.ParseTypedValue` | src/parser.rs:7-51 | a typed reading is never text, an array or a dictionary, never in micrometres, nano-, micro- or milliseconds, weeks, months or years, and never in megahertz and above |
| `Parser.KeywordsFirst` | src/parser.rs:8-18 | the answer is `Auto`, `None`, `Bool(true)` or `Bool(false)` exactly when the trimmed, lower-cased token is `auto`, `none`, `true` or `false` |
| `Parser.IntegersBeforeFloats` | src/parser.rs:43-48 | a `Float` answer is never an `i64` literal; an unclaimed `i64` literal is `Int`, although it also reads as an `f64` |
| `Parser.FirstEntryDecides` | src/parser.rs:75-81 | the first carried entry decides the family's tag and number |
| `Parser.CarriedNeedsNumber` | src/parser.rs:76-78 | a carried suffix has a non-empty number right in front of it, with no white space before the suffix |
| `Parser.EndsLikeSuffix` | src/parser.rs:76 | a suffix can only be carried by a token ending in the suffix's last character |
| `Parser.ScanNeedsFinal` | src/parser.rs:75-81 | a family only answers for a token ending in a final character of its table |
| `Parser.KeywordFinal` | src/parser.rs:12-18 | every keyword ends in `o` or `e`, in either case |
| `Parser.FamilyMisses` | src/parser.rs:75-83 | a family misses every token that ends outside its table's final characters |
| `Parser.SuffixTablesShape` | src/parser.rs:60-154 | every inline suffix is non-empty, and each family's suffixes end only in the characters listed for it |
| `Parser.KeywordMisses` | src/parser.rs:12-18 | a token ending in neither `o` nor `e` is no keyword |
| `Parser.LengthMisses` | src/parser.rs:60-73 | a trimmed token ending in none of `m`, `i`, `t`, `n`, `x` is no length |
| `Parser.AngleMisses` | src/parser.rs:89 | a trimmed token ending in neither `g` nor `d` is no angle |
| `Parser.TimeMisses` | src/parser.rs:105-110 | a trimmed token ending in none of `c`, `n`, `r`, `y` is no time |
| `Parser.DataSizeMisses` | src/parser.rs:126-135 | a trimmed token ending in neither `B` nor `b` is no data size |
| `Parser.FrequencyMisses` | src/parser.rs:151-154 | a trimmed token not ending in `z` is no frequency |
| `Parser.PercentageMisses` | src/parser.rs:170 | a trimmed token not ending in `%` is no percentage |
| `Parser.FractionMisses` | src/parser.rs:182 | a trimmed token not ending in `r` is no fraction |
| `Parser.OnlyNumbersWithoutFinal` | src/parser.rs:12-41 | a token ending in a digit, say, is claimed by no keyword and no unit family |
| `ParserTokens.NumeralIsInt` | src/parser.rs:43-45 | a token whose trimmed form ends outside every unit and keyword final and reads as an `i64` is that `Int` |
| `ParserTokens.NumeralIsFloat` | src/parser.rs:46-48 | a token whose trimmed form ends outside every unit and keyword final and is no `i64` but an `f64` is that `Float` |
| `ParserTokens.UnreadableIsText` | src/parser.rs:50-55 | a token claimed by nothing has no typed reading and is kept, untrimmed, as `String` |
| `ParserTokens.StrayEndingIsText` | src/parser.rs:53-55 | a token whose trimmed form ends in a character that no suffix, keyword or number ends with is kept, untrimmed, as `String` |
| `ParserTokens.WholeNumber` | src/parser.rs:43-45 | a run of digits within range is the `Int` it spells |
| `ParserTokens.Twelve` | src/parser.rs:43-45 | `12` is `Int(12)` |
| `ParserTokens.TwelveAndAHalfReads` | src/parser.rs:43-48 | `12.5` is no `i64` and is the `f64` 12.5 |
| `ParserTokens.FloatNumeral` | src/parser.rs:46-48 | a trimmed token ending in a digit that is no `i64` but an `f64` is `Float` |
| `ParserTokens.TwelveAndAHalf` | src/parser.rs:46-48 | `12.5` is `Float(12.5)` |
| `ParserTokens.LengthToken` | src/parser.rs:21-23 | a token that is no keyword and whose first carried length entry is `i` is the `Length` of entry `i` |
| `ParserTokens.Pixels` | src/parser.rs:71 | any number followed by `px` is that many pixels |
| `ParserTokens.TwelveAndAHalfPixels` | src/parser.rs:71 | `12.5px` is `Length(12.5, Pixel)` |
| `ParserTokens.PercentEndsFamilies` | src/parser.rs:12-35 | a trimmed token ending in `%` is claimed by no keyword and none of the five unit families |
| `ParserTokens.Percent` | src/parser.rs:36-38 | any `f64` literal followed by `%` is that `Percentage` |
| `ParserTokens.TwelveAndAHalfPercent` | src/parser.rs:167-177 | `12.5%` is `Percentage(12.5)` |
| `ParserTokens.FrIsNoTime` | src/parser.rs:105-110 | a trimmed token ending in `fr` is no time, although `hour` ends in `r` too |
| `ParserTokens.FrEndsFamilies` | src/parser.rs:12-38 | a trimmed token ending in `fr` is claimed by no keyword, no unit family and no percentage |
| `ParserTokens.FractionOf` | src/parser.rs:39-41 | any `f64` literal followed by `fr` is that `Fraction` |
| `ParserTokens.TwoFr` | src/parser.rs:179-189 | `2fr` is `Fraction(2)` |
| `ParserTokens.RemTriesEmFirst` | src/parser.rs:67-68 | on any text followed by `rem`, no entry before `rem` is carried: `em` leaves the text followed by `r`, which no `f64` literal ends in |
| `ParserTokens.RemAfterEm` | src/parser.rs:67-68 | any `f64` literal followed by `rem` is `Rem`, although `em` comes first in the table |
| `ParserTokens.WholeRem` | src/parser.rs:67-68 | every run of digits followed by `rem` is that many `Rem` |
| `ParserTokens.TenRem` | src/parser.rs:67-68 | `10rem` is `Length(10, Rem)` |
| `ParserTokens.InLeavesM` | src/parser.rs:70 | length's `in` is not carried by any text followed by `min`: it leaves the text followed by `m`, which no `f64` literal ends in |
| `ParserTokens.MinCarriesNoLength` | src/parser.rs:60-81 | any text followed by `min` carries no length suffix |
| `ParserTokens.MinIsMinute` | src/parser.rs:105-118 | the time family reads any `f64` literal followed by `min` as that many minutes |
| `ParserTokens.MinutesAfterInches` | src/parser.rs:21-29 | any `f64` literal followed by `min` is `Minute`, although length's `in` comes first |
| `ParserTokens.WholeMinutes` | src/parser.rs:105-118 | every run of digits followed by `min` is that many minutes |
| `ParserTokens.FiveMinutes` | src/parser.rs:107 | `5min` is `Time(5, Minute)` |
| `ParserTokens.PixelsCarryNothing` | src/parser.rs:76-78 | when what comes before `px` is no number, the token carries no length suffix |
| `ParserTokens.PixelsNeedNumber` | src/parser.rs:76-78 | a trimmed token made of `px` after something that is no `f64` literal gives no `Length` |
| `ParserTokens.BarePixels` | src/parser.rs:76-78 | `px` alone gives no `Length` |
| `ParserTokens.SpacedPixels` | src/parser.rs:76-78 | `10 px` gives no `Length` |
| `ParserTokens.TrueKeyword` | src/parser.rs:15 | `true` in any case and with any surrounding white space is `Bool(true)` |
| `ParserTokens.QuotedTrue` | src/parser.rs:3-5 | a quoted `true` is `StringLiteral("true")`, the same token unquoted is `Bool(true)` |
| `ParserTokens.TextToken` | src/parser.rs:53-55 | a trimmed token ending in a character that no suffix, keyword or number ends with is `String` holding the token |
| `ParserTokens.MillisecondsAreText` | src/parser.rs:105-110 | `5ms` is `String("5ms")`, not a `Time` |
| `ParserTokens.SecondsAreText` | src/parser.rs:105-110 | `5s` is `String("5s")`, not a `Time` |
| `LengthUnits.FromSuffix` | src/units/length.rs:40-42 | a suffix names a tag exactly when it is one of the tag's aliases |
| `LengthUnits.ToPixels` | src/units/length.rs:46-55 | pixels and the units without a pixel formula are returned unchanged, and the result has the sign of the value |
| `LengthUnits.ToMeters` | src/units/length.rs:57-68 | meters and the units without a meter formula, the micrometre and the megametre among them, are returned unchanged, and the result has the sign of the value |
| `LengthUnits.ConversionsMonotone` | src/units/length.rs:46-68 | both conversions are monotone in the value, for every unit |
| `LengthUnits.PixelFormulasAgree` | src/units/length.rs:49-52 | an inch is 72 points, 2.54 centimetres and 25.4 millimetres in pixels |
| `LengthUnits.MeterFormulasAgree` | src/units/length.rs:59-65 | the meter formulas agree with each other, down to a mile being 63360 inches |
| `LengthUnits.PixelsAgreeWithMeters` | src/units/length.rs:49-65 | for inches, centimetres and millimetres, pixels are meters at 96 pixels per 0.0254 m |
| `LengthUnits.SymbolRoundTrip` | src/units/length.rs:4-35 | every tag is reached from the suffix it is documented with |
| `LengthUnits.FourteenKeys` | src/units/length.rs:20-37 | the table has exactly these 14 keys |
| `LengthUnits.MicrometerAndCase` | src/units/length.rs:22-29 | the micro sign and `um` both give `Micrometer`; `mm` and `Mm` are different units; the Greek mu, `PX` and the empty string give nothing |
| `AngleUnits.FromSuffix` | src/units/angle.rs:17-19 | a suffix names a tag exactly when it is the tag's symbol |
| `AngleUnits.ToRadians` | src/units/angle.rs:23-28 | radians are returned unchanged, and the result has the sign of the value |
| `AngleUnits.ToDegrees` | src/units/angle.rs:30-35 | degrees are returned unchanged, and the result has the sign of the value |
| `AngleUnits.ConversionsInverse` | src/units/angle.rs:23-35 | going through degrees gives the same radians, going through radians gives the same degrees, and degrees to radians and back gives the value |
| `AngleUnits.HalfTurn` | src/units/angle.rs:23-35 | 180 degrees are pi radians, and pi radians are 180 degrees |
| `AngleUnits.SymbolRoundTrip` | src/units/angle.rs:9-19 | `deg` and `rad` give their tags, and `DEG` and the empty string give nothing |
| `TimeUnits.FromSuffix` | src/units/time.rs:39-41 | a suffix names a tag exactly when it is one of the tag's aliases |
| `TimeUnits.SymbolRoundTrip` | src/units/time.rs:4-36 | every tag is reached from the suffix it is documented with |
| `TimeUnits.OneLetterForms` | src/units/time.rs:23-34 | second, hour, day, week and year also have a one-letter form; minute and month do not, so a lone `m` is no time suffix |
| `TimeUnits.SixteenKeys` | src/units/time.rs:17-36 | the table has exactly these 16 keys |
| `TimeUnits.MicrosecondSpellings` | src/units/time.rs:20-21 | the Greek mu and `us` both give `Microsecond`; the micro sign and `S` give nothing |
| `DataSizeUnits.FromSuffix` | src/units/data_size.rs:29-31 | a suffix names a tag exactly when it is one of the tag's aliases |
| `DataSizeUnits.SymbolRoundTrip` | src/units/data_size.rs:4-26 | every tag is reached from the suffix it is documented with |
| `DataSizeUnits.ThreeCasings` | src/units/data_size.rs:13-24 | each tag has exactly three spellings: its initial with `B`, its initial with `b`, and all lower case |
| `DataSizeUnits.TwelveKeys` | src/units/data_size.rs:11-26 | the table has exactly these 12 keys |
| `DataSizeUnits.OtherCasings` | src/units/data_size.rs:29-31 | `kB`, `mB` and `B` give nothing |
| `FrequencyUnits.FromSuffix` | src/units/frequency.rs:28-30 | a suffix names a tag exactly when it is one of the tag's aliases |
| `FrequencyUnits.SymbolRoundTrip` | src/units/frequency.rs:4-25 | every tag is reached from the suffix it is documented with |
| `FrequencyUnits.SymbolAndLowerCase` | src/units/frequency.rs:12-25 | each tag has exactly two spellings, its symbol and its symbol in lower case |
| `FrequencyUnits.TenKeys` | src/units/frequency.rs:12-25 | the table has exactly these 10 keys |
| `FrequencyUnits.OtherCasings` | src/units/frequency.rs:28-30 | `HZ`, `KHz` and `Mhz` give nothing |
| `Value.LaCoNValue.AsString` | src/value.rs:29-34 | answers exactly for `String`, with its text; a `StringLiteral` gives nothing |
| `Value.LaCoNValue.AsInt` | src/value.rs:36-41 | answers exactly for `Int`, with its payload |
| `Value.LaCoNValue.AsFloat` | src/value.rs:43-48 | answers exactly for `Float`, with its payload; an `Int` is not widened |
| `Value.LaCoNValue.AsBool` | src/value.rs:50-55 | answers exactly for `Bool`, with its payload |
| `Value.LaCoNValue.AsArray` | src/value.rs:57-62 | answers exactly for `Array`, with its elements |
| `Value.LaCoNValue.AsDict` | src/value.rs:64-69 | answers exactly for `Dictionary`, with its entries |
| `Value.LaCoNValue.IsAuto` | src/value.rs:71-73 | holds exactly for `Auto` |
| `Value.LaCoNValue.IsNone` | src/value.rs:75-77 | holds exactly for `None` |
| `Value.AtMostOneAccessor` | src/value.rs:28-78 | at most one accessor answers for any value, and exactly one does for the eight variants that have an accessor |
| `Value.AccessorExamples` | src/value.rs:29-48 | `as_string` of a `StringLiteral` is nothing, and `as_float(Int(3))` is nothing |

## Left out

- `f64` arithmetic: an accepted `f64` literal denotes the exact decimal value it spells, and the conversions compute over `real`. Rounding, signed zero, subnormals and overflow to infinity are not modelled, so a huge literal gives a `Finite` real.
- Unicode `to_lowercase`: the keyword test folds ASCII letters only. For `auto`, `none`, `true` and `false` this is exact, because they contain neither `i` nor `k`, the only ASCII letters a non-ASCII character lower-cases to. The `inf`, `infinity` and `nan` tests fold the same way for another reason: Rust's float parser compares them ignoring ASCII case and does not call `to_lowercase`.
- Rust's `&str` is UTF-8 bytes. The model works on strings of Unicode scalar values. `trim` and `strip_suffix` see the same characters either way.
- The one-time `Lazy` / `HashMap` construction of the registries is not modelled: each table is a constant `map`.
- `parse_typed_value`'s early returns are written as one `if` chain. Since every recogniser is pure, this is the same function.
- Parser.Keyword: the contract only names the kinds it answers with. Which tokens are keywords, in both directions, is stated by `Parser.KeywordsFirst`.
- Parser.ParseLength: the contract only names the kind and rules out micrometres. Its answer is the first carried entry of the length table, stated by `Parser.ScanSuffixes` and `Parser.FirstEntryDecides`.
- Parser.ParseAngle: the contract only names the kind. Its answer is stated by `Parser.ScanSuffixes` and `Parser.FirstEntryDecides` over the angle table.
- Parser.ParseTime: the contract only names the kind and its four units. Its answer is stated by `Parser.ScanSuffixes` and `Parser.FirstEntryDecides` over the time table.
- Parser.ParseDataSize: the contract only names the kind. Its answer is stated by `Parser.ScanSuffixes` and `Parser.FirstEntryDecides` over the data-size table.
- Parser.ParseFrequency: the contract only names the kind and its two units. Its answer is stated by `Parser.ScanSuffixes` and `Parser.FirstEntryDecides` over the frequency table.
- Parser.ParsePercentage: the contract only names the kind. Which tokens it reads, in both directions, and the number it gives are stated by `Parser.PercentageReads`. Stating them on the function itself makes every proof over the whole chain too costly.
- Parser.ParseFraction: the contract only names the kind. Which tokens it reads, in both directions, and the number it gives are stated by `Parser.FractionReads`, for the same reason.
- The document parser is not part of this model: comments, variables, multi-line blocks, key/value and flag lines. Nor are `@import` resolution with cycle detection, or the foreign-function parse/get/free boundary.
- `src/interpretator/` and `src-legacy-will-be-replaced/` are not part of this model: a separate prototype runtime.
- `examples/demo.rs` is not part of this model: file reading and printing.
- `src/units.rs` is a superseded duplicate of the length and angle enums and formulas, and is not modelled separately.
- `src/units/mod.rs` only re-exports, and `src/ast/mod.rs` only declares data.
