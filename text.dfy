/**
 * The string primitives of Rust's `str` that the recogniser relies on:
 * `trim`, `to_lowercase` (as far as the keyword comparison can observe it)
 * and `strip_suffix`. Strings are sequences of Unicode scalar values.
 */
module Text {
  import opened Options

  /** Rust's `char::is_whitespace`, the Unicode White_Space property. */
  predicate IsWhitespace(c: char) {
    || ('\t' <= c <= '\r')
    || c == ' '
    || c == '\U{0085}'
    || c == '\U{00A0}'
    || c == '\U{1680}'
    || ('\U{2000}' <= c <= '\U{200A}')
    || c == '\U{2028}'
    || c == '\U{2029}'
    || c == '\U{202F}'
    || c == '\U{205F}'
    || c == '\U{3000}'
  }

  /** Neither end of `s` is white space. */
  predicate IsTrimmed(s: string) {
    s == [] || (!IsWhitespace(s[0]) && !IsWhitespace(s[|s| - 1]))
  }

  /** `str::trim_start`: drops the leading white space, and nothing else. */
  function TrimStart(s: string): (r: string)
    ensures |r| <= |s| && r == s[|s| - |r|..]
    ensures forall k :: 0 <= k < |s| - |r| ==> IsWhitespace(s[k])
    ensures r == [] || !IsWhitespace(r[0])
  {
    if |s| > 0 && IsWhitespace(s[0]) then TrimStart(s[1..]) else s
  }

  /** `str::trim_end`: drops the trailing white space, and nothing else. */
  function TrimEnd(s: string): (r: string)
    ensures |r| <= |s| && r == s[..|r|]
    ensures forall k :: |r| <= k < |s| ==> IsWhitespace(s[k])
    ensures r == [] || !IsWhitespace(r[|r| - 1])
  {
    if |s| > 0 && IsWhitespace(s[|s| - 1]) then TrimEnd(s[..|s| - 1]) else s
  }

  /**
   * `r` is `s` with `i` characters cut from the front and the rest after `r`
   * cut from the back, every cut character being white space.
   */
  predicate CutAt(s: string, r: string, i: int) {
    && 0 <= i <= |s| - |r|
    && r == s[i..i + |r|]
    && (forall k :: 0 <= k < i ==> IsWhitespace(s[k]))
    && (forall k :: i + |r| <= k < |s| ==> IsWhitespace(s[k]))
  }

  /**
   * `str::trim`: the infix of `s` left after cutting white space from both
   * ends, which starts and ends with a character that is not white space.
   */
  function Trim(s: string): (r: string)
    ensures IsTrimmed(r)
    ensures exists i :: CutAt(s, r, i)
  {
    var t := TrimStart(s);
    var r := TrimEnd(t);
    assert CutAt(s, r, |s| - |t|);
    assert r != [] ==> r[0] == t[0];
    r
  }

  /** A string with no white space at either end is its own trim. */
  lemma TrimOfTrimmed(s: string)
    requires IsTrimmed(s)
    ensures Trim(s) == s
  {
    if s != [] {
      var t := TrimStart(s);
      assert t == s;
      var r := TrimEnd(t);
      assert r == s;
    }
  }

  /** Trimming twice is trimming once. */
  lemma TrimIdempotent(s: string)
    ensures Trim(Trim(s)) == Trim(s)
  {
    TrimOfTrimmed(Trim(s));
  }

  /** ASCII case folding of one character. */
  function LowerChar(c: char): (d: char)
    ensures 'A' <= c <= 'Z' ==> 'a' <= d <= 'z'
    ensures !('A' <= c <= 'Z') ==> d == c
  {
    if 'A' <= c <= 'Z' then (c as int - 'A' as int + 'a' as int) as char else c
  }

  /**
   * Lower-casing as the keyword and special-float comparisons see it. The
   * keywords contain neither `i` nor `k`, the only ASCII letters that a
   * non-ASCII character lower-cases to, so for them ASCII folding and
   * Unicode's `to_lowercase` accept the same tokens. Rust's float parser
   * compares `inf`, `infinity` and `nan` ignoring ASCII case and never calls
   * `to_lowercase`, which is this folding exactly.
   */
  function AsciiLower(s: string): (r: string)
    ensures |r| == |s|
    ensures forall k :: 0 <= k < |s| ==> r[k] == LowerChar(s[k])
  {
    seq(|s|, k requires 0 <= k < |s| => LowerChar(s[k]))
  }

  /** A string with no upper-case ASCII letter is its own lower-case form. */
  lemma LowerOfLower(s: string)
    requires forall k :: 0 <= k < |s| ==> !('A' <= s[k] <= 'Z')
    ensures AsciiLower(s) == s
  {
  }

  /**
   * `s` lower-cases to `w`, compared character by character as Rust's
   * case-insensitive comparisons of ASCII words do.
   */
  predicate FoldsTo(s: string, w: string) {
    if s == [] then w == [] else w != [] && LowerChar(s[0]) == w[0] && FoldsTo(s[1..], w[1..])
  }

  /** Comparing as `FoldsTo` does is comparing the lower-cased string. */
  lemma {:induction false} FoldsToLower(s: string, w: string)
    ensures FoldsTo(s, w) <==> AsciiLower(s) == w
  {
    if s != [] && w != [] {
      FoldsToLower(s[1..], w[1..]);
      assert AsciiLower(s[1..]) == AsciiLower(s)[1..];
      if AsciiLower(s) == w {
        assert AsciiLower(s)[1..] == w[1..];
      }
      if FoldsTo(s, w) {
        assert AsciiLower(s) == [w[0]] + w[1..];
      }
    }
  }

  /** A string that folds to `w` has its length, and its ends fold to `w`'s ends. */
  lemma FoldsToEnds(s: string, w: string)
    ensures FoldsTo(s, w) ==> |s| == |w|
    ensures FoldsTo(s, w) && s != [] ==>
      LowerChar(s[0]) == w[0] && LowerChar(s[|s| - 1]) == w[|w| - 1]
  {
    FoldsToLower(s, w);
  }

  /** `str::ends_with`. */
  predicate EndsWith(s: string, suffix: string) {
    |suffix| <= |s| && s[|s| - |suffix|..] == suffix
  }

  /**
   * `str::strip_suffix`: the part of `s` before `suffix` when `s` ends with
   * it. The remainder may be empty.
   */
  function StripSuffix(s: string, suffix: string): (r: Option<string>)
    ensures r.Some? <==> EndsWith(s, suffix)
    ensures r.Some? ==> r.value + suffix == s
  {
    if EndsWith(s, suffix) then
      assert s[..|s| - |suffix|] + s[|s| - |suffix|..] == s;
      Some(s[..|s| - |suffix|])
    else None
  }

  /** Stripping a suffix that was appended gives back the original prefix. */
  lemma StripAppended(p: string, suffix: string)
    ensures StripSuffix(p + suffix, suffix) == Some(p)
  {
    assert (p + suffix)[|p|..] == suffix;
    assert (p + suffix)[..|p|] == p;
  }
}
