/**
 * The pattern `[-+]?\d+[.]?\d*` that SVGFigure.get_size searches for in the
 * width and height attributes, and what `re.search` returns for it: the
 * leftmost position where the pattern matches, and the greedy match there.
 */
module Numerals {
  import opened Wrappers

  /**
   * What `\d` matches in a Python 3.12 str pattern: a decimal digit of any
   * script (Unicode 15.0 general category Nd), given range by range. The
   * ASCII digits are the first range.
   */
  predicate IsDigit(c: char) {
    || '\U{0030}' <= c <= '\U{0039}'
    || '\U{0660}' <= c <= '\U{0669}'
    || '\U{06F0}' <= c <= '\U{06F9}'
    || '\U{07C0}' <= c <= '\U{07C9}'
    || '\U{0966}' <= c <= '\U{096F}'
    || '\U{09E6}' <= c <= '\U{09EF}'
    || '\U{0A66}' <= c <= '\U{0A6F}'
    || '\U{0AE6}' <= c <= '\U{0AEF}'
    || '\U{0B66}' <= c <= '\U{0B6F}'
    || '\U{0BE6}' <= c <= '\U{0BEF}'
    || '\U{0C66}' <= c <= '\U{0C6F}'
    || '\U{0CE6}' <= c <= '\U{0CEF}'
    || '\U{0D66}' <= c <= '\U{0D6F}'
    || '\U{0DE6}' <= c <= '\U{0DEF}'
    || '\U{0E50}' <= c <= '\U{0E59}'
    || '\U{0ED0}' <= c <= '\U{0ED9}'
    || '\U{0F20}' <= c <= '\U{0F29}'
    || '\U{1040}' <= c <= '\U{1049}'
    || '\U{1090}' <= c <= '\U{1099}'
    || '\U{17E0}' <= c <= '\U{17E9}'
    || '\U{1810}' <= c <= '\U{1819}'
    || '\U{1946}' <= c <= '\U{194F}'
    || '\U{19D0}' <= c <= '\U{19D9}'
    || '\U{1A80}' <= c <= '\U{1A89}'
    || '\U{1A90}' <= c <= '\U{1A99}'
    || '\U{1B50}' <= c <= '\U{1B59}'
    || '\U{1BB0}' <= c <= '\U{1BB9}'
    || '\U{1C40}' <= c <= '\U{1C49}'
    || '\U{1C50}' <= c <= '\U{1C59}'
    || '\U{A620}' <= c <= '\U{A629}'
    || '\U{A8D0}' <= c <= '\U{A8D9}'
    || '\U{A900}' <= c <= '\U{A909}'
    || '\U{A9D0}' <= c <= '\U{A9D9}'
    || '\U{A9F0}' <= c <= '\U{A9F9}'
    || '\U{AA50}' <= c <= '\U{AA59}'
    || '\U{ABF0}' <= c <= '\U{ABF9}'
    || '\U{FF10}' <= c <= '\U{FF19}'
    || '\U{104A0}' <= c <= '\U{104A9}'
    || '\U{10D30}' <= c <= '\U{10D39}'
    || '\U{11066}' <= c <= '\U{1106F}'
    || '\U{110F0}' <= c <= '\U{110F9}'
    || '\U{11136}' <= c <= '\U{1113F}'
    || '\U{111D0}' <= c <= '\U{111D9}'
    || '\U{112F0}' <= c <= '\U{112F9}'
    || '\U{11450}' <= c <= '\U{11459}'
    || '\U{114D0}' <= c <= '\U{114D9}'
    || '\U{11650}' <= c <= '\U{11659}'
    || '\U{116C0}' <= c <= '\U{116C9}'
    || '\U{11730}' <= c <= '\U{11739}'
    || '\U{118E0}' <= c <= '\U{118E9}'
    || '\U{11950}' <= c <= '\U{11959}'
    || '\U{11C50}' <= c <= '\U{11C59}'
    || '\U{11D50}' <= c <= '\U{11D59}'
    || '\U{11DA0}' <= c <= '\U{11DA9}'
    || '\U{11F50}' <= c <= '\U{11F59}'
    || '\U{16A60}' <= c <= '\U{16A69}'
    || '\U{16AC0}' <= c <= '\U{16AC9}'
    || '\U{16B50}' <= c <= '\U{16B59}'
    || '\U{1D7CE}' <= c <= '\U{1D7FF}'
    || '\U{1E140}' <= c <= '\U{1E149}'
    || '\U{1E2F0}' <= c <= '\U{1E2F9}'
    || '\U{1E4F0}' <= c <= '\U{1E4F9}'
    || '\U{1E950}' <= c <= '\U{1E959}'
    || '\U{1FBF0}' <= c <= '\U{1FBF9}'
  }

  predicate IsSign(c: char) { c == '+' || c == '-' }

  predicate AllDigits(t: string) { forall i | 0 <= i < |t| :: IsDigit(t[i]) }

  /** The language of `\d+[.]?\d*`: a digit first, then digits with at most one '.' among them. */
  predicate IsUnsigned(t: string) {
    && |t| > 0
    && IsDigit(t[0])
    && (|| AllDigits(t)
        || exists p | 0 < p < |t| :: t[p] == '.' && AllDigits(t[..p]) && AllDigits(t[p + 1..]))
  }

  /** The language of `[-+]?\d+[.]?\d*`. */
  predicate IsNumeral(t: string) {
    || IsUnsigned(t)
    || (|t| > 0 && IsSign(t[0]) && IsUnsigned(t[1..]))
  }

  /** Some stretch of s is a numeral. */
  ghost predicate ContainsNumeral(s: string) {
    exists i, k | 0 <= i < k <= |s| :: IsNumeral(s[i..k])
  }

  /** A match: the text s[start..start + length]. */
  datatype Match = Match(start: nat, length: nat)

  /**
   * m is what a leftmost, greedy search finds in s: a numeral, with no numeral
   * starting further left, and no longer numeral starting at the same place.
   */
  ghost predicate LeftmostLongest(s: string, m: Match) {
    LeftmostLongestFrom(s, 0, m)
  }

  /** LeftmostLongest, for a search that starts at position `from`. */
  ghost predicate LeftmostLongestFrom(s: string, from: nat, m: Match) {
    && m.start + m.length <= |s|
    && IsNumeral(s[m.start..m.start + m.length])
    && (forall i, k | from <= i < m.start && i < k <= |s| :: !IsNumeral(s[i..k]))
    && (forall k | m.start + m.length < k <= |s| :: !IsNumeral(s[m.start..k]))
  }

  /** t is the text of a leftmost-longest match in s. */
  ghost predicate IsFirstNumeral(s: string, t: string) {
    exists m :: LeftmostLongest(s, m) && t == s[m.start..m.start + m.length]
  }

  /** The length of the run of digits that s starts with (`\d*`, greedy). */
  function DigitRun(s: string): (n: nat)
    ensures n <= |s|
    ensures AllDigits(s[..n])
    ensures n < |s| ==> !IsDigit(s[n])
  {
    if s != [] && IsDigit(s[0]) then
      var n := 1 + DigitRun(s[1..]);
      assert forall i | 1 <= i < n :: s[..n][i] == s[1..][..n - 1][i - 1];
      n
    else 0
  }

  /** How much `\d+[.]?\d*` matches, greedily, at the start of s; 0 when it does not match there. */
  function UnsignedLength(s: string): nat {
    var d := DigitRun(s);
    if d == 0 then 0
    else if d < |s| && s[d] == '.' then d + 1 + DigitRun(s[d + 1..])
    else d
  }

  /** How much `[-+]?\d+[.]?\d*` matches, greedily, at the start of s; 0 when it does not match there. */
  function MatchLength(s: string): nat {
    if |s| > 1 && IsSign(s[0]) && IsDigit(s[1]) then 1 + UnsignedLength(s[1..])
    else UnsignedLength(s)
  }

  /** In an unsigned numeral the only character that is not a digit is its one '.'. */
  lemma UnsignedShape(t: string, i: nat)
    ensures IsUnsigned(t) && i < |t| && !IsDigit(t[i]) ==>
              t[i] == '.' && forall j | 0 <= j < |t| && j != i :: IsDigit(t[j])
  {
    if IsUnsigned(t) && i < |t| && !IsDigit(t[i]) && !AllDigits(t) {
      var p :| 0 < p < |t| && t[p] == '.' && AllDigits(t[..p]) && AllDigits(t[p + 1..]);
      forall j | 0 <= j < |t| && j != p
        ensures IsDigit(t[j])
      {
        if j < p {
          assert t[..p][j] == t[j];
        } else {
          assert t[p + 1..][j - p - 1] == t[j];
        }
      }
    }
  }

  /** UnsignedLength is the greedy match of `\d+[.]?\d*`: a match, and no longer prefix matches. */
  lemma UnsignedLengthCorrect(s: string)
    ensures UnsignedLength(s) <= |s|
    ensures UnsignedLength(s) == 0 <==> !(|s| > 0 && IsDigit(s[0]))
    ensures UnsignedLength(s) > 0 ==> IsUnsigned(s[..UnsignedLength(s)])
    ensures forall k | UnsignedLength(s) < k <= |s| :: !IsUnsigned(s[..k])
  {
    var d := DigitRun(s);
    var u := UnsignedLength(s);
    if d == 0 {
      assert |s| > 0 ==> !IsDigit(s[0]);
      forall k | 0 < k <= |s| ensures !IsUnsigned(s[..k]) {
        assert s[..k][0] == s[0];
      }
    } else if d < |s| && s[d] == '.' {
      var rest := s[d + 1..];
      var e := DigitRun(rest);
      var t := s[..u];
      assert s[..d][0] == s[0];
      assert t[..d] == s[..d];
      assert t[d + 1..] == rest[..e];
      assert IsUnsigned(t);
      forall k | u < k <= |s| ensures !IsUnsigned(s[..k]) {
        var tk := s[..k];
        assert tk[d] == '.';
        assert tk[u] == rest[e];
        UnsignedShape(tk, d);
      }
    } else {
      assert s[..d][0] == s[0];
      assert AllDigits(s[..u]);
      forall k | u < k <= |s| ensures !IsUnsigned(s[..k]) {
        var tk := s[..k];
        assert tk[d] == s[d];
        UnsignedShape(tk, d);
      }
    }
  }

  /** MatchLength is the greedy match of `[-+]?\d+[.]?\d*` at the start of s. */
  lemma MatchLengthCorrect(s: string)
    ensures MatchLength(s) <= |s|
    ensures MatchLength(s) > 0 ==> IsNumeral(s[..MatchLength(s)])
    ensures forall k | MatchLength(s) < k <= |s| :: !IsNumeral(s[..k])
  {
    if |s| > 1 && IsSign(s[0]) && IsDigit(s[1]) {
      SignedLengthCorrect(s);
    } else {
      UnsignedLengthCorrect(s);
      forall k | MatchLength(s) < k <= |s| ensures !IsNumeral(s[..k]) {
        UnsignedPrefix(s, k);
      }
    }
  }

  /** A sign is not a digit. */
  lemma SignNotDigit(c: char)
    requires IsSign(c)
    ensures !IsDigit(c)
  {
  }

  /** MatchLengthCorrect, for a string that starts with a sign and a digit. */
  lemma SignedLengthCorrect(s: string)
    requires |s| > 1 && IsSign(s[0]) && IsDigit(s[1])
    ensures MatchLength(s) <= |s|
    ensures MatchLength(s) > 0 ==> IsNumeral(s[..MatchLength(s)])
    ensures forall k | MatchLength(s) < k <= |s| :: !IsNumeral(s[..k])
  {
    var n := MatchLength(s);
    var tail := s[1..];
    SignNotDigit(s[0]);
    UnsignedLengthCorrect(tail);
    assert s[..n][1..] == tail[..n - 1];
    forall k | n < k <= |s| ensures !IsNumeral(s[..k]) {
      assert s[..k][0] == s[0];
      assert s[..k][1..] == tail[..k - 1];
    }
  }

  /** Past an unsigned match that no sign-and-digit precedes, no prefix is a numeral. */
  lemma UnsignedPrefix(s: string, k: nat)
    requires !(|s| > 1 && IsSign(s[0]) && IsDigit(s[1]))
    requires UnsignedLength(s) < k <= |s|
    requires !IsUnsigned(s[..k])
    ensures !IsNumeral(s[..k])
  {
    var tk := s[..k];
    assert tk[0] == s[0];
    if k > 1 {
      assert tk[1..][0] == s[1];
    }
  }

  /** MatchLength read at position `from` of s: the greedy match of the pattern there. */
  lemma MatchAtCorrect(s: string, from: nat)
    requires from < |s|
    ensures from + MatchLength(s[from..]) <= |s|
    ensures MatchLength(s[from..]) > 0 ==> IsNumeral(s[from..from + MatchLength(s[from..])])
    ensures forall k | from + MatchLength(s[from..]) < k <= |s| :: !IsNumeral(s[from..k])
  {
    var t := s[from..];
    MatchLengthCorrect(t);
    assert s[from..from + MatchLength(t)] == t[..MatchLength(t)];
    forall k | from + MatchLength(t) < k <= |s| ensures !IsNumeral(s[from..k]) {
      assert s[from..k] == t[..k - from];
    }
  }

  /** `re.search` for the numeral pattern, scanning s from position `from` on. */
  function SearchFrom(s: string, from: nat): (r: Option<Match>)
    requires from <= |s|
    ensures r.None? ==> forall i, k | from <= i < k <= |s| :: !IsNumeral(s[i..k])
    ensures r.Some? ==> from <= r.value.start && LeftmostLongestFrom(s, from, r.value)
    decreases |s| - from
  {
    if from == |s| then None
    else
      var n := MatchLength(s[from..]);
      MatchAtCorrect(s, from);
      if n > 0 then Some(Match(from, n))
      else
        var r := SearchFrom(s, from + 1);
        NothingStartsAt(s, from, r);
        r
  }

  /** When no numeral starts at `from`, a search from `from + 1` answers for `from` too. */
  lemma NothingStartsAt(s: string, from: nat, r: Option<Match>)
    requires from < |s|
    requires forall k | from < k <= |s| :: !IsNumeral(s[from..k])
    ensures r.Some? && LeftmostLongestFrom(s, from + 1, r.value) ==> LeftmostLongestFrom(s, from, r.value)
    ensures (forall i, k | from + 1 <= i < k <= |s| :: !IsNumeral(s[i..k])) ==>
              forall i, k | from <= i < k <= |s| :: !IsNumeral(s[i..k])
  {
  }

  /** The text `re.search(...).group(0)` gives for s, or None when the pattern is nowhere in s. */
  function FirstNumeral(s: string): (r: Option<string>)
    ensures r.None? <==> !ContainsNumeral(s)
    ensures r.Some? ==> IsNumeral(r.value)
    ensures r.Some? ==> IsFirstNumeral(s, r.value)
  {
    match SearchFrom(s, 0)
    case None => None
    case Some(m) =>
      var t := s[m.start..m.start + m.length];
      assert LeftmostLongest(s, m);
      assert IsFirstNumeral(s, t);
      NumeralNonEmpty(t);
      assert ContainsNumeral(s) by {
        assert 0 <= m.start < m.start + m.length <= |s| && IsNumeral(s[m.start..m.start + m.length]);
      }
      Some(t)
  }

  /** A numeral has at least one digit, so it is never empty. */
  lemma NumeralNonEmpty(t: string)
    requires IsNumeral(t)
    ensures |t| > 0
  {
  }

  /** A leftmost-longest match is unique, so FirstNumeral's text is determined by s. */
  lemma LeftmostLongestUnique(s: string, m1: Match, m2: Match)
    requires LeftmostLongest(s, m1) && LeftmostLongest(s, m2)
    ensures m1 == m2
  {
  }

  /**
   * A value that starts with a run of digits not followed by another digit or
   * a '.' (such as "800" or "600px") yields exactly that run.
   */
  lemma LeadingDigits(digits: string, rest: string)
    requires |digits| > 0 && AllDigits(digits)
    requires rest == [] || (!IsDigit(rest[0]) && rest[0] != '.')
    ensures FirstNumeral(digits + rest) == Some(digits)
  {
    var s := digits + rest;
    DigitRunOfDigits(digits, rest);
    assert !IsSign(s[0]);
    assert MatchLength(s) == |digits|;
    assert s[0..] == s;
    assert s[0..0 + |digits|] == digits;
  }

  /** The digit run of digits + rest is the whole of digits when rest does not start with a digit. */
  lemma {:induction false} DigitRunOfDigits(digits: string, rest: string)
    requires AllDigits(digits)
    requires rest == [] || !IsDigit(rest[0])
    ensures DigitRun(digits + rest) == |digits|
  {
    if digits != [] {
      assert (digits + rest)[1..] == digits[1..] + rest;
      DigitRunOfDigits(digits[1..], rest);
    } else {
      assert digits + rest == rest;
    }
  }

  /** `\d` is not only ASCII: 800 written in Arabic-Indic digits, then "px", yields those three digits. */
  lemma ArabicIndicDigits()
    ensures FirstNumeral("\U{0668}\U{0660}\U{0660}px") == Some("\U{0668}\U{0660}\U{0660}")
  {
    var digits := "\U{0668}\U{0660}\U{0660}";
    assert "\U{0668}\U{0660}\U{0660}px" == digits + "px";
    LeadingDigits(digits, "px");
  }
}
