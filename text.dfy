/**
 * The handful of Rust `str` operations the configuration layer relies on:
 * `contains`, `ends_with`, `split`, `trim` and `parse` for unsigned integers.
 * Strings are sequences of Unicode scalar values, as Rust's `char`s are.
 */
module Text {
  import opened Wrappers

  /** `pat` occurs in `s` starting at index `i`. */
  predicate OccursAt(s: string, pat: string, i: int) {
    0 <= i && i + |pat| <= |s| && s[i..i + |pat|] == pat
  }

  /** `str::contains` with a string pattern. */
  predicate Contains(s: string, pat: string) {
    exists i | 0 <= i <= |s| - |pat| :: OccursAt(s, pat, i)
  }

  /** `str::ends_with` with a character pattern. */
  predicate EndsWith(s: string, c: char) {
    |s| > 0 && s[|s| - 1] == c
  }

  lemma ContainsExtended(s: string, t: string, pat: string)
    requires Contains(s, pat)
    ensures Contains(s + t, pat) && Contains(t + s, pat)
  {
    var i :| 0 <= i <= |s| - |pat| && OccursAt(s, pat, i);
    assert (s + t)[i..i + |pat|] == s[i..i + |pat|];
    assert OccursAt(s + t, pat, i);
    assert (t + s)[|t| + i..|t| + i + |pat|] == s[i..i + |pat|];
    assert OccursAt(t + s, pat, |t| + i);
  }

  lemma ContainsSuffix(s: string, pat: string)
    ensures Contains(s + pat, pat)
  {
    assert (s + pat)[|s|..|s| + |pat|] == pat;
    assert OccursAt(s + pat, pat, |s|);
  }

  /** A pattern cannot occur in a string that lacks one of its characters. */
  lemma NotContainsMissingChar(s: string, pat: string, c: char)
    requires c in pat && c !in s
    ensures !Contains(s, pat)
  {
    var k :| 0 <= k < |pat| && pat[k] == c;
    forall i | 0 <= i <= |s| - |pat|
      ensures !OccursAt(s, pat, i)
    {
      assert s[i..i + |pat|][k] == s[i + k] && s[i + k] in s;
    }
  }

  // ---------------------------------------------------------------- split

  /** Inverse of `Split`: the pieces glued back together with `sep` between them. */
  function Join(parts: seq<string>, sep: char): string
  {
    if |parts| == 0 then ""
    else if |parts| == 1 then parts[0]
    else Join(parts[..|parts| - 1], sep) + [sep] + parts[|parts| - 1]
  }

  /** Gluing an empty piece onto the end appends one separator. */
  lemma JoinAppendEmpty(parts: seq<string>, sep: char)
    requires |parts| >= 1
    ensures Join(parts + [""], sep) == Join(parts, sep) + [sep]
  {
    assert (parts + [""])[..|parts|] == parts;
  }

  /** Extending the last piece by a character extends the joined string by it. */
  lemma JoinExtendLast(parts: seq<string>, c: char, sep: char)
    requires |parts| >= 1
    ensures Join(parts[..|parts| - 1] + [parts[|parts| - 1] + [c]], sep) == Join(parts, sep) + [c]
  {
    var q := parts[..|parts| - 1] + [parts[|parts| - 1] + [c]];
    assert q[..|q| - 1] == parts[..|parts| - 1];
  }

  /**
   * `str::split` with a character separator: the maximal separator-free
   * pieces between occurrences of `sep`, empty ones included, so that an
   * empty string gives one empty piece and `"a,,b"` gives three.
   */
  function Split(s: string, sep: char): (parts: seq<string>)
    ensures |parts| >= 1
    ensures forall i :: 0 <= i < |parts| ==> sep !in parts[i]
    ensures Join(parts, sep) == s
    decreases |s|
  {
    if |s| == 0 then [""]
    else
      var p := Split(s[..|s| - 1], sep);
      var c := s[|s| - 1];
      assert s == s[..|s| - 1] + [c];
      if c == sep then
        JoinAppendEmpty(p, sep);
        p + [""]
      else
        JoinExtendLast(p, c, sep);
        p[..|p| - 1] + [p[|p| - 1] + [c]]
  }

  /** A separator-free string splits into itself alone. */
  lemma {:induction false} SplitSeparatorFree(t: string, sep: char)
    requires sep !in t
    ensures Split(t, sep) == [t]
    decreases |t|
  {
    if |t| > 0 {
      SplitSeparatorFree(t[..|t| - 1], sep);
      assert t[..|t| - 1] + [t[|t| - 1]] == t;
    }
  }

  /** Appending a separator and a separator-free piece appends exactly that piece. */
  lemma {:induction false} SplitAppend(s: string, t: string, sep: char)
    requires sep !in t
    ensures Split(s + [sep] + t, sep) == Split(s, sep) + [t]
    decreases |t|
  {
    if |t| == 0 {
      assert s + [sep] + t == s + [sep];
      assert (s + [sep])[..|s|] == s;
    } else {
      var u := t[..|t| - 1];
      SplitAppend(s, u, sep);
      assert (s + [sep] + t)[..|s + [sep] + t| - 1] == s + [sep] + u;
      assert u + [t[|t| - 1]] == t;
    }
  }

  /** `Split` undoes `Join` on separator-free pieces: the two are inverse. */
  lemma {:induction false} SplitJoin(parts: seq<string>, sep: char)
    requires |parts| >= 1
    requires forall i :: 0 <= i < |parts| ==> sep !in parts[i]
    ensures Split(Join(parts, sep), sep) == parts
    decreases |parts|
  {
    if |parts| == 1 {
      SplitSeparatorFree(parts[0], sep);
    } else {
      var init := parts[..|parts| - 1];
      SplitJoin(init, sep);
      SplitAppend(Join(init, sep), parts[|parts| - 1], sep);
      assert init + [parts[|parts| - 1]] == parts;
    }
  }

  // ---------------------------------------------------------------- trim

  /** Characters with the Unicode `White_Space` property, which `str::trim` removes. */
  predicate IsWhitespace(c: char) {
    ('\t' <= c <= '\r') || c == ' ' || c == '\U{0085}' || c == '\U{00A0}' || c == '\U{1680}'
    || ('\U{2000}' <= c <= '\U{200A}') || c == '\U{2028}' || c == '\U{2029}' || c == '\U{202F}'
    || c == '\U{205F}' || c == '\U{3000}'
  }

  predicate AllWhitespace(s: string) {
    forall i :: 0 <= i < |s| ==> IsWhitespace(s[i])
  }

  /** How many whitespace characters `s` starts with. */
  function LeadingWhitespace(s: string): (n: nat)
    ensures n <= |s|
    ensures n < |s| ==> !IsWhitespace(s[n])
  {
    if |s| > 0 && IsWhitespace(s[0]) then 1 + LeadingWhitespace(s[1..]) else 0
  }

  /** How many whitespace characters `s` ends with. */
  function TrailingWhitespace(s: string): (n: nat)
    ensures n <= |s|
    ensures n < |s| ==> !IsWhitespace(s[|s| - 1 - n])
  {
    if |s| > 0 && IsWhitespace(s[|s| - 1]) then 1 + TrailingWhitespace(s[..|s| - 1]) else 0
  }

  /** `str::trim_start`: `s` without its leading whitespace. */
  function TrimStart(s: string): string {
    s[LeadingWhitespace(s)..]
  }

  /** `str::trim_end`: `s` without its trailing whitespace. */
  function TrimEnd(s: string): string {
    s[..|s| - TrailingWhitespace(s)]
  }

  /** The leading whitespace is whitespace. */
  lemma {:induction false} LeadingWhitespaceIsWhitespace(s: string)
    ensures AllWhitespace(s[..LeadingWhitespace(s)])
  {
    if |s| > 0 && IsWhitespace(s[0]) {
      LeadingWhitespaceIsWhitespace(s[1..]);
      assert s[..LeadingWhitespace(s)] == [s[0]] + s[1..][..LeadingWhitespace(s[1..])];
    }
  }

  /** The trailing whitespace is whitespace. */
  lemma {:induction false} TrailingWhitespaceIsWhitespace(s: string)
    ensures AllWhitespace(s[|s| - TrailingWhitespace(s)..])
  {
    if |s| > 0 && IsWhitespace(s[|s| - 1]) {
      var init := s[..|s| - 1];
      TrailingWhitespaceIsWhitespace(init);
      var n := TrailingWhitespace(init);
      assert TrailingWhitespace(s) == n + 1;
      var tail, initTail := s[|s| - (n + 1)..], init[|init| - n..];
      forall j | 0 <= j < |tail|
        ensures IsWhitespace(tail[j])
      {
        if j < n {
          assert tail[j] == initTail[j];
        }
      }
    }
  }

  /**
   * `str::trim`: `s` without its leading and trailing whitespace; what is
   * left neither starts nor ends with whitespace.
   */
  function Trim(s: string): string {
    TrimEnd(TrimStart(s))
  }

  /**
   * What `Trim` removes is whitespace, what it keeps is one contiguous slice
   * of `s`, and that slice neither starts nor ends with whitespace.
   */
  lemma TrimIsSlice(s: string)
    ensures exists i :: 0 <= i && i + |Trim(s)| <= |s| && Trim(s) == s[i..i + |Trim(s)|]
                        && AllWhitespace(s[..i]) && AllWhitespace(s[i + |Trim(s)|..])
    ensures Trim(s) == [] || (!IsWhitespace(Trim(s)[0]) && !IsWhitespace(Trim(s)[|Trim(s)| - 1]))
  {
    var i := LeadingWhitespace(s);
    var t := TrimStart(s);
    var j := TrailingWhitespace(t);
    var r := Trim(s);
    LeadingWhitespaceIsWhitespace(s);
    TrailingWhitespaceIsWhitespace(t);
    assert r == s[i..i + |r|];
    assert s[i + |r|..] == t[|t| - j..];
  }

  /** A string that neither starts nor ends with whitespace is left as it is. */
  lemma TrimKeepsTrimmed(s: string)
    requires s == [] || (!IsWhitespace(s[0]) && !IsWhitespace(s[|s| - 1]))
    ensures Trim(s) == s
  {
  }

  // ---------------------------------------------------------------- parse

  predicate IsDigit(c: char) {
    '0' <= c <= '9'
  }

  predicate AllDigits(s: string) {
    forall i :: 0 <= i < |s| ==> IsDigit(s[i])
  }

  /** The number an ASCII decimal numeral denotes (leading zeros allowed). */
  function DecimalValue(digits: string): nat
    requires AllDigits(digits)
  {
    if |digits| == 0 then 0
    else DecimalValue(digits[..|digits| - 1]) * 10 + ((digits[|digits| - 1] as int) - ('0' as int))
  }

  /** The shortest decimal numeral for `n`, as Rust's `to_string` prints it. */
  function Decimal(n: nat): (s: string)
    ensures |s| > 0 && AllDigits(s)
  {
    if n < 10 then [(('0' as int) + n) as char]
    else Decimal(n / 10) + [(('0' as int) + n % 10) as char]
  }

  /**
   * `str::parse` into an unsigned integer type whose values lie below
   * `bound`: an optional leading `+`, then one or more ASCII digits, and no
   * overflow. Anything else (the empty string, a lone `+`, a `-`, spaces,
   * an out-of-range value) is a parse error.
   */
  function ParseUnsigned(s: string, bound: nat): (r: Option<nat>)
    ensures r.Some? ==> r.value < bound
    ensures r.Some? ==> |s| > 0 && (IsDigit(s[0]) || s[0] == '+')
  {
    var digits := if |s| > 0 && s[0] == '+' then s[1..] else s;
    if |digits| == 0 || !AllDigits(digits) then None
    else
      var v := DecimalValue(digits);
      if v < bound then Some(v) else None
  }

  lemma {:induction false} DecimalValueOfDecimal(n: nat)
    ensures DecimalValue(Decimal(n)) == n
  {
    if n >= 10 {
      DecimalValueOfDecimal(n / 10);
      var s := Decimal(n);
      assert s[..|s| - 1] == Decimal(n / 10);
    }
  }

  /** Parsing what `Decimal` prints gives the number back, whenever it fits the type. */
  lemma ParseDecimal(n: nat, bound: nat)
    requires n < bound
    ensures ParseUnsigned(Decimal(n), bound) == Some(n)
  {
    DecimalValueOfDecimal(n);
  }
}
