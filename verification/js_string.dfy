/**
 The JavaScript string operations the storefront relies on, with their
 clamping rules written out: `slice` with a negative start, `substring`
 (clamp to [0, length], swap reversed bounds), `trim`, `startsWith`,
 `indexOf`, `replace(/^#/, '')` and number-to-decimal-text conversion.
 */
module JsString {
  import opened SeqUtil

  /** The characters `String.prototype.trim` removes: ECMAScript WhiteSpace and LineTerminator. */
  predicate IsJsSpace(c: char) {
    c == ' ' || c == '\t' || c == '\n' || c == '\r' || c == '\U{B}' || c == '\U{C}'
    || c == '\U{A0}' || c == '\U{FEFF}' || c == '\U{1680}'
    || ('\U{2000}' <= c <= '\U{200A}')
    || c == '\U{2028}' || c == '\U{2029}' || c == '\U{202F}' || c == '\U{205F}' || c == '\U{3000}'
  }

  /** Every character is white space (the empty string included). */
  predicate IsBlank(s: string) {
    forall i :: 0 <= i < |s| ==> IsJsSpace(s[i])
  }

  /** Leading white space removed. */
  function TrimStart(s: string): (r: string)
    ensures |r| <= |s| && r == s[|s| - |r|..]
    ensures |r| > 0 ==> !IsJsSpace(r[0])
    ensures IsBlank(s[..|s| - |r|])
  {
    if |s| == 0 then s
    else if IsJsSpace(s[0]) then
      var r := TrimStart(s[1..]);
      assert s[..|s| - |r|] == [s[0]] + s[1..][..|s[1..]| - |r|];
      r
    else s
  }

  /** Trailing white space removed. */
  function TrimEnd(s: string): (r: string)
    ensures |r| <= |s| && r == s[..|r|]
    ensures |r| > 0 ==> !IsJsSpace(r[|r| - 1])
    ensures IsBlank(s[|r|..])
  {
    if |s| == 0 then s
    else if IsJsSpace(s[|s| - 1]) then
      var r := TrimEnd(s[..|s| - 1]);
      assert s[|r|..] == s[..|s| - 1][|r|..] + [s[|s| - 1]];
      r
    else s
  }

  /** `s.trim()`. */
  function Trim(s: string): string {
    TrimEnd(TrimStart(s))
  }

  /** `!s.trim()` holds exactly for the blank strings. */
  lemma TrimEmptyIffBlank(s: string)
    ensures Trim(s) == "" <==> IsBlank(s)
  {
    var t := TrimStart(s);
    if Trim(s) == "" {
      assert s[..|s| - |t|] == s;
    } else {
      var r := Trim(s);
      assert !IsJsSpace(r[0]);
      assert r[0] == t[0] == s[|s| - |t|];
    }
  }

  /** `s.slice(-n)`: the last n characters, or all of s when it is shorter;
      `slice(-0)` is `slice(0)`, the whole string. */
  function SliceLast(s: string, n: nat): (r: string)
    ensures n == 0 ==> r == s
    ensures n > 0 && |s| >= n ==> |r| == n && r == s[|s| - n..]
    ensures n > 0 && |s| < n ==> r == s
  {
    if n == 0 then s
    else if |s| >= n then s[|s| - n..]
    else s
  }

  /** Clamp an index into [0, len], as `substring` does with its arguments. */
  function Clamp(i: int, len: nat): (r: nat)
    ensures r <= len
    ensures 0 <= i <= len ==> r == i
  {
    if i < 0 then 0 else if i > len then len else i
  }

  function Min(a: nat, b: nat): nat { if a <= b then a else b }

  function Max(a: nat, b: nat): nat { if a <= b then b else a }

  /** `s.substring(start, end)`: both bounds clamped, then swapped if reversed. */
  function Substring(s: string, start: int, end: int): (r: string)
    ensures 0 <= start <= end <= |s| ==> r == s[start..end]
    ensures 0 <= end <= start <= |s| ==> r == s[end..start]
    ensures |r| <= |s|
    // out-of-range bounds: a negative one counts as 0, one past the end as |s|
    ensures start < 0 && 0 <= end <= |s| ==> r == s[..end]
    ensures end < 0 && 0 <= start <= |s| ==> r == s[..start]
    ensures 0 <= start <= |s| < end ==> r == s[start..]
    ensures 0 <= end <= |s| < start ==> r == s[end..]
    ensures (start <= 0 && end <= 0) || (start >= |s| && end >= |s|) ==> r == ""
    ensures var a, b := Clamp(start, |s|), Clamp(end, |s|);
      r == s[Min(a, b)..Max(a, b)]
  {
    var a, b := Clamp(start, |s|), Clamp(end, |s|);
    if a <= b then s[a..b] else s[b..a]
  }

  /** `s.startsWith(p)`. */
  predicate StartsWith(s: string, p: string) {
    |p| <= |s| && s[..|p|] == p
  }

  /** `s.replace(/^#/, '')`: at most one leading '#' removed. */
  function StripLeadingHash(s: string): (r: string)
    ensures |s| > 0 && s[0] == '#' ==> s == "#" + r
    ensures (|s| == 0 || s[0] != '#') ==> r == s
  {
    if |s| > 0 && s[0] == '#' then s[1..] else s
  }

  /** Does `pat` occur in `s` at position i? */
  predicate OccursAt(s: string, pat: string, i: nat) {
    i + |pat| <= |s| && s[i..i + |pat|] == pat
  }

  /** `s.indexOf(pat, from)` for from <= |s|: the first occurrence at or after `from`. */
  function IndexOfFrom(s: string, pat: string, from: nat): (r: Option<nat>)
    requires from <= |s|
    ensures r.Some? ==> from <= r.value && OccursAt(s, pat, r.value)
    ensures r.Some? ==> forall i :: from <= i < r.value ==> !OccursAt(s, pat, i)
    ensures r.None? ==> forall i :: from <= i <= |s| ==> !OccursAt(s, pat, i)
    decreases |s| - from
  {
    if OccursAt(s, pat, from) then Some(from)
    else if from == |s| then None
    else IndexOfFrom(s, pat, from + 1)
  }

  /** `s.indexOf(pat)`; None stands for -1. */
  function IndexOf(s: string, pat: string): (r: Option<nat>)
    ensures r.Some? ==> OccursAt(s, pat, r.value)
    ensures r.Some? ==> forall i :: 0 <= i < r.value ==> !OccursAt(s, pat, i)
    ensures r.None? ==> forall i :: 0 <= i <= |s| ==> !OccursAt(s, pat, i)
  {
    IndexOfFrom(s, pat, 0)
  }

  /** `s.split(sep)[1]` for a non-empty separator: the text between the first
      occurrence of `sep` and the next one (or the end); None is `undefined`,
      the case where `sep` does not occur. */
  function SecondPiece(s: string, sep: string): (r: Option<string>)
    requires |sep| > 0
    ensures r.None? <==> IndexOf(s, sep).None?
    // the piece starts right after the first occurrence and runs, containing
    // no occurrence, up to the next occurrence or the end of s
    ensures r.Some? ==>
      var start := IndexOf(s, sep).value + |sep|;
      && start + |r.value| <= |s|
      && r.value == s[start..start + |r.value|]
      && (start + |r.value| == |s| || OccursAt(s, sep, start + |r.value|))
      && forall m :: start <= m < start + |r.value| ==> !OccursAt(s, sep, m)
  {
    match IndexOf(s, sep)
    case None => None
    case Some(i) =>
      var start := i + |sep|;
      var rest := s[start..];
      match IndexOf(rest, sep)
      case None =>
        OccursAfter(s, sep, start, |rest|);
        Some(rest)
      case Some(j) =>
        OccursAfter(s, sep, start, j);
        Some(rest[..j])
  }

  /** An occurrence in `s[start..]` before `n` is an occurrence in `s` at `start` plus that offset. */
  lemma OccursAfter(s: string, pat: string, start: nat, n: nat)
    requires start + n <= |s|
    requires forall m :: 0 <= m < n ==> !OccursAt(s[start..], pat, m)
    ensures forall m :: start <= m < start + n ==> !OccursAt(s, pat, m)
  {
    forall m | start <= m < start + n ensures !OccursAt(s, pat, m) {
      assert !OccursAt(s[start..], pat, m - start);
      if m + |pat| <= |s| {
        assert s[start..][m - start..m - start + |pat|] == s[m..m + |pat|];
      }
    }
  }

  /** A digit for 0..9. */
  function DigitChar(d: nat): char
    requires d < 10
  {
    ['0', '1', '2', '3', '4', '5', '6', '7', '8', '9'][d]
  }

  /** The decimal text a template literal gives a non-negative integer. */
  function NatToString(n: nat): (r: string)
    ensures |r| > 0
  {
    if n < 10 then [DigitChar(n)] else NatToString(n / 10) + [DigitChar(n % 10)]
  }
}
