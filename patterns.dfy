/** The two regular expressions of the pipeline, as JavaScript's `exec`
    and `test` evaluate them: `/bytes=(\d*)-(\d*)/` on the Range header
    (src/app.js:117) and `/\bgzip\b/`, `/\bdeflate\b/` on the
    Accept-Encoding header (src/app.js:130, 133). Neither is anchored, so
    both look for a match at every position, leftmost first. */
module Patterns {
  import opened Wrappers
  import opened JsNumbers

  /** Where the longest run of digits starting at position `j` of `s` ends:
      what a greedy `\d*` consumes from there. It is the only position from
      which every earlier character back to `j` is a digit and that is itself
      the end or a non-digit. */
  function DigitRunEnd(s: string, j: nat): (e: nat)
    requires j <= |s|
    ensures j <= e <= |s|
    ensures forall t :: j <= t < e ==> IsDigit(s[t])
    ensures e < |s| ==> !IsDigit(s[e])
    decreases |s| - j
  {
    if j == |s| || !IsDigit(s[j]) then j else DigitRunEnd(s, j + 1)
  }

  // ----- /bytes=(\d*)-(\d*)/ -----

  /** A successful `exec`: where the match starts, and the two capture groups. */
  datatype RangeMatch = RangeMatch(index: nat, first: string, last: string)

  const BytesPrefix: string := "bytes="

  /** `m` is the result the regex engine reports for a match at `m.index` of
      `s`: the text there is `bytes=`, the first group, `-` and the second
      group, both groups are digits, and the second group, being greedy and
      last, takes every digit that follows. */
  ghost predicate Matches(s: string, m: RangeMatch) {
    var j := m.index + |BytesPrefix|;
    var k := j + |m.first|;
    var e := k + 1 + |m.last|;
    && e <= |s|
    && s[m.index..j] == BytesPrefix
    && s[j..k] == m.first
    && s[k] == '-'
    && s[k + 1..e] == m.last
    && AllDigits(m.first) && AllDigits(m.last)
    && (e < |s| ==> !IsDigit(s[e]))
  }

  /** The regex tried at position `i` only. */
  function MatchAt(s: string, i: nat): (r: Option<RangeMatch>)
    requires i <= |s|
    ensures r.Some? ==> r.value.index == i && AllDigits(r.value.first) && AllDigits(r.value.last)
  {
    if i + |BytesPrefix| <= |s| && s[i..i + |BytesPrefix|] == BytesPrefix then
      var j := i + |BytesPrefix|;
      var k := DigitRunEnd(s, j);
      if k < |s| && s[k] == '-' then
        var e := DigitRunEnd(s, k + 1);
        Some(RangeMatch(i, s[j..k], s[k + 1..e]))
      else None
    else None
  }

  /** What `MatchAt` finds is a match. */
  lemma MatchAtSound(s: string, i: nat)
    requires i <= |s| && MatchAt(s, i).Some?
    ensures MatchAt(s, i).value.index == i && Matches(s, MatchAt(s, i).value)
  {
  }

  /** The first group cannot stop anywhere but at the first non-digit, so the
      match at a position is unique: whatever `Matches` admits, `MatchAt` finds. */
  lemma MatchAtComplete(s: string, m: RangeMatch)
    requires Matches(s, m)
    ensures MatchAt(s, m.index) == Some(m)
  {
    var j := m.index + |BytesPrefix|;
    var k := j + |m.first|;
    var e := k + 1 + |m.last|;
    GroupIsDigitRun(s, j, m.first);
    GroupIsDigitRun(s, k + 1, m.last);
    assert m == RangeMatch(m.index, s[j..k], s[k + 1..e]);
  }

  /** A group of digits at position `j` of `s`, followed by a non-digit or the
      end, is exactly what the greedy run from `j` takes. */
  lemma GroupIsDigitRun(s: string, j: nat, g: string)
    requires j + |g| <= |s| && s[j..j + |g|] == g && AllDigits(g)
    requires j + |g| < |s| ==> !IsDigit(s[j + |g|])
    ensures DigitRunEnd(s, j) == j + |g|
  {
  }

  /** The regex matches nowhere in `s`. */
  ghost predicate NoRangeMatch(s: string) {
    forall q :: 0 <= q <= |s| ==> MatchAt(s, q).None?
  }

  /** `exec` from position `i` onwards: the leftmost match, if any. */
  function ExecRangeFrom(s: string, i: nat): (r: Option<RangeMatch>)
    requires i <= |s|
    ensures r.Some? ==> i <= r.value.index <= |s| && MatchAt(s, r.value.index) == r
    ensures r.Some? ==> forall q :: i <= q < r.value.index ==> MatchAt(s, q).None?
    ensures r.None? ==> forall q :: i <= q <= |s| ==> MatchAt(s, q).None?
    decreases |s| - i
  {
    var here := MatchAt(s, i);
    if here.Some? then here
    else if i == |s| then None
    else ExecRangeFrom(s, i + 1)
  }

  /** `range.match(/bytes=(\d*)-(\d*)/)`: null exactly when nothing matches. */
  function ExecRange(s: string): (r: Option<RangeMatch>)
    ensures r.None? <==> NoRangeMatch(s)
    ensures r.Some? ==> r.value.index <= |s| && MatchAt(s, r.value.index) == r
    ensures r.Some? ==> forall q :: 0 <= q < r.value.index ==> MatchAt(s, q).None?
  {
    ExecRangeFrom(s, 0)
  }

  /** A header that is exactly `bytes=a-b` matches at its start, with `a`
      and `b` as the groups. */
  lemma ExecRangeOfBounds(a: string, b: string)
    requires AllDigits(a) && AllDigits(b)
    ensures ExecRange(BytesPrefix + a + "-" + b) == Some(RangeMatch(0, a, b))
  {
    var s := BytesPrefix + a + "-" + b;
    var k := |BytesPrefix| + |a|;
    assert s[0..|BytesPrefix|] == BytesPrefix;
    assert s[|BytesPrefix|..k] == a;
    assert s[k] == '-';
    assert s[k + 1..|s|] == b;
    MatchAtComplete(s, RangeMatch(0, a, b));
  }

  // ----- /\bword\b/ -----

  /** `\w` without the `u` flag. */
  predicate IsWordChar(c: char) {
    'a' <= c <= 'z' || 'A' <= c <= 'Z' || IsDigit(c) || c == '_'
  }

  /** Whether position `p` holds a word character; outside the string, none does. */
  predicate WordCharAt(s: string, p: int) {
    0 <= p < |s| && IsWordChar(s[p])
  }

  /** `\b` at position `p`: a word character on exactly one side. */
  predicate BoundaryAt(s: string, p: int) {
    WordCharAt(s, p - 1) != WordCharAt(s, p)
  }

  /** `\bw\b` matches at position `i`. */
  predicate WordAt(s: string, w: string, i: nat) {
    i + |w| <= |s| && s[i..i + |w|] == w && BoundaryAt(s, i) && BoundaryAt(s, i + |w|)
  }

  /** `/\bw\b/.test(s)`, as a statement. */
  ghost predicate ContainsWord(s: string, w: string) {
    exists i :: 0 <= i <= |s| && WordAt(s, w, i)
  }

  /** The search `test` performs, from position `i` onwards. */
  function SearchWordFrom(s: string, w: string, i: nat): (found: bool)
    requires i <= |s|
    ensures found <==> exists p :: i <= p <= |s| && WordAt(s, w, p)
    decreases |s| - i
  {
    if WordAt(s, w, i) then true
    else if i == |s| then false
    else SearchWordFrom(s, w, i + 1)
  }

  /** `/\bw\b/.test(s)`. */
  function TestWord(s: string, w: string): (found: bool)
    ensures found <==> ContainsWord(s, w)
  {
    SearchWordFrom(s, w, 0)
  }
}
