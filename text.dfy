/**
 * The JavaScript string operations the catalog code relies on:
 * `trim`, `toLowerCase`, the first two pieces of `split(':')` and `includes`.
 */
module Text {

  import opened Wrappers

  /**
   * The characters `String.prototype.trim` removes: the WhiteSpace and
   * LineTerminator code points of ECMA-262 (tab, vertical tab, form feed,
   * every space separator, the byte order mark, LF, CR, LS and PS).
   */
  predicate IsTrimmable(c: char) {
    || c == '\t' || c == '\n' || c == '\U{000B}' || c == '\U{000C}' || c == '\r'
    || c == ' ' || c == '\U{00A0}' || c == '\U{1680}'
    || ('\U{2000}' <= c <= '\U{200A}')
    || c == '\U{2028}' || c == '\U{2029}' || c == '\U{202F}' || c == '\U{205F}'
    || c == '\U{3000}' || c == '\U{FEFF}'
  }

  /** Number of trimmable characters at the front of `s`. */
  function LeadingSpace(s: string): (i: nat)
    ensures i <= |s|
    ensures forall k :: 0 <= k < i ==> IsTrimmable(s[k])
    ensures i < |s| ==> !IsTrimmable(s[i])
  {
    if s == [] || !IsTrimmable(s[0]) then 0 else 1 + LeadingSpace(s[1..])
  }

  /** Length of `s` once its trailing trimmable characters are cut off. */
  function TrailingCut(s: string): (j: nat)
    ensures j <= |s|
    ensures forall k :: j <= k < |s| ==> IsTrimmable(s[k])
    ensures 0 < j ==> !IsTrimmable(s[j - 1])
  {
    if s == [] || !IsTrimmable(s[|s| - 1]) then |s| else TrailingCut(s[..|s| - 1])
  }

  /** `s.trim()`: the slice of `s` left after removing trimmable characters at both ends. */
  function Trim(s: string): (r: string)
    ensures |r| <= |s|
    ensures r != [] ==> !IsTrimmable(r[0]) && !IsTrimmable(r[|r| - 1])
    ensures r == [] <==> forall k :: 0 <= k < |s| ==> IsTrimmable(s[k])
    ensures exists i, j :: 0 <= i <= j <= |s| && r == s[i..j]
                        && (forall k :: 0 <= k < i ==> IsTrimmable(s[k]))
                        && (forall k :: j <= k < |s| ==> IsTrimmable(s[k]))
  {
    var i := LeadingSpace(s);
    var t := s[i..];
    var j := i + TrailingCut(t);
    assert t[..TrailingCut(t)] == s[i..j];
    assert forall k :: j <= k < |s| ==> s[k] == t[k - i];
    t[..TrailingCut(t)]
  }

  function LowerChar(c: char): char {
    if 'A' <= c <= 'Z' then (c as int + 32) as char else c
  }

  /** `s.toLowerCase()` for the ASCII letters. */
  function Lower(s: string): (r: string)
    ensures |r| == |s|
    ensures forall k :: 0 <= k < |s| ==> r[k] == LowerChar(s[k])
  {
    seq(|s|, k requires 0 <= k < |s| => LowerChar(s[k]))
  }

  /** Index of the first ':' in `s` at or after `from`, or `|s|` when there is none. */
  function NextColon(s: string, from: nat): (j: nat)
    requires from <= |s|
    ensures from <= j <= |s|
    ensures j < |s| ==> s[j] == ':'
    ensures forall k :: from <= k < j ==> s[k] != ':'
    decreases |s| - from
  {
    if from == |s| || s[from] == ':' then from else NextColon(s, from + 1)
  }

  /**
   * The two names of `const [key, val] = s.split(':')`: the text before the
   * first colon, and the text between the first colon and the next one (or
   * the end); `val` is undefined when `s` has no colon at all.
   */
  function SplitPair(s: string): (r: (string, Option<string>))
    ensures ':' !in r.0
    ensures r.1.None? <==> ':' !in s
    ensures r.1.None? ==> r.0 == s
    ensures r.1.Some? ==> ':' !in r.1.value
    ensures r.1.Some? ==> && r.0 + [':'] + r.1.value <= s
                          && (|r.0| + 1 + |r.1.value| == |s| || s[|r.0| + 1 + |r.1.value|] == ':')
  {
    var i := NextColon(s, 0);
    if i == |s| then
      (s, None)
    else
      var j := NextColon(s, i + 1);
      assert s[..i] + [':'] + s[i + 1..j] == s[..j];
      (s[..i], Some(s[i + 1..j]))
  }

  /** `t` occurs in `s` starting at index `i`. */
  predicate OccursAt(s: string, t: string, i: nat) {
    i + |t| <= |s| && s[i..i + |t|] == t
  }

  /** `s.includes(t)`. */
  predicate Contains(s: string, t: string) {
    exists i: nat | i <= |s| :: OccursAt(s, t, i)
  }

  lemma ContainsEmpty(s: string)
    ensures Contains(s, [])
  {
    assert OccursAt(s, [], 0);
  }
}
