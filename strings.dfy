/*
 * The Python `str` operations the tool server relies on: `in`, `find`,
 * `startswith`/`endswith`, `lower`, `split(sep, 1)` and `strip()`.
 */
module Strings {
  import opened Values

  /** `sub` occurs in `s` starting at index `i`. */
  predicate OccursAt(sub: string, s: string, i: int) {
    0 <= i && i + |sub| <= |s| && s[i..i + |sub|] == sub
  }

  /** `s.find(sub, from)`: the first index at or after `from` where `sub` occurs. */
  function FindFrom(s: string, sub: string, from: nat): (r: Option<nat>)
    decreases |s| - from
    ensures r.Some? ==> from <= r.value && OccursAt(sub, s, r.value)
    ensures r.Some? ==> forall j :: from <= j < r.value ==> !OccursAt(sub, s, j)
    ensures r.None? ==> forall j :: from <= j ==> !OccursAt(sub, s, j)
  {
    if from + |sub| > |s| then None
    else if s[from..from + |sub|] == sub then Some(from)
    else FindFrom(s, sub, from + 1)
  }

  /** `sub in s`. */
  predicate Contains(s: string, sub: string) {
    FindFrom(s, sub, 0).Some?
  }

  lemma ContainsIff(s: string, sub: string)
    ensures Contains(s, sub) <==> exists i :: OccursAt(sub, s, i)
  {
    if exists i :: OccursAt(sub, s, i) {
      var i :| OccursAt(sub, s, i);
      assert 0 <= i;
    }
  }

  /** Containment is transitive: a string inside `b` is inside any string containing `b`. */
  lemma ContainsTransitive(a: string, b: string, c: string)
    requires Contains(b, a) && Contains(c, b)
    ensures Contains(c, a)
  {
    var i := FindFrom(b, a, 0).value;
    var j := FindFrom(c, b, 0).value;
    forall k | 0 <= k < |a| ensures c[j + i + k] == a[k] {
      assert b[i + k] == a[k];
      assert c[j + (i + k)] == b[i + k];
    }
    assert OccursAt(a, c, j + i);
    ContainsIff(c, a);
  }

  predicate StartsWith(s: string, prefix: string) {
    |prefix| <= |s| && s[..|prefix|] == prefix
  }

  predicate EndsWith(s: string, suffix: string) {
    |suffix| <= |s| && s[|s| - |suffix|..] == suffix
  }

  /** ASCII lower-casing of one character. */
  function LowerChar(c: char): (r: char)
    ensures 'A' <= c <= 'Z' ==> r as int == c as int + 32
    ensures !('A' <= c <= 'Z') ==> r == c
  {
    if 'A' <= c <= 'Z' then (c as int + 32) as char else c
  }

  /** `s.lower()` over ASCII letters. */
  function Lower(s: string): (r: string)
    ensures |r| == |s|
    ensures forall i :: 0 <= i < |s| ==> r[i] == LowerChar(s[i])
  {
    seq(|s|, i requires 0 <= i < |s| => LowerChar(s[i]))
  }

  /** Lower-casing does not move or create underscores. */
  lemma LowerKeepsUnderscores(s: string, i: int)
    ensures OccursAt("__", s, i) <==> OccursAt("__", Lower(s), i)
  {
    if 0 <= i && i + 2 <= |s| {
      assert Lower(s)[i..i + 2] == [LowerChar(s[i]), LowerChar(s[i + 1])];
      assert s[i..i + 2] == [s[i], s[i + 1]];
    }
  }

  /**
   * `s.split(sep, 1)` when `sep in s`: the part before the first occurrence
   * of `sep` and the part after it.
   */
  function SplitFirst(s: string, sep: string): (r: (string, string))
    requires sep != [] && Contains(s, sep)
    ensures r.0 + sep + r.1 == s
    ensures !Contains(r.0, sep)
  {
    var i := FindFrom(s, sep, 0).value;
    var head, tail := s[..i], s[i + |sep|..];
    assert head + sep + tail == s by {
      assert s == s[..i] + s[i..i + |sep|] + s[i + |sep|..];
    }
    assert !Contains(head, sep) by {
      if Contains(head, sep) {
        var j := FindFrom(head, sep, 0).value;
        assert s[j..j + |sep|] == head[j..j + |sep|];
        assert j < i && OccursAt(sep, s, j);
      }
    }
    (head, tail)
  }

  /** The characters for which Python's `str.isspace()` holds. */
  predicate IsSpace(c: char) {
    c == ' ' || '\t' <= c <= '\r' || '\U{1c}' <= c <= '\U{1f}'
    || c == '\U{85}' || c == '\U{a0}' || c == '\U{1680}'
    || '\U{2000}' <= c <= '\U{200a}' || c == '\U{2028}' || c == '\U{2029}'
    || c == '\U{202f}' || c == '\U{205f}' || c == '\U{3000}'
  }

  /** Number of leading whitespace characters of `s`. */
  function LeadingSpace(s: string): (n: nat)
    ensures n <= |s|
    ensures forall k :: 0 <= k < n ==> IsSpace(s[k])
    ensures n < |s| ==> !IsSpace(s[n])
  {
    if s == [] || !IsSpace(s[0]) then 0 else 1 + LeadingSpace(s[1..])
  }

  /** Number of trailing whitespace characters of `s`. */
  function TrailingSpace(s: string): (n: nat)
    ensures n <= |s|
    ensures forall k :: |s| - n <= k < |s| ==> IsSpace(s[k])
    ensures n < |s| ==> !IsSpace(s[|s| - n - 1])
  {
    if s == [] || !IsSpace(s[|s| - 1]) then 0 else 1 + TrailingSpace(s[..|s| - 1])
  }

  /**
   * `s.strip()`: `s` without its leading and trailing whitespace. The result
   * is a slice of `s` that neither starts nor ends with whitespace, and
   * everything cut off is whitespace.
   */
  function Strip(s: string): (r: string)
    ensures exists i, j ::
      (0 <= i <= j <= |s| && r == s[i..j]
      && (forall k :: 0 <= k < i ==> IsSpace(s[k]))
      && (forall k :: j <= k < |s| ==> IsSpace(s[k])))
    ensures r != [] ==> !IsSpace(r[0]) && !IsSpace(r[|r| - 1])
  {
    var i := LeadingSpace(s);
    var rest := s[i..];
    var n := TrailingSpace(rest);
    var j := |s| - n;
    assert rest[..|rest| - n] == s[i..j];
    assert forall k :: j <= k < |s| ==> s[k] == rest[k - i];
    s[i..j]
  }
}
