/*
 * `extract_title_from_html`, which tools/url_scraper.py and
 * tools/gemini_web_search.py each define identically: the stripped text of
 * the leftmost match of `<title[^>]*>([^<]+)</title>`, searched
 * case-insensitively, or None.
 *
 * `IsMatch` states what a match of that pattern is; `MatchAt` and `Search`
 * find one by a left-to-right scan, and the lemmas below prove the scan
 * finds exactly the leftmost match.
 */
module HtmlTitle {
  import opened Values
  import opened Strings

  /** The lower-case ASCII text `lit` occurs at `i` in `s`, ignoring case. */
  predicate MatchesAt(s: string, i: int, lit: string) {
    0 <= i && i + |lit| <= |s| && forall k :: 0 <= k < |lit| ==> LowerChar(s[i + k]) == lit[k]
  }

  const OpenTag := "<title"
  const CloseTag := "</title>"

  /**
   * The pattern matches at `i` with group 1 spanning `s[a..b]`: `<title`,
   * then characters other than `>`, then `>`, then at least one character
   * other than `<`, then `</title>`.
   */
  predicate IsMatch(s: string, i: int, a: int, b: int) {
    && MatchesAt(s, i, OpenTag)
    && MatchesAt(s, b, CloseTag)
    && i + |OpenTag| < a < b
    && s[a - 1] == '>'
    && (forall p :: i + |OpenTag| <= p < a - 1 ==> s[p] != '>')
    && (forall p :: a <= p < b ==> s[p] != '<')
  }

  /** The first index at or after `from` holding `c`, or `|s|` when there is none. */
  function NextIndexOf(s: string, c: char, from: nat): (r: nat)
    requires from <= |s|
    decreases |s| - from
    ensures from <= r <= |s|
    ensures r < |s| ==> s[r] == c
    ensures forall p :: from <= p < r ==> s[p] != c
  {
    if from == |s| || s[from] == c then from else NextIndexOf(s, c, from + 1)
  }

  lemma NextIndexOfIs(s: string, c: char, from: nat, p: nat)
    requires from <= p < |s| && s[p] == c
    requires forall q :: from <= q < p ==> s[q] != c
    ensures NextIndexOf(s, c, from) == p
  {
  }

  /**
   * The regular expression engine's attempt at index `i`: after `<title`,
   * `[^>]*>` can only end at the first `>`, and `([^<]+)</title>` can only
   * end at the first `<` after it, so there is at most one match, found
   * without backtracking. Returns the bounds of group 1.
   */
  function MatchAt(s: string, i: nat): (r: Option<(nat, nat)>)
    requires i <= |s|
  {
    if !MatchesAt(s, i, OpenTag) then None
    else
      var gt := NextIndexOf(s, '>', i + |OpenTag|);
      if gt == |s| then None
      else
        var lt := NextIndexOf(s, '<', gt + 1);
        if lt == gt + 1 || !MatchesAt(s, lt, CloseTag) then None
        else Some((gt + 1, lt))
  }

  /** The scan at `i` succeeds with `(a, b)` exactly when the pattern matches there with group 1 at `s[a..b]`. */
  lemma MatchAtIff(s: string, i: nat, a: int, b: int)
    requires i <= |s|
    ensures MatchAt(s, i) == Some((a, b)) <==> IsMatch(s, i, a, b)
  {
    if IsMatch(s, i, a, b) {
      NextIndexOfIs(s, '>', i + |OpenTag|, a - 1);
      assert LowerChar(s[b + 0]) == CloseTag[0] == '<';
      NextIndexOfIs(s, '<', a, b);
    }
  }

  /** A match: where it starts and where group 1 starts and ends. */
  datatype Match = Match(start: nat, groupStart: nat, groupEnd: nat)

  /** The first index from `from` to `last` at which `attempt` succeeds, with what it returned there. */
  function FirstSuccess(attempt: nat -> Option<(nat, nat)>, from: nat, last: nat): (r: Option<Match>)
    requires from <= last
    decreases last - from
    ensures r.Some? ==> (from <= r.value.start <= last
      && attempt(r.value.start) == Some((r.value.groupStart, r.value.groupEnd)))
    ensures r.Some? ==> forall j :: from <= j < r.value.start ==> attempt(j).None?
    ensures r.None? ==> forall j :: from <= j <= last ==> attempt(j).None?
  {
    var here := attempt(from);
    if here.Some? then Some(Match(from, here.value.0, here.value.1))
    else if from == last then None
    else FirstSuccess(attempt, from + 1, last)
  }

  /** `re.search` from index `from`: the scan is tried at each index in turn, the first success wins. */
  function Search(s: string, from: nat): (r: Option<Match>)
    requires from <= |s|
    ensures r.Some? ==> (from <= r.value.start <= |s|
      && MatchAt(s, r.value.start) == Some((r.value.groupStart, r.value.groupEnd)))
    ensures r.Some? ==> forall j :: from <= j < r.value.start ==> MatchAt(s, j).None?
    ensures r.None? ==> forall j :: from <= j <= |s| ==> MatchAt(s, j).None?
  {
    var attempt := (j: nat) => if j <= |s| then MatchAt(s, j) else None;
    assert forall j: nat :: j <= |s| ==> attempt(j) == MatchAt(s, j);
    FirstSuccess(attempt, from, |s|)
  }

  /** `extract_title_from_html(html)`. */
  function ExtractTitle(html: string): (r: Option<string>)
    ensures r.Some? ==> '<' !in r.value
  {
    match Search(html, 0)
    case None => None
    case Some(m) =>
      MatchAtIff(html, m.start, m.groupStart, m.groupEnd);
      var group := html[m.groupStart..m.groupEnd];
      assert forall k :: 0 <= k < |group| ==> group[k] != '<';
      Some(Strip(group))
  }

  /** No match anywhere: None. */
  lemma {:induction false} ExtractTitleNone(html: string)
    ensures ExtractTitle(html).None? <==> forall i, a, b :: !IsMatch(html, i, a, b)
  {
    if ExtractTitle(html).None? {
      forall i, a, b ensures !IsMatch(html, i, a, b) {
        if IsMatch(html, i, a, b) {
          MatchAtIff(html, i, a, b);
        }
      }
    } else {
      var m := Search(html, 0).value;
      MatchAtIff(html, m.start, m.groupStart, m.groupEnd);
    }
  }

  /**
   * With a match at `i` and none further left, the title is group 1 of the
   * match at `i` with surrounding whitespace stripped. Group 1 is never
   * empty, though the title may be once stripped.
   */
  lemma ExtractTitleLeftmost(html: string, i: int, a: int, b: int)
    requires IsMatch(html, i, a, b)
    requires forall j, a', b' :: 0 <= j < i ==> !IsMatch(html, j, a', b')
    ensures a < b
    ensures ExtractTitle(html) == Some(Strip(html[a..b]))
  {
    MatchAtIff(html, i, a, b);
    var m := Search(html, 0).value;
    MatchAtIff(html, m.start, m.groupStart, m.groupEnd);
    if m.start > i {
      assert false;
    } else if m.start < i {
      assert false;
    }
  }
}
