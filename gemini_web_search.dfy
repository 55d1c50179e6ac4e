/*
 * The response handling of tools/gemini_web_search.py: the title filter of
 * `follow_redirect`, `extract_references`, which turns the grounding
 * metadata of a Gemini response into a capped list of references, and the
 * API-key guard of `search_web`.
 *
 * The HTTP requests of `follow_redirect` and the Gemini client are network
 * code: `follow_redirect` is given what its requests returned, and
 * `extract_references` calls it through the parameter `redirect`. The
 * response is given as the parts of its JSON dump that are read, each key
 * that may be missing as an `Option`.
 */
module GeminiSearch {
  import opened Values
  import opened Strings
  import opened HtmlTitle

  /** The title texts of a Cloudflare challenge page. */
  const ChallengeTitles: seq<string> := ["Attention Required! | Cloudflare", "Just a moment...", "Security check"]

  /** The title `follow_redirect` keeps: a non-empty title naming a challenge page becomes None. */
  function FilterTitle(title: Option<string>): (r: Option<string>)
    ensures title.None? || title == Some("") ==> r == title
    ensures title.Some? && title.value != "" ==>
      (r.None? <==> exists k :: 0 <= k < |ChallengeTitles| && Contains(title.value, ChallengeTitles[k]))
    ensures r.Some? ==> r == title
  {
    if title.Some? && title.value != ""
       && (Contains(title.value, ChallengeTitles[0]) || Contains(title.value, ChallengeTitles[1])
           || Contains(title.value, ChallengeTitles[2]))
    then None
    else title
  }

  /**
   * `follow_redirect(url, timeout, follow_redirects)`, given what its two
   * requests gave: `head`, the URL the HEAD request ended at, and
   * `firstChunk`, the first 8192 bytes of the GET, decoded. Any exception
   * gives the URL back with no title.
   */
  function FollowRedirect(url: string, followRedirects: bool, head: Outcome<string>, firstChunk: Outcome<string>)
    : (r: (string, Option<string>))
    ensures head.Raises? || !followRedirects || firstChunk.Raises? ==> r == (url, None)
    ensures head.Returns? && followRedirects && firstChunk.Returns? ==>
      r == (head.value, FilterTitle(ExtractTitle(firstChunk.value)))
    ensures r.1.Some? ==> forall k :: 0 <= k < |ChallengeTitles| ==> r.1.value == "" || !Contains(r.1.value, ChallengeTitles[k])
  {
    if head.Raises? then (url, None)
    else if !followRedirects then (url, None)
    else if firstChunk.Raises? then (url, None)
    else (head.value, FilterTitle(ExtractTitle(firstChunk.value)))
  }

  /** `chunk["web"]`: the `uri` (if present) and `title` (if present) keys. */
  datatype Web = Web(uri: Option<string>, title: Option<Value>)

  /** A grounding chunk: without a `"web"` key, with `"web": null`, or with a web entry. */
  datatype Chunk = NoWebKey | NullWeb | WebEntry(web: Web)

  /** `support["confidence_scores"]`: missing, null, or a list of scores. */
  datatype Scores = ScoresMissing | ScoresNull | ScoresList(scores: seq<Value>)

  /** A grounding support: `segment.text`, `grounding_chunk_indices` and `confidence_scores`. */
  datatype Support = Support(segmentText: Option<Value>, chunkIndices: Option<seq<int>>, confidence: Scores)

  /**
   * `grounding_metadata`: its `grounding_supports` and `grounding_chunks`
   * lists, each None when missing or null.
   */
  datatype Grounding = Grounding(supports: Option<seq<Support>>, chunks: Option<seq<Chunk>>)

  /** A reference dict; `confidence` is None when the key is absent. */
  datatype Reference = Reference(content: Value, url: string, title: Value, confidence: Option<Value>)

  /** What the body of the inner loop does with one chunk index. */
  datatype Step = Fail | Skip | Add(ref: Reference)

  /** Python's `xs[i]` on a list of length `n`: the position it reads, or None for an IndexError. */
  function PyIndex(n: nat, i: int): (r: Option<nat>)
    ensures r.Some? ==> r.value < n
    ensures r.None? <==> i < -(n as int) || i >= n
    ensures r.Some? && i >= 0 ==> r.value == i
    ensures r.Some? && i < 0 ==> r.value == n + i
  {
    if 0 <= i < n then Some(i) else if -(n as int) <= i < 0 then Some(n + i) else None
  }

  /**
   * One chunk index of a support: a chunk without `"web"` is skipped;
   * otherwise its URI is followed and a reference built from the segment
   * text, the final URL and the title, with `confidence` when asked for.
   * A missing key, a null where a dict or list is indexed, or a bad index
   * raises, which is `Fail`.
   */
  function ChunkStep(g: Grounding, support: Support, index: int, includeConfidence: bool,
                     redirect: string -> (string, Option<string>)): (r: Step)
    ensures r.Add? ==> g.chunks.Some? && PyIndex(|g.chunks.value|, index).Some?
    ensures r.Add? ==> (r.ref.confidence.Some? <==> includeConfidence)
    ensures r.Add? ==>
      var chunk := g.chunks.value[PyIndex(|g.chunks.value|, index).value];
      && chunk.WebEntry? && chunk.web.uri.Some? && support.segmentText.Some?
      && r.ref.content == support.segmentText.value
      && r.ref.url == redirect(chunk.web.uri.value).0
    ensures r.Skip? <==> (g.chunks.Some? && PyIndex(|g.chunks.value|, index).Some?
      && g.chunks.value[PyIndex(|g.chunks.value|, index).value].NoWebKey?)
    ensures r.Add? && includeConfidence && support.confidence.ScoresList? ==>
      r.ref.confidence == Some(if support.confidence.scores != [] then support.confidence.scores[0] else Null)
    ensures r.Add? && includeConfidence && support.confidence.ScoresNull? ==> r.ref.confidence == Some(Null)
    ensures includeConfidence && support.confidence.ScoresMissing? ==> !r.Add?
    ensures g.chunks.Some? && PyIndex(|g.chunks.value|, index).Some?
      && (var chunk := g.chunks.value[PyIndex(|g.chunks.value|, index).value]; chunk.WebEntry? && chunk.web.uri.Some?)
      && support.segmentText.Some? && !(includeConfidence && support.confidence.ScoresMissing?)
      ==> r.Add?
  {
    if g.chunks.None? then Fail
    else
      var position := PyIndex(|g.chunks.value|, index);
      if position.None? then Fail
      else match g.chunks.value[position.value]
        case NoWebKey => Skip
        case NullWeb => Fail
        case WebEntry(web) =>
          if web.uri.None? || support.segmentText.None? then Fail
          else
            var (finalUrl, actualTitle) := redirect(web.uri.value);
            var title := if actualTitle.Some? && actualTitle.value != "" then Str(actualTitle.value)
                         else if web.title.Some? then web.title.value
                         else Str("");
            if !includeConfidence then Add(Reference(support.segmentText.value, finalUrl, title, None))
            else match support.confidence
              case ScoresMissing => Fail
              case ScoresNull => Add(Reference(support.segmentText.value, finalUrl, title, Some(Null)))
              case ScoresList(scores) =>
                Add(Reference(support.segmentText.value, finalUrl, title, Some(if scores == [] then Null else scores[0])))
  }

  /**
   * The title of a reference: the title found at the final URL when it is
   * truthy, else the chunk's own title, else "".
   */
  lemma TitleFallback(g: Grounding, support: Support, index: int, includeConfidence: bool,
                      redirect: string -> (string, Option<string>))
    requires ChunkStep(g, support, index, includeConfidence, redirect).Add?
    ensures var web := g.chunks.value[PyIndex(|g.chunks.value|, index).value].web;
      var actual := redirect(web.uri.value).1;
      var title := ChunkStep(g, support, index, includeConfidence, redirect).ref.title;
      && (actual.Some? && actual.value != "" ==> title == Str(actual.value))
      && (!(actual.Some? && actual.value != "") && web.title.Some? ==> title == web.title.value)
      && (!(actual.Some? && actual.value != "") && web.title.None? ==> title == Str(""))
  {
  }

  /**
   * The inner loop over `indices` from the references `acc`: None when an
   * exception is raised, and it stops as soon as the count reaches `maxReferences`.
   */
  function Inner(g: Grounding, support: Support, indices: seq<int>, acc: seq<Reference>, maxReferences: int,
                 includeConfidence: bool, redirect: string -> (string, Option<string>)): Option<seq<Reference>>
    decreases |indices|
  {
    if indices == [] then Some(acc)
    else match ChunkStep(g, support, indices[0], includeConfidence, redirect)
      case Fail => None
      case Skip => Inner(g, support, indices[1..], acc, maxReferences, includeConfidence, redirect)
      case Add(ref) =>
        if |acc + [ref]| >= maxReferences then Some(acc + [ref])
        else Inner(g, support, indices[1..], acc + [ref], maxReferences, includeConfidence, redirect)
  }

  /** The outer loop over `supports`: it stops before a support once the count has reached `maxReferences`. */
  function Outer(g: Grounding, supports: seq<Support>, acc: seq<Reference>, maxReferences: int,
                 includeConfidence: bool, redirect: string -> (string, Option<string>)): Option<seq<Reference>>
    decreases |supports|
  {
    if supports == [] || |acc| >= maxReferences then Some(acc)
    else if supports[0].chunkIndices.None? then None
    else match Inner(g, supports[0], supports[0].chunkIndices.value, acc, maxReferences, includeConfidence, redirect)
      case None => None
      case Some(acc') => Outer(g, supports[1..], acc', maxReferences, includeConfidence, redirect)
  }

  /** `extract_references(response, max_references, include_confidence)`: any exception gives `[]`. */
  function ExtractRefs(grounding: Option<Grounding>, maxReferences: int, includeConfidence: bool,
                       redirect: string -> (string, Option<string>)): seq<Reference>
  {
    if grounding.None? || grounding.value.supports.None? then []
    else match Outer(grounding.value, grounding.value.supports.value, [], maxReferences, includeConfidence, redirect)
      case None => []
      case Some(refs) => refs
  }

  /** Every reference one support yields, with no cap; None when one of them raises. */
  function SupportRefs(g: Grounding, support: Support, indices: seq<int>, includeConfidence: bool,
                       redirect: string -> (string, Option<string>)): Option<seq<Reference>>
    decreases |indices|
  {
    if indices == [] then Some([])
    else match ChunkStep(g, support, indices[0], includeConfidence, redirect)
      case Fail => None
      case Skip => SupportRefs(g, support, indices[1..], includeConfidence, redirect)
      case Add(ref) =>
        match SupportRefs(g, support, indices[1..], includeConfidence, redirect)
        case None => None
        case Some(rest) => Some([ref] + rest)
  }

  /** Every reference of every support, in support order and then chunk-index order, with no cap. */
  function AllRefs(g: Grounding, supports: seq<Support>, includeConfidence: bool,
                   redirect: string -> (string, Option<string>)): Option<seq<Reference>>
    decreases |supports|
  {
    if supports == [] then Some([])
    else if supports[0].chunkIndices.None? then None
    else match SupportRefs(g, supports[0], supports[0].chunkIndices.value, includeConfidence, redirect)
      case None => None
      case Some(first) =>
        match AllRefs(g, supports[1..], includeConfidence, redirect)
        case None => None
        case Some(rest) => Some(first + rest)
  }

  /** `max(0, n)`. */
  function Cap(n: int): nat {
    if n < 0 then 0 else n
  }

  /** `(acc + more)` cut to `cap` entries. */
  function Capped(acc: seq<Reference>, more: seq<Reference>, cap: nat): seq<Reference>
    requires |acc| <= cap
  {
    if |acc + more| <= cap then acc + more else (acc + more)[..cap]
  }

  lemma {:induction false} InnerIsCapped(g: Grounding, support: Support, indices: seq<int>, acc: seq<Reference>,
                                         maxReferences: int, includeConfidence: bool,
                                         redirect: string -> (string, Option<string>))
    requires |acc| < Cap(maxReferences)
    requires SupportRefs(g, support, indices, includeConfidence, redirect).Some?
    ensures Inner(g, support, indices, acc, maxReferences, includeConfidence, redirect)
      == Some(Capped(acc, SupportRefs(g, support, indices, includeConfidence, redirect).value, Cap(maxReferences)))
    decreases |indices|
  {
    var more := SupportRefs(g, support, indices, includeConfidence, redirect).value;
    if indices == [] {
      assert acc + more == acc;
    } else {
      match ChunkStep(g, support, indices[0], includeConfidence, redirect)
      case Skip =>
        InnerIsCapped(g, support, indices[1..], acc, maxReferences, includeConfidence, redirect);
      case Add(ref) =>
        var rest := SupportRefs(g, support, indices[1..], includeConfidence, redirect).value;
        assert more == [ref] + rest;
        assert acc + more == (acc + [ref]) + rest;
        if |acc + [ref]| >= maxReferences {
          assert |acc + [ref]| == Cap(maxReferences);
          assert (acc + more)[..|acc + [ref]|] == acc + [ref];
          assert Capped(acc, more, Cap(maxReferences)) == acc + [ref];
        } else {
          InnerIsCapped(g, support, indices[1..], acc + [ref], maxReferences, includeConfidence, redirect);
        }
    }
  }

  /** Cutting in two steps is cutting once: a full list stays as it is, a short one grows. */
  lemma CappedTwice(acc: seq<Reference>, first: seq<Reference>, rest: seq<Reference>, cap: nat)
    requires |acc| <= cap
    ensures |Capped(acc, first, cap)| <= cap
    ensures Capped(Capped(acc, first, cap), rest, cap) == Capped(acc, first + rest, cap)
  {
    var acc' := Capped(acc, first, cap);
    assert acc + (first + rest) == (acc + first) + rest;
    if |acc + first| <= cap {
      assert acc' == acc + first;
    } else {
      assert |acc'| == cap;
      assert (acc' + rest)[..cap] == acc';
      assert ((acc + first) + rest)[..cap] == (acc + first)[..cap];
    }
  }

  lemma {:induction false} OuterIsCapped(g: Grounding, supports: seq<Support>, acc: seq<Reference>, maxReferences: int,
                                         includeConfidence: bool, redirect: string -> (string, Option<string>))
    requires |acc| <= Cap(maxReferences)
    requires AllRefs(g, supports, includeConfidence, redirect).Some?
    ensures Outer(g, supports, acc, maxReferences, includeConfidence, redirect)
      == Some(Capped(acc, AllRefs(g, supports, includeConfidence, redirect).value, Cap(maxReferences)))
    decreases |supports|
  {
    var cap := Cap(maxReferences);
    var all := AllRefs(g, supports, includeConfidence, redirect).value;
    if supports == [] {
      assert acc + all == acc;
    } else if |acc| >= maxReferences {
      assert |acc| == cap;
      if |acc + all| <= cap {
        assert acc + all == acc;
      } else {
        assert (acc + all)[..|acc|] == acc;
      }
    } else {
      var indices := supports[0].chunkIndices.value;
      var first := SupportRefs(g, supports[0], indices, includeConfidence, redirect).value;
      var rest := AllRefs(g, supports[1..], includeConfidence, redirect).value;
      assert all == first + rest;
      InnerIsCapped(g, supports[0], indices, acc, maxReferences, includeConfidence, redirect);
      CappedTwice(acc, first, rest, cap);
      OuterIsCapped(g, supports[1..], Capped(acc, first, cap), maxReferences, includeConfidence, redirect);
    }
  }

  /**
   * When no exception is raised, `extract_references` returns the first
   * `max(0, max_references)` of all references, in support order and then
   * chunk-index order.
   */
  lemma ExtractRefsIsPrefix(g: Grounding, maxReferences: int, includeConfidence: bool,
                            redirect: string -> (string, Option<string>))
    requires g.supports.Some? && AllRefs(g, g.supports.value, includeConfidence, redirect).Some?
    ensures var all := AllRefs(g, g.supports.value, includeConfidence, redirect).value;
      var refs := ExtractRefs(Some(g), maxReferences, includeConfidence, redirect);
      && |refs| == (if |all| <= Cap(maxReferences) then |all| else Cap(maxReferences))
      && refs == all[..|refs|]
  {
    var all := AllRefs(g, g.supports.value, includeConfidence, redirect).value;
    OuterIsCapped(g, g.supports.value, [], maxReferences, includeConfidence, redirect);
    assert [] + all == all;
  }

  /** The inner loop never takes the count past `max(0, max_references)`. */
  lemma {:induction false} InnerBound(g: Grounding, support: Support, indices: seq<int>, acc: seq<Reference>,
                                      maxReferences: int, includeConfidence: bool,
                                      redirect: string -> (string, Option<string>))
    requires |acc| < Cap(maxReferences)
    ensures var r := Inner(g, support, indices, acc, maxReferences, includeConfidence, redirect);
      r.Some? ==> |r.value| <= Cap(maxReferences)
    decreases |indices|
  {
    if indices != [] {
      match ChunkStep(g, support, indices[0], includeConfidence, redirect)
      case Fail =>
      case Skip =>
        InnerBound(g, support, indices[1..], acc, maxReferences, includeConfidence, redirect);
      case Add(ref) =>
        if |acc + [ref]| < maxReferences {
          InnerBound(g, support, indices[1..], acc + [ref], maxReferences, includeConfidence, redirect);
        }
    }
  }

  /** The outer loop never takes the count past `max(0, max_references)`. */
  lemma {:induction false} OuterBound(g: Grounding, supports: seq<Support>, acc: seq<Reference>, maxReferences: int,
                                      includeConfidence: bool, redirect: string -> (string, Option<string>))
    requires |acc| <= Cap(maxReferences)
    ensures var r := Outer(g, supports, acc, maxReferences, includeConfidence, redirect);
      r.Some? ==> |r.value| <= Cap(maxReferences)
    decreases |supports|
  {
    if supports != [] && |acc| < maxReferences && supports[0].chunkIndices.Some? {
      InnerBound(g, supports[0], supports[0].chunkIndices.value, acc, maxReferences, includeConfidence, redirect);
      match Inner(g, supports[0], supports[0].chunkIndices.value, acc, maxReferences, includeConfidence, redirect)
      case None =>
      case Some(acc') =>
        OuterBound(g, supports[1..], acc', maxReferences, includeConfidence, redirect);
    }
  }

  /**
   * Whatever the response, `extract_references` returns at most
   * `max(0, max_references)` references.
   */
  lemma ExtractRefsBound(grounding: Option<Grounding>, maxReferences: int, includeConfidence: bool,
                         redirect: string -> (string, Option<string>))
    ensures |ExtractRefs(grounding, maxReferences, includeConfidence, redirect)| <= Cap(maxReferences)
  {
    if grounding.Some? && grounding.value.supports.Some? {
      OuterBound(grounding.value, grounding.value.supports.value, [], maxReferences, includeConfidence, redirect);
    }
  }

  /**
   * Once the inner loop has reached the cap it breaks, so chunk indices after
   * that point are never read: whatever they are, the result is the same.
   */
  lemma {:induction false} InnerPastCap(g: Grounding, support: Support, indices: seq<int>, more: seq<int>,
                                        acc: seq<Reference>, maxReferences: int, includeConfidence: bool,
                                        redirect: string -> (string, Option<string>))
    requires |acc| < maxReferences
    requires var r := Inner(g, support, indices, acc, maxReferences, includeConfidence, redirect);
      r.Some? && |r.value| >= maxReferences
    ensures Inner(g, support, indices + more, acc, maxReferences, includeConfidence, redirect)
      == Inner(g, support, indices, acc, maxReferences, includeConfidence, redirect)
    decreases |indices|
  {
    if indices != [] {
      assert (indices + more)[0] == indices[0];
      assert (indices + more)[1..] == indices[1..] + more;
      match ChunkStep(g, support, indices[0], includeConfidence, redirect)
      case Fail =>
      case Skip =>
        InnerPastCap(g, support, indices[1..], more, acc, maxReferences, includeConfidence, redirect);
      case Add(ref) =>
        if |acc + [ref]| < maxReferences {
          InnerPastCap(g, support, indices[1..], more, acc + [ref], maxReferences, includeConfidence, redirect);
        }
    }
  }

  /**
   * Once the outer loop has reached the cap it breaks, so supports after that
   * point are never read: whatever they are, the result is the same.
   */
  lemma {:induction false} OuterPastCap(g: Grounding, supports: seq<Support>, more: seq<Support>, acc: seq<Reference>,
                                        maxReferences: int, includeConfidence: bool,
                                        redirect: string -> (string, Option<string>))
    requires var r := Outer(g, supports, acc, maxReferences, includeConfidence, redirect);
      r.Some? && |r.value| >= maxReferences
    ensures Outer(g, supports + more, acc, maxReferences, includeConfidence, redirect)
      == Outer(g, supports, acc, maxReferences, includeConfidence, redirect)
    decreases |supports|
  {
    if supports != [] && |acc| < maxReferences {
      assert (supports + more)[0] == supports[0];
      assert (supports + more)[1..] == supports[1..] + more;
      match Inner(g, supports[0], supports[0].chunkIndices.value, acc, maxReferences, includeConfidence, redirect)
      case None =>
      case Some(acc') =>
        OuterPastCap(g, supports[1..], more, acc', maxReferences, includeConfidence, redirect);
    }
  }

  /** The loops read only `grounding_chunks` from the metadata, besides the supports they are given. */
  lemma {:induction false} InnerFrame(g1: Grounding, g2: Grounding, support: Support, indices: seq<int>,
                                      acc: seq<Reference>, maxReferences: int, includeConfidence: bool,
                                      redirect: string -> (string, Option<string>))
    requires g1.chunks == g2.chunks
    ensures Inner(g1, support, indices, acc, maxReferences, includeConfidence, redirect)
      == Inner(g2, support, indices, acc, maxReferences, includeConfidence, redirect)
    decreases |indices|
  {
    if indices != [] {
      assert ChunkStep(g1, support, indices[0], includeConfidence, redirect)
        == ChunkStep(g2, support, indices[0], includeConfidence, redirect);
      match ChunkStep(g1, support, indices[0], includeConfidence, redirect)
      case Fail =>
      case Skip =>
        InnerFrame(g1, g2, support, indices[1..], acc, maxReferences, includeConfidence, redirect);
      case Add(ref) =>
        InnerFrame(g1, g2, support, indices[1..], acc + [ref], maxReferences, includeConfidence, redirect);
    }
  }

  lemma {:induction false} OuterFrame(g1: Grounding, g2: Grounding, supports: seq<Support>, acc: seq<Reference>,
                                      maxReferences: int, includeConfidence: bool,
                                      redirect: string -> (string, Option<string>))
    requires g1.chunks == g2.chunks
    ensures Outer(g1, supports, acc, maxReferences, includeConfidence, redirect)
      == Outer(g2, supports, acc, maxReferences, includeConfidence, redirect)
    decreases |supports|
  {
    if supports != [] && |acc| < maxReferences && supports[0].chunkIndices.Some? {
      InnerFrame(g1, g2, supports[0], supports[0].chunkIndices.value, acc, maxReferences, includeConfidence, redirect);
      match Inner(g1, supports[0], supports[0].chunkIndices.value, acc, maxReferences, includeConfidence, redirect)
      case None =>
      case Some(acc') =>
        OuterFrame(g1, g2, supports[1..], acc', maxReferences, includeConfidence, redirect);
    }
  }

  /**
   * Supports after the one that fills the cap cannot change the result of
   * `extract_references`, even ones that would raise if they were read.
   */
  lemma ExtractRefsPastCap(g: Grounding, supports: seq<Support>, more: seq<Support>, maxReferences: int,
                           includeConfidence: bool, redirect: string -> (string, Option<string>))
    requires |ExtractRefs(Some(g.(supports := Some(supports))), maxReferences, includeConfidence, redirect)| >= maxReferences
    ensures ExtractRefs(Some(g.(supports := Some(supports + more))), maxReferences, includeConfidence, redirect)
      == ExtractRefs(Some(g.(supports := Some(supports))), maxReferences, includeConfidence, redirect)
  {
    var g1 := g.(supports := Some(supports));
    var g2 := g.(supports := Some(supports + more));
    if maxReferences <= 0 {
      assert Outer(g2, supports + more, [], maxReferences, includeConfidence, redirect) == Some([]);
    } else {
      OuterPastCap(g1, supports, more, [], maxReferences, includeConfidence, redirect);
      OuterFrame(g1, g2, supports + more, [], maxReferences, includeConfidence, redirect);
      OuterFrame(g1, g2, supports, [], maxReferences, includeConfidence, redirect);
    }
  }

  /** Every reference is built by a step of the inner loop for one of the supports. */
  predicate Produced(g: Grounding, supports: seq<Support>, includeConfidence: bool,
                     redirect: string -> (string, Option<string>), ref: Reference)
  {
    exists i, j :: 0 <= i < |supports| && supports[i].chunkIndices.Some?
      && 0 <= j < |supports[i].chunkIndices.value|
      && ChunkStep(g, supports[i], supports[i].chunkIndices.value[j], includeConfidence, redirect) == Add(ref)
  }

  lemma {:induction false} InnerProvenance(g: Grounding, support: Support, indices: seq<int>, acc: seq<Reference>,
                                           maxReferences: int, includeConfidence: bool,
                                           redirect: string -> (string, Option<string>))
    requires Inner(g, support, indices, acc, maxReferences, includeConfidence, redirect).Some?
    ensures var r := Inner(g, support, indices, acc, maxReferences, includeConfidence, redirect).value;
      && acc <= r
      && forall k :: |acc| <= k < |r| ==>
           exists j :: 0 <= j < |indices| && ChunkStep(g, support, indices[j], includeConfidence, redirect) == Add(r[k])
    decreases |indices|
  {
    if indices != [] {
      var r := Inner(g, support, indices, acc, maxReferences, includeConfidence, redirect).value;
      match ChunkStep(g, support, indices[0], includeConfidence, redirect)
      case Skip =>
        InnerProvenance(g, support, indices[1..], acc, maxReferences, includeConfidence, redirect);
        forall k | |acc| <= k < |r|
          ensures exists j :: 0 <= j < |indices| && ChunkStep(g, support, indices[j], includeConfidence, redirect) == Add(r[k])
        {
          var j :| 0 <= j < |indices[1..]| && ChunkStep(g, support, indices[1..][j], includeConfidence, redirect) == Add(r[k]);
          assert indices[1..][j] == indices[j + 1];
        }
      case Add(ref) =>
        if |acc + [ref]| < maxReferences {
          InnerProvenance(g, support, indices[1..], acc + [ref], maxReferences, includeConfidence, redirect);
        }
        forall k | |acc| <= k < |r|
          ensures exists j :: 0 <= j < |indices| && ChunkStep(g, support, indices[j], includeConfidence, redirect) == Add(r[k])
        {
          if k == |acc| {
            assert r[k] == (acc + [ref])[k] == ref;
            assert ChunkStep(g, support, indices[0], includeConfidence, redirect) == Add(r[k]);
          } else {
            var j :| 0 <= j < |indices[1..]| && ChunkStep(g, support, indices[1..][j], includeConfidence, redirect) == Add(r[k]);
            assert indices[1..][j] == indices[j + 1];
          }
        }
    }
  }

  lemma {:induction false} OuterProvenance(g: Grounding, supports: seq<Support>, acc: seq<Reference>, maxReferences: int,
                                           includeConfidence: bool, redirect: string -> (string, Option<string>))
    requires Outer(g, supports, acc, maxReferences, includeConfidence, redirect).Some?
    ensures var r := Outer(g, supports, acc, maxReferences, includeConfidence, redirect).value;
      && acc <= r
      && forall k :: |acc| <= k < |r| ==> Produced(g, supports, includeConfidence, redirect, r[k])
    decreases |supports|
  {
    if supports != [] && |acc| < maxReferences {
      var r := Outer(g, supports, acc, maxReferences, includeConfidence, redirect).value;
      var indices := supports[0].chunkIndices.value;
      InnerProvenance(g, supports[0], indices, acc, maxReferences, includeConfidence, redirect);
      var acc' := Inner(g, supports[0], indices, acc, maxReferences, includeConfidence, redirect).value;
      OuterProvenance(g, supports[1..], acc', maxReferences, includeConfidence, redirect);
      forall k | |acc| <= k < |r| ensures Produced(g, supports, includeConfidence, redirect, r[k]) {
        if k < |acc'| {
          assert r[k] == acc'[k];
          var j :| 0 <= j < |indices| && ChunkStep(g, supports[0], indices[j], includeConfidence, redirect) == Add(r[k]);
          assert supports[0].chunkIndices.value[j] == indices[j];
        } else {
          var i, j :| 0 <= i < |supports[1..]| && supports[1..][i].chunkIndices.Some?
            && 0 <= j < |supports[1..][i].chunkIndices.value|
            && ChunkStep(g, supports[1..][i], supports[1..][i].chunkIndices.value[j], includeConfidence, redirect) == Add(r[k]);
          assert supports[1..][i] == supports[i + 1];
        }
      }
    }
  }

  /** `scores[0] if scores else None` for a support's `confidence_scores` that is present. */
  function FirstScore(confidence: Scores): Value {
    if confidence.ScoresList? && confidence.scores != [] then confidence.scores[0] else Null
  }

  /**
   * Whatever the response, every reference returned was built for a chunk
   * with a web entry, and carries `confidence` exactly when it was asked for:
   * then the first score (or None) of a support that has scores.
   */
  lemma ReferencesProvenance(grounding: Option<Grounding>, maxReferences: int, includeConfidence: bool,
                             redirect: string -> (string, Option<string>))
    ensures var refs := ExtractRefs(grounding, maxReferences, includeConfidence, redirect);
      forall k :: 0 <= k < |refs| ==>
        && Produced(grounding.value, grounding.value.supports.value, includeConfidence, redirect, refs[k])
        && (refs[k].confidence.Some? <==> includeConfidence)
        && (includeConfidence ==> exists i :: (0 <= i < |grounding.value.supports.value|
              && grounding.value.supports.value[i].confidence != ScoresMissing
              && refs[k].confidence == Some(FirstScore(grounding.value.supports.value[i].confidence))))
  {
    var refs := ExtractRefs(grounding, maxReferences, includeConfidence, redirect);
    if refs != [] {
      var g := grounding.value;
      OuterProvenance(g, g.supports.value, [], maxReferences, includeConfidence, redirect);
      forall k | 0 <= k < |refs|
        ensures refs[k].confidence.Some? <==> includeConfidence
        ensures includeConfidence ==> exists i :: (0 <= i < |g.supports.value|
          && g.supports.value[i].confidence != ScoresMissing
          && refs[k].confidence == Some(FirstScore(g.supports.value[i].confidence)))
      {
        assert Produced(g, g.supports.value, includeConfidence, redirect, refs[k]);
        var i, j :| 0 <= i < |g.supports.value| && g.supports.value[i].chunkIndices.Some?
          && 0 <= j < |g.supports.value[i].chunkIndices.value|
          && ChunkStep(g, g.supports.value[i], g.supports.value[i].chunkIndices.value[j], includeConfidence, redirect)
             == Add(refs[k]);
      }
    }
  }

  /** With `max_references` zero or negative, nothing is read and the result is empty. */
  lemma NoReferencesWithoutBudget(grounding: Option<Grounding>, maxReferences: int, includeConfidence: bool,
                                  redirect: string -> (string, Option<string>))
    requires maxReferences <= 0
    ensures ExtractRefs(grounding, maxReferences, includeConfidence, redirect) == []
  {
  }

  /**
   * An exception before the cap is reached loses every reference: when the
   * first support's first chunk index is out of range, the result is empty
   * even if later supports are well formed.
   */
  lemma BadIndexLosesAll(g: Grounding, maxReferences: int, includeConfidence: bool,
                         redirect: string -> (string, Option<string>))
    requires maxReferences > 0
    requires g.supports.Some? && g.supports.value != []
    requires var first := g.supports.value[0];
      first.chunkIndices.Some? && first.chunkIndices.value != []
      && (g.chunks.None? || PyIndex(|g.chunks.value|, first.chunkIndices.value[0]).None?)
    ensures ExtractRefs(Some(g), maxReferences, includeConfidence, redirect) == []
  {
  }

  /**
   * With `include_confidence`, a first support without `confidence_scores`
   * whose first chunk index names a web chunk with a URI raises a KeyError,
   * so the result is empty even if later supports are well formed.
   */
  lemma MissingScoresLoseAll(g: Grounding, maxReferences: int, redirect: string -> (string, Option<string>))
    requires maxReferences > 0
    requires g.supports.Some? && g.supports.value != []
    requires var first := g.supports.value[0];
      && first.chunkIndices.Some? && first.chunkIndices.value != []
      && first.segmentText.Some? && first.confidence.ScoresMissing?
      && g.chunks.Some? && PyIndex(|g.chunks.value|, first.chunkIndices.value[0]).Some?
      && var chunk := g.chunks.value[PyIndex(|g.chunks.value|, first.chunkIndices.value[0]).value];
      chunk.WebEntry? && chunk.web.uri.Some?
    ensures ExtractRefs(Some(g), maxReferences, true, redirect) == []
  {
  }

  /**
   * The body of the inner loop of `extract_references` for one chunk index:
   * `Fail` where the source raises, `Skip` for a chunk without `"web"`.
   */
  method ReferenceFor(g: Grounding, support: Support, index: int, includeConfidence: bool,
                      redirect: string -> (string, Option<string>)) returns (step: Step)
    ensures step == ChunkStep(g, support, index, includeConfidence, redirect)
  {
    if g.chunks.None? {
      return Fail;
    }
    var chunks := g.chunks.value;
    if !(-|chunks| <= index < |chunks|) {
      return Fail;
    }
    var chunk := if index >= 0 then chunks[index] else chunks[|chunks| + index];
    match chunk
    case NoWebKey =>
      return Skip;
    case NullWeb =>
      return Fail;
    case WebEntry(web) =>
      if web.uri.None? {
        return Fail;
      }
      var (finalUrl, actualTitle) := redirect(web.uri.value);
      if support.segmentText.None? {
        return Fail;
      }
      var title := if actualTitle.Some? && actualTitle.value != "" then Str(actualTitle.value)
                   else DictGetTitle(web);
      var confidence := None;
      if includeConfidence {
        match support.confidence
        case ScoresMissing =>
          return Fail;
        case ScoresNull =>
          confidence := Some(Null);
        case ScoresList(scores) =>
          confidence := Some(if scores != [] then scores[0] else Null);
      }
      return Add(Reference(support.segmentText.value, finalUrl, title, confidence));
  }

  /**
   * The inner loop of `extract_references` over one support's chunk
   * indices, from the references read so far; None when it raises.
   */
  method ReadSupport(g: Grounding, support: Support, indices: seq<int>, start: seq<Reference>, maxReferences: int,
                     includeConfidence: bool, redirect: string -> (string, Option<string>))
    returns (result: Option<seq<Reference>>)
    ensures result == Inner(g, support, indices, start, maxReferences, includeConfidence, redirect)
  {
    var references := start;
    var j := 0;
    while j < |indices|
      invariant 0 <= j <= |indices|
      decreases |indices| - j
      invariant Inner(g, support, indices[j..], references, maxReferences, includeConfidence, redirect)
        == Inner(g, support, indices, start, maxReferences, includeConfidence, redirect)
    {
      assert indices[j..][0] == indices[j] && indices[j..][1..] == indices[j + 1..];
      var step := ReferenceFor(g, support, indices[j], includeConfidence, redirect);
      match step {
        case Fail =>
          return None;
        case Skip =>
        case Add(ref) =>
          references := references + [ref];
          if |references| >= maxReferences {
            return Some(references);
          }
      }
      j := j + 1;
    }
    return Some(references);
  }

  /** `extract_references(response, max_references, include_confidence)`, with its outer loop and early exits. */
  method ExtractReferences(grounding: Option<Grounding>, maxReferences: int, includeConfidence: bool,
                           redirect: string -> (string, Option<string>))
    returns (references: seq<Reference>)
    ensures references == ExtractRefs(grounding, maxReferences, includeConfidence, redirect)
  {
    if grounding.None? || grounding.value.supports.None? {
      return [];
    }
    var g := grounding.value;
    var supports := g.supports.value;
    references := [];
    var i := 0;
    while i < |supports|
      invariant 0 <= i <= |supports|
      invariant Outer(g, supports[i..], references, maxReferences, includeConfidence, redirect)
        == Outer(g, supports, [], maxReferences, includeConfidence, redirect)
    {
      if |references| >= maxReferences {
        break;
      }
      assert supports[i..][0] == supports[i] && supports[i..][1..] == supports[i + 1..];
      if supports[i].chunkIndices.None? {
        return [];
      }
      var read := ReadSupport(g, supports[i], supports[i].chunkIndices.value, references,
                              maxReferences, includeConfidence, redirect);
      if read.None? {
        return [];
      }
      references := read.value;
      i := i + 1;
    }
  }

  /** `chunk["web"].get("title", "")`. */
  function DictGetTitle(web: Web): (r: Value)
    ensures web.title.Some? ==> r == web.title.value
    ensures web.title.None? ==> r == Str("")
  {
    if web.title.Some? then web.title.value else Str("")
  }

  /** The default configuration `search_web` declares; its API key is None. */
  const SearchDefaults: map<string, Value> := map[
    "max_retries" := Int(3),
    "gemini_model" := Str("gemini-2.0-flash"),
    "max_references" := Int(10),
    "include_confidence_scores" := Bool(true),
    "timeout" := Int(5),
    "follow_redirects" := Bool(true),
    "gemini_api_key" := Null]

  /**
   * `search_web(query, config)`: without a truthy `gemini_api_key` it
   * returns the error dict; otherwise the result is what the search with
   * the client, `search`, returns.
   */
  function SearchWeb(query: string, config: map<string, Value>, search: string -> Value): (r: Value)
    ensures !Truthy(DictGet(config, "gemini_api_key", Null)) ==>
      r == ErrorEnvelope("Gemini API key not provided in tool configuration")
    ensures Truthy(DictGet(config, "gemini_api_key", Null)) ==> r == search(query)
  {
    if !Truthy(DictGet(config, "gemini_api_key", Null)) then
      ErrorEnvelope("Gemini API key not provided in tool configuration")
    else search(query)
  }

  /**
   * With the declared defaults and a config file that does not set the key,
   * every search is refused, whatever the client would have returned.
   */
  lemma DefaultsNeedAKey(query: string, fileConfig: map<string, Value>, search: string -> Value)
    requires "gemini_api_key" !in fileConfig
    ensures SearchWeb(query, SearchDefaults + fileConfig, search)
      == ErrorEnvelope("Gemini API key not provided in tool configuration")
  {
    assert (SearchDefaults + fileConfig)["gemini_api_key"] == Null;
  }
}
