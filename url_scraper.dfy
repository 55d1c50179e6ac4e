/*
 * The page handling of tools/url_scraper.py: the anti-bot check, the loop
 * that reads the streamed response into `content` under a size limit, and
 * the result built from the page. The HTTP request, its retries and URL
 * validation are network code and not part of this model; the response is
 * given as its decoded chunks.
 */
module UrlScraper {
  import opened Values
  import opened Strings
  import opened HtmlTitle

  /** The strings whose presence marks a bot-protection page. */
  const AntiBotIndicators: seq<string> := [
    "Attention Required! | Cloudflare",
    "Just a moment...",
    "Security check",
    "Please verify you are a human",
    "Access Denied",
    "Bot Protection"
  ]

  /** `is_anti_bot_page(content)`: some indicator occurs in the content, matched case-sensitively. */
  predicate IsAntiBotPage(content: string)
    ensures IsAntiBotPage(content) <==>
      exists k, i :: 0 <= k < |AntiBotIndicators| && OccursAt(AntiBotIndicators[k], content, i)
  {
    exists k :: 0 <= k < |AntiBotIndicators| && Contains(content, AntiBotIndicators[k])
  }

  /** A page that contains a bot-protection page's text is itself taken for one. */
  lemma AntiBotMonotone(inner: string, outer: string)
    requires IsAntiBotPage(inner) && Contains(outer, inner)
    ensures IsAntiBotPage(outer)
  {
    var k :| 0 <= k < |AntiBotIndicators| && Contains(inner, AntiBotIndicators[k]);
    ContainsTransitive(AntiBotIndicators[k], inner, outer);
  }

  /** Each indicator on its own is detected. */
  lemma IndicatorsDetected(k: int)
    requires 0 <= k < |AntiBotIndicators|
    ensures IsAntiBotPage(AntiBotIndicators[k])
  {
    var s := AntiBotIndicators[k];
    assert OccursAt(s, s, 0);
    ContainsIff(s, s);
  }

  /** The number of bytes UTF-8 takes for one character. */
  function Utf8Size(c: char): (n: nat)
    ensures 1 <= n <= 4
  {
    if c as int < 0x80 then 1
    else if c as int < 0x800 then 2
    else if c as int < 0x1_0000 then 3
    else 4
  }

  /** `len(s.encode('utf-8'))`. */
  function Utf8Length(s: string): (n: nat)
    ensures |s| <= n <= 4 * |s|
  {
    if s == [] then 0 else Utf8Size(s[0]) + Utf8Length(s[1..])
  }

  /** Python's `s[:m]`: a negative `m` counts from the end. */
  function PrefixSlice(s: string, m: int): (r: string)
    ensures r <= s
    ensures m >= 0 ==> |r| == if m <= |s| then m else |s|
    ensures m < 0 ==> |r| == if |s| + m >= 0 then |s| + m else 0
  {
    if m >= 0 then (if m <= |s| then s[..m] else s)
    else if |s| + m >= 0 then s[..|s| + m] else []
  }

  /** The chunks joined together. */
  function Concat(chunks: seq<string>): string {
    if chunks == [] then [] else chunks[0] + Concat(chunks[1..])
  }

  /**
   * The loop over the streamed chunks, from the state `(content, size)`:
   * empty chunks are skipped; each other chunk is appended and its UTF-8
   * byte count added to `size`; once `size` reaches `maxSize` the content is
   * cut to its first `maxSize` characters and the loop stops.
   */
  function Scan(content: string, size: int, chunks: seq<string>, maxSize: int): string
    decreases |chunks|
  {
    if chunks == [] then content
    else if chunks[0] == [] then Scan(content, size, chunks[1..], maxSize)
    else
      var grown := content + chunks[0];
      var total := size + Utf8Length(chunks[0]);
      if total >= maxSize then PrefixSlice(grown, maxSize)
      else Scan(grown, total, chunks[1..], maxSize)
  }

  /** The content `scrape_url` reads from a response made of `chunks`. */
  function Accumulated(chunks: seq<string>, maxSize: int): string {
    Scan([], 0, chunks, maxSize)
  }

  /** The content read is always a prefix of the whole response. */
  lemma {:induction false} ScanIsPrefix(content: string, size: int, chunks: seq<string>, maxSize: int)
    ensures Scan(content, size, chunks, maxSize) <= content + Concat(chunks)
    decreases |chunks|
  {
    if chunks != [] {
      var grown := content + chunks[0];
      assert content + Concat(chunks) == grown + Concat(chunks[1..]);
      if chunks[0] == [] {
        ScanIsPrefix(content, size, chunks[1..], maxSize);
      } else if size + Utf8Length(chunks[0]) < maxSize {
        ScanIsPrefix(grown, size + Utf8Length(chunks[0]), chunks[1..], maxSize);
      }
    }
  }

  /** A response whose bytes stay below the limit is read whole. */
  lemma {:induction false} ScanUnderLimit(content: string, size: int, chunks: seq<string>, maxSize: int)
    requires size + Utf8Length(Concat(chunks)) < maxSize
    ensures Scan(content, size, chunks, maxSize) == content + Concat(chunks)
    decreases |chunks|
  {
    if chunks != [] {
      Utf8LengthAppend(chunks[0], Concat(chunks[1..]));
      var grown := content + chunks[0];
      assert content + Concat(chunks) == grown + Concat(chunks[1..]);
      if chunks[0] == [] {
        assert grown == content;
        ScanUnderLimit(content, size, chunks[1..], maxSize);
      } else {
        ScanUnderLimit(grown, size + Utf8Length(chunks[0]), chunks[1..], maxSize);
      }
    }
  }

  /**
   * The chunk `c` at which the byte count first reaches the limit: the
   * content read is everything up to and including `c`, cut to its first
   * `maxSize` characters, and the chunks after it are never read. Byte
   * counts only grow, so `c` is the first such chunk exactly when the count
   * before it is still under the limit.
   */
  lemma {:induction false} ScanCut(content: string, size: int, pre: seq<string>, c: string, post: seq<string>,
                                   maxSize: int)
    requires c != []
    requires size + Utf8Length(Concat(pre)) < maxSize
    requires size + Utf8Length(Concat(pre)) + Utf8Length(c) >= maxSize
    ensures Scan(content, size, pre + [c] + post, maxSize) == PrefixSlice(content + Concat(pre) + c, maxSize)
    decreases |pre|
  {
    if pre == [] {
      assert pre + [c] + post == [c] + post;
      assert content + Concat(pre) + c == content + c;
    } else {
      assert (pre + [c] + post)[0] == pre[0];
      assert (pre + [c] + post)[1..] == pre[1..] + [c] + post;
      Utf8LengthAppend(pre[0], Concat(pre[1..]));
      assert content + Concat(pre) + c == (content + pre[0]) + Concat(pre[1..]) + c;
      if pre[0] == [] {
        assert content + pre[0] == content;
        ScanCut(content, size, pre[1..], c, post, maxSize);
      } else {
        ScanCut(content + pre[0], size + Utf8Length(pre[0]), pre[1..], c, post, maxSize);
      }
    }
  }

  /** With a non-negative limit, the content read is either the whole response or at most `maxSize` characters. */
  lemma {:induction false} ScanBounded(content: string, size: int, chunks: seq<string>, maxSize: int)
    requires maxSize >= 0
    ensures var r := Scan(content, size, chunks, maxSize);
      r == content + Concat(chunks) || |r| <= maxSize
    decreases |chunks|
  {
    if chunks != [] {
      var grown := content + chunks[0];
      assert content + Concat(chunks) == grown + Concat(chunks[1..]);
      if chunks[0] == [] {
        ScanBounded(content, size, chunks[1..], maxSize);
      } else if size + Utf8Length(chunks[0]) < maxSize {
        ScanBounded(grown, size + Utf8Length(chunks[0]), chunks[1..], maxSize);
      }
    }
  }

  lemma {:induction false} Utf8LengthAppend(a: string, b: string)
    ensures Utf8Length(a + b) == Utf8Length(a) + Utf8Length(b)
  {
    if a == [] {
      assert a + b == b;
    } else {
      assert (a + b)[0] == a[0] && (a + b)[1..] == a[1..] + b;
      Utf8LengthAppend(a[1..], b);
    }
  }

  /**
   * The limit is counted in bytes but the cut is in characters: a response
   * of two two-byte characters with a limit of 2 is kept whole, 4 bytes.
   */
  lemma CutCountsCharacters()
    ensures var r := Accumulated(["éé"], 2);
      r == "éé" && Utf8Length(r) == 4
  {
    var chunk := "éé";
    assert Utf8Length(chunk) == 2 + Utf8Length(chunk[1..]) == 4;
    assert Accumulated([chunk], 2) == PrefixSlice([] + chunk, 2);
    assert [] + chunk == chunk;
  }

  /** The chunk loop of `scrape_url`. */
  method AccumulateChunks(chunks: seq<string>, maxSize: int) returns (content: string)
    ensures content == Accumulated(chunks, maxSize)
  {
    content := "";
    var size := 0;
    var i := 0;
    while i < |chunks|
      invariant 0 <= i <= |chunks|
      invariant Scan(content, size, chunks[i..], maxSize) == Accumulated(chunks, maxSize)
    {
      var chunk := chunks[i];
      assert chunks[i..][1..] == chunks[i + 1..];
      if chunk != "" {
        content := content + chunk;
        size := size + Utf8Length(chunk);
        if size >= maxSize {
          content := PrefixSlice(content, maxSize);
          return;
        }
      }
      i := i + 1;
    }
  }

  /** The title as the result dict holds it: the string, or None. */
  function TitleValue(title: Option<string>): Value {
    match title
    case None => Null
    case Some(t) => Str(t)
  }

  /**
   * The dict `scrape_url` returns for a page read as `content` whose final
   * URL is `finalUrl`: a bot-protection page is an error, checked before the
   * title is looked at; any other page is a success carrying its content and
   * title.
   */
  function PageResult(finalUrl: string, content: string): (r: Value)
    ensures r.Dict? && "status" in r.entries
    ensures r.entries["status"] == Str("error") <==> IsAntiBotPage(content)
    ensures IsAntiBotPage(content) ==> r == ErrorEnvelope("Anti-bot protection detected")
    ensures !IsAntiBotPage(content) ==> (r.entries.Keys == {"status", "url", "content", "title"}
      && r.entries["url"] == Str(finalUrl) && r.entries["content"] == Str(content)
      && r.entries["title"] == TitleValue(ExtractTitle(content)))
  {
    if IsAntiBotPage(content) then ErrorEnvelope("Anti-bot protection detected")
    else
      Dict(map[
        "status" := Str("success"),
        "url" := Str(finalUrl),
        "content" := Str(content),
        "title" := TitleValue(ExtractTitle(content))])
  }
}
