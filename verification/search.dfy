/** The list-shaping parts of the DuckDuckGo client: which parsed result
    blocks become search results and at which positions, the text handed to
    the language model, the cut of fetched page text, and the request queue
    of the rate limiter.  HTTP, HTML parsing and URL decoding are outside
    the model: a result block arrives already parsed, and the decoding of a
    redirect target is a parameter. */
module DuckDuckGo {
  import opened Wrappers
  import opened Text

  // ----- Results -----

  datatype SearchResult = SearchResult(title: string, link: string, snippet: string, position: int)

  /** The anchor inside a result's title: its stripped text and its `href`
      attribute, if it has one. */
  datatype Anchor = Anchor(text: string, href: Option<string>)

  /** One `.result` block: without a `.result__title` element, or with one
      holding an anchor (or not) and an optional snippet's text. */
  datatype Candidate = Untitled | Titled(anchor: Option<Anchor>, snippet: Option<string>)

  /** What an accepted block contributes, before it is numbered. */
  datatype Hit = Hit(title: string, link: string, snippet: string)

  const RedirectPrefix := "//duckduckgo.com/l/?uddg="

  /** A DuckDuckGo redirect is replaced by its decoded `uddg` target, up to
      the first `&`. */
  function Unwrap(link: string, unquote: string -> string): string {
    if StartsWith(link, RedirectPrefix) then
      var parts := Split(link, "uddg=");
      if |parts| > 1 then unquote(Split(parts[1], "&")[0]) else link
    else link
  }

  /** A block is kept when it has a title anchor whose link is not an
      advertisement (`y.js`). */
  function Accept(c: Candidate, unquote: string -> string): (h: Option<Hit>)
    ensures h.Some? <==> c.Titled? && c.anchor.Some? && !Contains(c.anchor.value.href.GetOr(""), "y.js")
  {
    match c
    case Untitled => None
    case Titled(None, _) => None
    case Titled(Some(a), snippet) =>
      var link := a.href.GetOr("");
      if Contains(link, "y.js") then None
      else Some(Hit(a.text, Unwrap(link, unquote), snippet.GetOr("")))
  }

  /** The accepted blocks, in page order. */
  function Accepted(cs: seq<Candidate>, unquote: string -> string): (hs: seq<Hit>)
    ensures |hs| <= |cs|
    decreases |cs|
  {
    if |cs| == 0 then []
    else
      var rest := Accepted(cs[..|cs| - 1], unquote);
      match Accept(cs[|cs| - 1], unquote)
      case None => rest
      case Some(h) => rest + [h]
  }

  /** The blocks accepted from a prefix of the page are a prefix of those
      accepted from the whole page. */
  lemma {:induction false} AcceptedPrefix(cs: seq<Candidate>, i: nat, unquote: string -> string)
    requires i <= |cs|
    ensures |Accepted(cs[..i], unquote)| <= |Accepted(cs, unquote)|
    ensures Accepted(cs[..i], unquote) == Accepted(cs, unquote)[..|Accepted(cs[..i], unquote)|]
    decreases |cs| - i
  {
    if i < |cs| {
      AcceptedPrefix(cs, i + 1, unquote);
      assert cs[..i + 1][..i] == cs[..i];
    } else {
      assert cs[..i] == cs;
    }
  }

  function Min(a: int, b: int): int {
    if a < b then a else b
  }

  function Max(a: int, b: int): int {
    if a < b then b else a
  }

  /** Accepted blocks numbered from 1 in page order. */
  function Numbered(hits: seq<Hit>): (rs: seq<SearchResult>)
    ensures |rs| == |hits|
    ensures forall i :: 0 <= i < |hits| ==>
      rs[i] == SearchResult(hits[i].title, hits[i].link, hits[i].snippet, i + 1)
  {
    seq(|hits|, i requires 0 <= i < |hits| => SearchResult(hits[i].title, hits[i].link, hits[i].snippet, i + 1))
  }

  /** The loop of `search` over the parsed blocks: accepted blocks are
      numbered from 1 in order, and the count is checked only after a
      result is added, so at least one result is kept when there is any,
      whatever the limit. */
  method CollectResults(cs: seq<Candidate>, maxResults: int, unquote: string -> string)
    returns (results: seq<SearchResult>)
    ensures |results| == Min(|Accepted(cs, unquote)|, Max(maxResults, 1))
    ensures results == Numbered(Accepted(cs, unquote))[..|results|]
  {
    results := [];
    var i := 0;
    while i < |cs|
      invariant 0 <= i <= |cs|
      invariant results == Numbered(Accepted(cs[..i], unquote))
      invariant |results| < Max(maxResults, 1)
    {
      ghost var before := Accepted(cs[..i], unquote);
      assert cs[..i + 1][..i] == cs[..i];
      var hit := Accept(cs[i], unquote);
      if hit.Some? {
        assert Accepted(cs[..i + 1], unquote) == before + [hit.value];
        results := results + [SearchResult(hit.value.title, hit.value.link, hit.value.snippet, |results| + 1)];
        assert results == Numbered(before + [hit.value]);
        if |results| >= maxResults {
          AcceptedPrefix(cs, i + 1, unquote);
          return;
        }
      } else {
        assert Accepted(cs[..i + 1], unquote) == before;
      }
      i := i + 1;
    }
    assert cs[..i] == cs;
  }

  // ----- The text for the language model -----

  const NoResultsMessage :=
    "No results were found for your search query. This could be due to " +
    "DuckDuckGo's bot detection or the query returned no matches. " +
    "Please try rephrasing your search or try again in a few minutes."

  function Heading(n: int): string {
    "Found " + IntToString(n) + " search results:\n"
  }

  /** The four lines `format_results_for_llm` writes for one result. */
  function ResultLines(r: SearchResult): seq<string> {
    [IntToString(r.position) + ". " + r.title, "   URL: " + r.link, "   Summary: " + r.snippet, ""]
  }

  function Listing(rs: seq<SearchResult>): (ls: seq<string>)
    ensures |ls| == 4 * |rs|
    decreases |rs|
  {
    if |rs| == 0 then [] else Listing(rs[..|rs| - 1]) + ResultLines(rs[|rs| - 1])
  }

  lemma ListingSnoc(rs: seq<SearchResult>, i: nat)
    requires i < |rs|
    ensures Listing(rs[..i + 1]) == Listing(rs[..i]) +
      [IntToString(rs[i].position) + ". " + rs[i].title, "   URL: " + rs[i].link, "   Summary: " + rs[i].snippet, ""]
  {
    assert rs[..i + 1][..i] == rs[..i];
  }

  /** One result as it reads in the text: its numbered title, URL and
      summary lines and the blank line after them. */
  function Entry(r: SearchResult): string {
    IntToString(r.position) + ". " + r.title + "\n   URL: " + r.link + "\n   Summary: " + r.snippet + "\n"
  }

  function Entries(rs: seq<SearchResult>): (es: seq<string>)
    ensures |es| == |rs|
    decreases |rs|
  {
    if |rs| == 0 then [] else Entries(rs[..|rs| - 1]) + [Entry(rs[|rs| - 1])]
  }

  lemma JoinEntry(r: SearchResult)
    ensures Join(ResultLines(r), "\n") == Entry(r)
  {
    var ls := ResultLines(r);
    var a, b, c := ls[0], ls[1], ls[2];
    assert Join([""], "\n") == "";
    assert ls[1..][1..][1..] == [""];
    assert Join(ls[1..][1..], "\n") == c + "\n";
    assert ls[1..][1..] == [c, ""];
    assert Join(ls[1..], "\n") == b + "\n" + (c + "\n");
    assert Join(ls, "\n") == a + "\n" + (b + "\n" + (c + "\n"));
  }

  lemma {:induction false} ListingEntries(rs: seq<SearchResult>)
    requires |rs| > 0
    ensures Join(Listing(rs), "\n") == Join(Entries(rs), "\n")
    decreases |rs|
  {
    var init := rs[..|rs| - 1];
    var last := rs[|rs| - 1];
    JoinEntry(last);
    if |init| == 0 {
      assert Listing(rs) == ResultLines(last);
      assert Entries(rs) == [Entry(last)];
    } else {
      ListingEntries(init);
      JoinConcat(Listing(init), ResultLines(last), "\n");
      JoinConcat(Entries(init), [Entry(last)], "\n");
    }
  }

  /** The heading line followed by every result's four lines, joined with
      newlines, reads as the heading, a blank line and the entries. */
  lemma FormatJoin(rs: seq<SearchResult>)
    requires |rs| > 0
    ensures Join([Heading(|rs|)] + Listing(rs), "\n") == Heading(|rs|) + "\n" + Join(Entries(rs), "\n")
  {
    var lines := [Heading(|rs|)] + Listing(rs);
    assert lines[1..] == Listing(rs);
    ListingEntries(rs);
  }

  /** `format_results_for_llm`: a fixed message when there is nothing,
      otherwise the heading, a blank line and the results' entries, one
      blank line apart. */
  method FormatResultsForLlm(results: seq<SearchResult>) returns (s: string)
    ensures |results| == 0 ==> s == NoResultsMessage
    ensures |results| > 0 ==> s == Heading(|results|) + "\n" + Join(Entries(results), "\n")
  {
    if |results| == 0 {
      return NoResultsMessage;
    }
    var listing := [];
    var i := 0;
    while i < |results|
      invariant 0 <= i <= |results|
      invariant listing == Listing(results[..i])
    {
      var r := results[i];
      ghost var before := listing;
      var title, url, summary := IntToString(r.position) + ". " + r.title, "   URL: " + r.link, "   Summary: " + r.snippet;
      listing := listing + [title];
      listing := listing + [url];
      listing := listing + [summary];
      listing := listing + [""];
      assert listing == before + [title, url, summary, ""];
      ListingSnoc(results, i);
      i := i + 1;
    }
    assert results[..i] == results;
    FormatJoin(results);
    var lines := [Heading(|results|)] + listing;
    s := Join(lines, "\n");
  }

  // ----- Fetched page text -----

  const MaxChars := 8000
  const TruncationMark := "... [content truncated]"

  /** The cut at the end of `fetch_content`. */
  function Truncate(text: string): (r: string)
    ensures Min(|text|, MaxChars) <= |r| <= MaxChars + |TruncationMark|
    ensures r[..Min(|text|, MaxChars)] == text[..Min(|text|, MaxChars)]
    ensures |text| <= MaxChars ==> r == text
    ensures |text| > MaxChars ==> |r| == MaxChars + |TruncationMark| && r[MaxChars..] == TruncationMark
  {
    if |text| > MaxChars then text[..MaxChars] + TruncationMark else text
  }

  /** Cutting text that was already cut changes nothing. */
  lemma TruncateIdempotent(text: string)
    ensures Truncate(Truncate(text)) == Truncate(text)
  {
    if |text| > MaxChars {
      var r := Truncate(text);
      assert r[..MaxChars] == text[..MaxChars];
    }
  }

  // ----- Rate limiting -----

  /** The span, in seconds, over which requests are counted. */
  const Window: real := 60.0

  /** The queue without its leading entries older than the window, seen at
      `now`. */
  function Prune(q: seq<real>, now: real): (r: seq<real>)
    ensures |r| <= |q| && r == q[|q| - |r|..]
    ensures |r| > 0 ==> now - r[0] <= Window
    ensures forall i :: 0 <= i < |q| - |r| ==> now - q[i] > Window
    decreases |q|
  {
    if |q| > 0 && now - q[0] > Window then Prune(q[1..], now) else q
  }

  predicate Ascending(q: seq<real>) {
    forall i, j :: 0 <= i < j < |q| ==> q[i] <= q[j]
  }

  /** In a queue kept in time order, every entry that survives pruning lies
      within the window. */
  lemma PruneWithinWindow(q: seq<real>, now: real)
    requires Ascending(q)
    ensures forall k :: 0 <= k < |Prune(q, now)| ==> now - Prune(q, now)[k] <= Window
  {
    var r := Prune(q, now);
    var d := |q| - |r|;
    forall k | 0 <= k < |r| ensures now - r[k] <= Window {
      assert r[0] == q[d] && r[k] == q[d + k];
      assert q[d] <= q[d + k];
    }
  }

  /** Pruning keeps a time-ordered queue in order and keeps its newest
      entry, if any entry is kept. */
  lemma {:induction false} PruneAscending(q: seq<real>, now: real)
    requires Ascending(q)
    ensures Ascending(Prune(q, now))
    ensures |Prune(q, now)| > 0 ==> Prune(q, now)[|Prune(q, now)| - 1] == q[|q| - 1]
    decreases |q|
  {
    if |q| > 0 && now - q[0] > Window {
      assert Ascending(q[1..]) by {
        forall i, j | 0 <= i < j < |q[1..]| ensures q[1..][i] <= q[1..][j] {
          assert q[1..][i] == q[i + 1] && q[1..][j] == q[j + 1];
        }
      }
      PruneAscending(q[1..], now);
    }
  }

  lemma SnocAscending(p: seq<real>, x: real)
    requires Ascending(p) && (|p| > 0 ==> p[|p| - 1] <= x)
    ensures Ascending(p + [x])
  {
    var s := p + [x];
    forall i, j | 0 <= i < j < |s| ensures s[i] <= s[j] {
      if j < |p| {
        assert s[i] == p[i] && s[j] == p[j];
      } else {
        assert s[i] == p[i] <= p[|p| - 1];
      }
    }
  }

  /** A request stamped no earlier than the newest queued one keeps the
      queue in time order. */
  lemma AcquireKeepsOrder(q: seq<real>, now: real, stamp: real)
    requires Ascending(q) && (|q| > 0 ==> q[|q| - 1] <= stamp)
    ensures Ascending(Prune(q, now) + [stamp])
  {
    PruneAscending(q, now);
    SnocAscending(Prune(q, now), stamp);
  }

  /** `RateLimiter`: the times of recent requests, oldest first. */
  class RateLimiter {
    const requestsPerMinute: int
    var recent: seq<real>

    constructor (requestsPerMinute: int)
      ensures this.requestsPerMinute == requestsPerMinute && recent == []
    {
      this.requestsPerMinute := requestsPerMinute;
      recent := [];
    }

    /** `acquire`, with the clock read at the start (`now`) and again after
        any wait (`stamp`).  The result is how long the call sleeps: when
        the window is full, until its oldest request leaves it.  With no
        request in the window and a limit of zero or less, the oldest
        request is looked up in an empty queue, which raises. */
    method Acquire(now: real, stamp: real) returns (r: Result<real>)
      modifies this
      ensures var kept := Prune(old(recent), now);
        if |kept| < requestsPerMinute then r == Ok(0.0) && recent == kept + [stamp]
        else if |kept| == 0 then r == Err(IndexError) && recent == kept
        else
          var wait := Window - (now - kept[0]);
          r == Ok(if wait > 0.0 then wait else 0.0) && recent == kept + [stamp]
    {
      while |recent| > 0 && now - recent[0] > Window
        invariant Prune(recent, now) == Prune(old(recent), now)
        decreases |recent|
      {
        recent := recent[1..];
      }
      r := Ok(0.0);
      if |recent| >= requestsPerMinute {
        if |recent| == 0 {
          return Err(IndexError);
        }
        var wait := Window - (now - recent[0]);
        if wait > 0.0 {
          r := Ok(wait);
        }
      }
      recent := recent + [stamp];
    }
  }

  /** The client's two limiters: 30 searches and 20 page fetches a minute. */
  class Client {
    const searchLimiter: RateLimiter
    const fetchLimiter: RateLimiter

    constructor ()
      ensures fresh(searchLimiter) && fresh(fetchLimiter) && searchLimiter != fetchLimiter
      ensures searchLimiter.requestsPerMinute == 30 && searchLimiter.recent == []
      ensures fetchLimiter.requestsPerMinute == 20 && fetchLimiter.recent == []
    {
      searchLimiter := new RateLimiter(30);
      fetchLimiter := new RateLimiter(20);
    }
  }
}
