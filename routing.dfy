/** Resolving the browser path to the name of the page to highlight in the
    layout (`_getCurrentPage` in src/pages/index.jsx). */
module Routing {
  import opened Text

  /** The keys of `PAGES`, in declaration order; the first is the fallback. */
  const PageNames: seq<string> := ["Dashboard", "Topics", "Chat", "Quizzes", "Progress"]

  /** `url.split('/').pop()`: the text after the last '/', or the whole text
      when it has none. */
  function LastSegment(url: string): (segment: string)
    ensures |segment| <= |url| && segment == url[|url| - |segment|..]
    ensures '/' !in segment
    ensures |segment| < |url| ==> url[|url| - |segment| - 1] == '/'
  {
    if url == [] || url[|url| - 1] == '/' then []
    else LastSegment(url[..|url| - 1]) + [url[|url| - 1]]
  }

  /** `part.split('?')[0]`: the text before the first '?'. */
  function BeforeQuery(part: string): (head: string)
    ensures |head| <= |part| && head == part[..|head|]
    ensures '?' !in head
    ensures |head| < |part| ==> part[|head|] == '?'
  {
    if part == [] || part[0] == '?' then [] else [part[0]] + BeforeQuery(part[1..])
  }

  /** The last path segment, after one trailing '/' is dropped, cut at '?'. */
  function LastPart(url: string): (part: string)
    ensures '/' !in part && '?' !in part
  {
    var trimmed := if EndsWith(url, "/") then url[..|url| - 1] else url;
    var last := LastSegment(trimmed);
    if '?' in last then BeforeQuery(last) else last
  }

  /** `Object.keys(PAGES).find(page => page.toLowerCase() === part.toLowerCase())`. */
  function FindPage(names: seq<string>, part: string): (found: Option<string>)
    ensures found.Some? ==> found.value in names && AsciiLower(found.value) == AsciiLower(part)
    ensures found.None? <==> forall i :: 0 <= i < |names| ==> AsciiLower(names[i]) != AsciiLower(part)
  {
    if names == [] then None
    else if AsciiLower(names[0]) == AsciiLower(part) then Some(names[0])
    else
      var rest := FindPage(names[1..], part);
      assert forall i :: 1 <= i < |names| ==> names[i] == names[1..][i - 1];
      rest
  }

  /** The page a path segment names, ignoring case, or "Dashboard". */
  function Resolve(part: string): (name: string)
    ensures name in PageNames
    ensures name == "Dashboard" || AsciiLower(name) == AsciiLower(part)
    ensures (forall i :: 0 <= i < |PageNames| ==> AsciiLower(PageNames[i]) != AsciiLower(part)) ==> name == "Dashboard"
  {
    var found := FindPage(PageNames, part);
    if found.Some? then found.value else PageNames[0]
  }

  /** `_getCurrentPage(url)`. */
  function CurrentPage(url: string): (name: string)
    ensures name in PageNames
  {
    Resolve(LastPart(url))
  }

  /** The page names have different lengths, so no two of them lower-case to
      the same text. */
  lemma NamesDistinctIgnoringCase()
    ensures forall i, j :: 0 <= i < j < |PageNames| ==> AsciiLower(PageNames[i]) != AsciiLower(PageNames[j])
  {
    assert forall i, j :: 0 <= i < j < |PageNames| ==> |PageNames[i]| != |PageNames[j]|;
  }

  /** A segment that is a page name in any letter case resolves to that page. */
  lemma ResolveNamesIgnoringCase(i: nat, part: string)
    requires i < |PageNames|
    requires AsciiLower(part) == AsciiLower(PageNames[i])
    ensures Resolve(part) == PageNames[i]
  {
    NamesDistinctIgnoringCase();
  }

  /** The search compares lower-cased texts only. */
  lemma {:induction false} FindPageIgnoresCase(names: seq<string>, part: string)
    ensures FindPage(names, AsciiLower(part)) == FindPage(names, part)
  {
    AsciiLowerIdempotent(part);
    if names != [] {
      FindPageIgnoresCase(names[1..], part);
    }
  }

  /** Changing the case of the segment does not change the page. */
  lemma ResolveIgnoresCase(part: string)
    ensures Resolve(AsciiLower(part)) == Resolve(part)
  {
    FindPageIgnoresCase(PageNames, part);
  }

  /** For a path ending in `/segment`, optionally followed by a query and
      one trailing '/', only the segment decides the page. */
  lemma {:induction false} LastSegmentOf(prefix: string, segment: string)
    requires '/' !in segment
    ensures LastSegment(prefix + "/" + segment) == segment
    decreases |segment|
  {
    var url := prefix + "/" + segment;
    if segment != [] {
      assert url[..|url| - 1] == prefix + "/" + segment[..|segment| - 1];
      LastSegmentOf(prefix, segment[..|segment| - 1]);
    }
  }

  lemma {:induction false} BeforeQueryOf(segment: string, query: string)
    requires '?' !in segment
    ensures BeforeQuery(segment + "?" + query) == segment
    decreases |segment|
  {
    if segment != [] {
      assert (segment + "?" + query)[1..] == segment[1..] + "?" + query;
      BeforeQueryOf(segment[1..], query);
    }
  }

  /** Dropping one trailing '/' leaves the body of the path. */
  lemma TrimmedBody(url: string, body: string, trailing: bool)
    requires body != [] && body[|body| - 1] != '/'
    requires url == body + (if trailing then "/" else "")
    ensures (if EndsWith(url, "/") then url[..|url| - 1] else url) == body
  {
    if trailing {
      assert url[..|url| - 1] == body;
    } else {
      assert url == body;
    }
  }

  /** The three steps of `LastPart`, one at a time. */
  lemma LastPartSteps(url: string, body: string, last: string, segment: string)
    requires (if EndsWith(url, "/") then url[..|url| - 1] else url) == body
    requires LastSegment(body) == last
    requires '?' in last && BeforeQuery(last) == segment
    ensures LastPart(url) == segment
  {
  }

  /** The path `prefix/segment` (the segment not empty), with or without one
      trailing '/', yields its segment. */
  lemma LastPartOfPath(prefix: string, segment: string, trailing: bool)
    requires segment != [] && '/' !in segment && '?' !in segment
    ensures LastPart(prefix + "/" + segment + (if trailing then "/" else "")) == segment
  {
    var body := prefix + "/" + segment;
    assert body[|body| - 1] == segment[|segment| - 1];
    TrimmedBody(body + (if trailing then "/" else ""), body, trailing);
    LastSegmentOf(prefix, segment);
  }

  /** A segment and a query, neither holding '/', joined by '?' hold no '/'. */
  lemma QueryPartHasNoSlash(segment: string, query: string)
    requires '/' !in segment && '/' !in query
    ensures '/' !in segment + "?" + query
  {
    var last := segment + "?" + query;
    forall k | 0 <= k < |last| ensures last[k] != '/' {
      if k < |segment| {
        assert last[k] == segment[k];
      } else if k > |segment| {
        assert last[k] == query[k - |segment| - 1];
      }
    }
  }

  /** The path `prefix/segment?query`, with or without one trailing '/',
      yields its segment. */
  lemma LastPartOfQuery(prefix: string, segment: string, query: string, trailing: bool)
    requires '/' !in segment && '?' !in segment && '/' !in query
    ensures LastPart(prefix + "/" + segment + "?" + query + (if trailing then "/" else "")) == segment
  {
    var last := segment + "?" + query;
    var body := prefix + "/" + last;
    assert prefix + "/" + segment + "?" + query == body;
    assert body[|body| - 1] != '/' by {
      assert body[|body| - 1] == last[|last| - 1];
      QueryPartHasNoSlash(segment, query);
    }
    TrimmedBody(body + (if trailing then "/" else ""), body, trailing);
    QueryPartHasNoSlash(segment, query);
    LastSegmentOf(prefix, last);
    assert last[|segment|] == '?';
    BeforeQueryOf(segment, query);
    LastPartSteps(body + (if trailing then "/" else ""), body, last, segment);
  }

  /** Only the last segment decides the page: the directories before it, a
      query after it and one trailing '/' play no part. */
  lemma PathResolvesAsSegment(prefix: string, segment: string, query: string, trailing: bool)
    requires segment != [] && '/' !in segment && '?' !in segment && '/' !in query
    ensures CurrentPage(prefix + "/" + segment + (if trailing then "/" else "")) == Resolve(segment)
    ensures CurrentPage(prefix + "/" + segment + "?" + query + (if trailing then "/" else "")) == Resolve(segment)
  {
    LastPartOfPath(prefix, segment, trailing);
    LastPartOfQuery(prefix, segment, query, trailing);
  }

  /** The root path, the empty path and an unknown page all give "Dashboard". */
  lemma FallbackIsDashboard(part: string)
    requires forall i :: 0 <= i < |PageNames| ==> AsciiLower(PageNames[i]) != AsciiLower(part)
    ensures Resolve(part) == "Dashboard"
    ensures CurrentPage("/") == "Dashboard" && CurrentPage("") == "Dashboard"
  {
    assert LastPart("/") == [] && LastPart("") == [];
  }
}
