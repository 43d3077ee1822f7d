/**
 * The crawl layer (app/scraper.py): how a URL becomes a cache file name, the
 * cache-hit decision of `crawl_page`, and the per-URL loop of
 * `crawl_detail_pages`. The browser crawl itself is a function supplied from
 * outside (`web`), consulted with the number of crawls made so far; the
 * cache directory is a map from file name to file content.
 */
module Scraper {
  import opened Common
  import opened Json
  import opened Models

  // ---------------------------------------------------------------------
  // Cache key suffix (app/scraper.py:21-23)
  // ---------------------------------------------------------------------

  const MaxSuffixLength := 30

  /** `str.isalnum`, on the ASCII range. */
  predicate IsAlnum(c: char)
  {
    IsAsciiLetter(c) || IsAsciiDigit(c)
  }

  /** A character a cache suffix may keep as it is. */
  predicate IsSafe(c: char)
  {
    IsAlnum(c) || c == '-' || c == '_'
  }

  function SafeChar(c: char): char
  {
    if IsSafe(c) then c else '_'
  }

  /**
   * `_safe_cache_suffix`: every character that is not alphanumeric, '-' or
   * '_' becomes '_', and the result is cut to its first 30 characters.
   */
  function SafeCacheSuffix(s: string): (r: string)
    ensures |r| == if |s| < MaxSuffixLength then |s| else MaxSuffixLength
    ensures forall i :: 0 <= i < |r| ==> IsSafe(r[i])
    ensures forall i :: 0 <= i < |r| ==> (r[i] == s[i] <==> IsSafe(s[i]))
    ensures forall i :: 0 <= i < |r| && !IsSafe(s[i]) ==> r[i] == '_'
  {
    var mapped := seq(|s|, i requires 0 <= i < |s| => SafeChar(s[i]));
    if |mapped| <= MaxSuffixLength then mapped else mapped[..MaxSuffixLength]
  }

  /** A suffix that is already safe and short enough is kept as it is. */
  lemma SafeCacheSuffixFixedPoint(s: string)
    requires |s| <= MaxSuffixLength && forall i :: 0 <= i < |s| ==> IsSafe(s[i])
    ensures SafeCacheSuffix(s) == s
  {
    var r := SafeCacheSuffix(s);
    assert |r| == |s|;
    forall i | 0 <= i < |s|
      ensures r[i] == s[i]
    {
      assert IsSafe(s[i]);
    }
  }

  /** Sanitising twice is sanitising once. */
  lemma SafeCacheSuffixIdempotent(s: string)
    ensures SafeCacheSuffix(SafeCacheSuffix(s)) == SafeCacheSuffix(s)
  {
    SafeCacheSuffixFixedPoint(SafeCacheSuffix(s));
  }

  // ---------------------------------------------------------------------
  // URL to file name (app/scraper.py:145-153)
  // ---------------------------------------------------------------------

  const MaxFileNameLength := 120

  /** Python's `str.replace(pat, rep)`: leftmost, non-overlapping occurrences, scanning on after each one. */
  function ReplaceAll(s: string, pat: string, rep: string): string
    requires pat != []
    decreases |s|
  {
    if |s| < |pat| then s
    else if s[..|pat|] == pat then rep + ReplaceAll(s[|pat|..], pat, rep)
    else [s[0]] + ReplaceAll(s[1..], pat, rep)
  }

  /** Text without an occurrence of `pat` is left alone. */
  lemma {:induction false} ReplaceAllAbsent(s: string, pat: string, rep: string)
    requires pat != [] && !Contains(s, pat)
    ensures ReplaceAll(s, pat, rep) == s
    decreases |s|
  {
    if |s| >= |pat| {
      assert s[..|pat|] != pat by {
        assert !OccursAt(s, pat, 0);
        assert s[0..|pat|] == s[..|pat|];
      }
      assert !Contains(s[1..], pat) by {
        forall i | 0 <= i <= |s| - 1 - |pat|
          ensures !OccursAt(s[1..], pat, i)
        {
          OccursShift(s, pat, i + 1);
        }
      }
      ReplaceAllAbsent(s[1..], pat, rep);
      assert [s[0]] + s[1..] == s;
    }
  }

  /** Skipping a prefix in which no occurrence of `pat` starts. */
  lemma {:induction false} ReplaceAllSkip(p: string, t: string, pat: string, rep: string)
    requires pat != []
    requires forall i :: 0 <= i < |p| ==> !OccursAt(p + t, pat, i)
    ensures ReplaceAll(p + t, pat, rep) == p + ReplaceAll(t, pat, rep)
    decreases |p|
  {
    if p == [] {
      assert p + t == t;
    } else {
      var s := p + t;
      var tail := p[1..] + t;
      assert s[1..] == tail;
      forall i | 0 <= i < |p| - 1
        ensures !OccursAt(tail, pat, i)
      {
        OccursShift(s, pat, i + 1);
      }
      ReplaceAllSkip(p[1..], t, pat, rep);
      if |s| < |pat| {
        assert ReplaceAll(s, pat, rep) == s;
        assert ReplaceAll(t, pat, rep) == t;
      } else {
        assert !OccursAt(s, pat, 0);
        assert s[..|pat|] != pat;
        assert ReplaceAll(s, pat, rep) == [s[0]] + ReplaceAll(tail, pat, rep);
        assert [s[0]] + (p[1..] + ReplaceAll(t, pat, rep)) == p + ReplaceAll(t, pat, rep);
      }
    }
  }

  /** Replacing one character by another is a character-by-character map. */
  lemma {:induction false} ReplaceCharPointwise(s: string, c: char, d: char)
    ensures |ReplaceAll(s, [c], [d])| == |s|
    ensures forall i :: 0 <= i < |s| ==> ReplaceAll(s, [c], [d])[i] == if s[i] == c then d else s[i]
    decreases |s|
  {
    if s != [] {
      ReplaceCharPointwise(s[1..], c, d);
      var head := if s[0] == c then d else s[0];
      assert s[..1] == [c] <==> s[0] == c;
      assert ReplaceAll(s, [c], [d]) == [head] + ReplaceAll(s[1..], [c], [d]);
    }
  }

  /** The three character replacements of `_url_to_filename`. */
  function FlattenPath(s: string): (r: string)
    ensures |r| == |s|
    ensures forall i :: 0 <= i < |s| ==> r[i] == if s[i] in "/?&" then '_' else s[i]
  {
    var a := ReplaceAll(s, "/", "_");
    ReplaceCharPointwise(s, '/', '_');
    var b := ReplaceAll(a, "?", "_");
    ReplaceCharPointwise(a, '?', '_');
    var c := ReplaceAll(b, "&", "_");
    ReplaceCharPointwise(b, '&', '_');
    c
  }

  /** The URL without its scheme markers. */
  function DropSchemes(url: string): string
  {
    ReplaceAll(ReplaceAll(url, "https://", ""), "http://", "")
  }

  /**
   * `_url_to_filename`: the scheme markers are removed, '/', '?' and '&'
   * become '_', and the result is cut to 120 characters.
   */
  function UrlToFilename(url: string): (r: string)
    ensures |r| <= MaxFileNameLength
    ensures forall i :: 0 <= i < |r| ==> r[i] != '/' && r[i] != '?' && r[i] != '&'
  {
    var flat := FlattenPath(DropSchemes(url));
    if |flat| <= MaxFileNameLength then flat else flat[..MaxFileNameLength]
  }

  /** A URL and the same URL behind either scheme share one cache file. */
  lemma SchemeDoesNotMatter(rest: string)
    ensures UrlToFilename("https://" + rest) == UrlToFilename(rest)
    ensures UrlToFilename("http://" + rest) == UrlToFilename(rest)
  {
    var x := ReplaceAll(rest, "https://", "");
    var secure := "https://" + rest;
    assert secure[..8] == "https://" && secure[8..] == rest;
    assert ReplaceAll(secure, "https://", "") == x;
    var plain := "http://" + rest;
    assert forall i :: 0 <= i < 7 ==> plain[i] == "http://"[i];
    forall i | 0 <= i < 7
      ensures !OccursAt(plain, "https://", i)
    {
      if i + 8 <= |plain| {
        assert plain[i..i + 8][0] == plain[i] && plain[i..i + 8][4] == plain[i + 4];
      }
    }
    ReplaceAllSkip("http://", rest, "https://", "");
    var px := "http://" + x;
    assert px[..7] == "http://" && px[7..] == x;
    assert ReplaceAll(px, "http://", "") == ReplaceAll(x, "http://", "");
  }

  /** A URL with no scheme, no '/', '?' or '&', and at most 120 characters is its own file name. */
  lemma PlainUrlIsItsFileName(url: string)
    requires |url| <= MaxFileNameLength
    requires forall i :: 0 <= i < |url| ==> url[i] != '/' && url[i] != '?' && url[i] != '&'
    ensures UrlToFilename(url) == url
  {
    forall pat: string, i | |pat| > 6 && pat[6] == '/' && 0 <= i <= |url| - |pat|
      ensures !OccursAt(url, pat, i)
    {
      assert url[i..i + |pat|][6] == url[i + 6];
    }
    assert "https://"[6] == '/' && "http://"[6] == '/';
    ReplaceAllAbsent(url, "https://", "");
    ReplaceAllAbsent(url, "http://", "");
  }

  // ---------------------------------------------------------------------
  // Cache file naming (app/scraper.py:52-57)
  // ---------------------------------------------------------------------

  /** `if json_css_schema:`: a schema counts when it is given and is truthy (an empty dict does not count). */
  predicate SchemaGiven(schema: Option<JValue>)
  {
    schema.Some? && Truthy(schema.value)
  }

  function Extension(schema: Option<JValue>): string
  {
    if SchemaGiven(schema) then ".json" else ".md"
  }

  /**
   * The cache file of a crawl: the URL's file name, then "_" and the
   * sanitised suffix when the suffix is a non-empty string, then ".json" when
   * a schema is given and ".md" otherwise.
   */
  function CacheFileName(url: string, suffix: Option<string>, schema: Option<JValue>): string
  {
    var base := UrlToFilename(url);
    (if IsTruthyText(suffix) then base + "_" + SafeCacheSuffix(suffix.value) else base) + Extension(schema)
  }

  /** Whatever the name, the extension tells the two kinds of cache file apart. */
  lemma ExtensionShape(named: string, schema: Option<JValue>)
    ensures EndsWith(named + Extension(schema), ".json") <==> SchemaGiven(schema)
    ensures EndsWith(named + Extension(schema), ".md") <==> !SchemaGiven(schema)
    ensures StartsWith(named + Extension(schema), named)
  {
    var r := named + Extension(schema);
    assert r[..|named|] == named;
    if SchemaGiven(schema) {
      assert r[|r| - 5..] == ".json";
      assert r[|r| - 1] == 'n';
    } else {
      assert r[|r| - 3..] == ".md";
      assert r[|r| - 1] == 'd';
    }
  }

  /**
   * The cache file name starts with the URL's file name, carries "_" and the
   * sanitised suffix only when the suffix is a non-empty string, and ends in
   * ".json" exactly when a schema is given, in ".md" otherwise.
   */
  lemma CacheFileNameShape(url: string, suffix: Option<string>, schema: Option<JValue>)
    ensures var r := CacheFileName(url, suffix, schema);
            (EndsWith(r, ".json") <==> SchemaGiven(schema)) &&
            (EndsWith(r, ".md") <==> !SchemaGiven(schema)) &&
            StartsWith(r, UrlToFilename(url)) &&
            (IsTruthyText(suffix) ==> StartsWith(r, UrlToFilename(url) + "_" + SafeCacheSuffix(suffix.value))) &&
            (!IsTruthyText(suffix) ==> r == UrlToFilename(url) + Extension(schema))
  {
    var base := UrlToFilename(url);
    var named := if IsTruthyText(suffix) then base + "_" + SafeCacheSuffix(suffix.value) else base;
    ExtensionShape(named, schema);
    var r := named + Extension(schema);
    assert r[..|base|] == base;
  }

  /** Two suffixes that sanitise differently never share a cache file. */
  lemma CacheNamesSeparateSuffixes(url: string, a: string, b: string, schema: Option<JValue>)
    requires a != [] && b != []
    requires SafeCacheSuffix(a) != SafeCacheSuffix(b)
    ensures CacheFileName(url, Some(a), schema) != CacheFileName(url, Some(b), schema)
  {
    var base := UrlToFilename(url) + "_";
    var na := CacheFileName(url, Some(a), schema);
    var nb := CacheFileName(url, Some(b), schema);
    var sa := SafeCacheSuffix(a);
    var sb := SafeCacheSuffix(b);
    assert na == base + sa + Extension(schema);
    assert nb == base + sb + Extension(schema);
    var ext := Extension(schema);
    assert na[|base|..|na| - |ext|] == sa;
    assert nb[|base|..|nb| - |ext|] == sb;
  }

  // ---------------------------------------------------------------------
  // Crawling through the cache (app/scraper.py:26-142)
  // ---------------------------------------------------------------------

  /** What one browser crawl reports: success, the extracted JSON text (schema mode) and the raw markdown. */
  datatype CrawlResult = CrawlResult(success: bool, errorMessage: string, extractedContent: Option<string>, markdown: string)

  /** One browser crawl as requested: the URL, the CSS selector and the JSON-CSS schema. */
  datatype Fetch = Fetch(url: string, cssSelector: Option<string>, schema: Option<JValue>)

  /** The text a successful crawl yields: the extracted JSON, or "[]" when there is none, in schema mode; the markdown otherwise. */
  function PageContent(page: CrawlResult, schema: Option<JValue>): string
  {
    if SchemaGiven(schema) then
      (if IsTruthyText(page.extractedContent) then page.extractedContent.value else "[]")
    else page.markdown
  }

  /** The outcome of one `crawl_page` call and the cache and crawl log after it. */
  datatype Visit = Visit(content: Result<string>, files: map<string, string>, fetches: seq<Fetch>)

  /**
   * `crawl_page` on a cache `files` after the crawls `fetches`: a cache hit
   * returns the file when caching is on; otherwise the page is crawled, a
   * failure raises RuntimeError, and a success is written to the cache file.
   */
  function VisitPage(web: (nat, Fetch) -> CrawlResult, files: map<string, string>, fetches: seq<Fetch>,
                     name: string, fetch: Fetch, useCache: bool): (v: Visit)
    ensures useCache && name in files ==> v == Visit(Ok(files[name]), files, fetches)
    ensures !(useCache && name in files) ==> v.fetches == fetches + [fetch]
    ensures v.content.Ok? ==> name in v.files && v.files[name] == v.content.value
    ensures v.content.Err? ==> v.content.error.RuntimeError? && v.files == files
  {
    if useCache && name in files then Visit(Ok(files[name]), files, fetches)
    else
      var page := web(|fetches|, fetch);
      if !page.success then
        Visit(Err(RuntimeError("Crawl failed for " + fetch.url + ": " + page.errorMessage)), files, fetches + [fetch])
      else
        var content := PageContent(page, fetch.schema);
        Visit(Ok(content), files[name := content], fetches + [fetch])
  }

  /** The outcome of crawling a list of pages and the cache and crawl log after it. */
  datatype Visits = Visits(contents: Result<seq<string>>, files: map<string, string>, fetches: seq<Fetch>)

  /** One page to crawl through the cache: its cache file and the browser request. */
  datatype Request = Request(name: string, fetch: Fetch)

  /** The requests `crawl_detail_pages` makes: one per URL, in order, with no cache suffix. */
  function DetailRequests(urls: seq<string>, css: Option<string>, schema: Option<JValue>): (r: seq<Request>)
    ensures |r| == |urls|
    ensures forall i :: 0 <= i < |urls| ==> r[i].fetch == Fetch(urls[i], css, schema)
    ensures forall i :: 0 <= i < |urls| ==> r[i].name == CacheFileName(urls[i], None, schema)
  {
    seq(|urls|, i requires 0 <= i < |urls| => Request(CacheFileName(urls[i], None, schema), Fetch(urls[i], css, schema)))
  }

  /** `crawl_page` on each request in turn; the first failure propagates. */
  function VisitAll(web: (nat, Fetch) -> CrawlResult, files: map<string, string>, fetches: seq<Fetch>,
                    reqs: seq<Request>, useCache: bool): Visits
    decreases |reqs|
  {
    if reqs == [] then Visits(Ok([]), files, fetches)
    else
      var v := VisitPage(web, files, fetches, reqs[0].name, reqs[0].fetch, useCache);
      if v.content.Err? then Visits(Err(v.content.error), v.files, v.fetches)
      else
        var rest := VisitAll(web, v.files, v.fetches, reqs[1..], useCache);
        Visits(Prepend([v.content.value], rest.contents), rest.files, rest.fetches)
  }

  function Prepend(done: seq<string>, r: Result<seq<string>>): Result<seq<string>>
  {
    if r.Err? then r else Ok(done + r.value)
  }

  /** The contents `done` already gathered, followed by a run over the remaining requests. */
  function After(done: seq<string>, rest: Visits): Visits
  {
    Visits(Prepend(done, rest.contents), rest.files, rest.fetches)
  }

  /** One step of the run: the first request is visited, then the rest follow. */
  lemma VisitAllStep(web: (nat, Fetch) -> CrawlResult, files: map<string, string>, fetches: seq<Fetch>,
                     reqs: seq<Request>, useCache: bool, done: seq<string>)
    requires reqs != []
    ensures var v := VisitPage(web, files, fetches, reqs[0].name, reqs[0].fetch, useCache);
            After(done, VisitAll(web, files, fetches, reqs, useCache)) ==
              if v.content.Err? then Visits(Err(v.content.error), v.files, v.fetches)
              else After(done + [v.content.value], VisitAll(web, v.files, v.fetches, reqs[1..], useCache))
  {
    var v := VisitPage(web, files, fetches, reqs[0].name, reqs[0].fetch, useCache);
    if v.content.Ok? {
      var rest := VisitAll(web, v.files, v.fetches, reqs[1..], useCache);
      if rest.contents.Ok? {
        assert done + ([v.content.value] + rest.contents.value) == done + [v.content.value] + rest.contents.value;
      }
    }
  }

  /** One content per request: a successful run returns exactly as many contents as it was given requests. */
  lemma {:induction false} VisitAllOnePerUrl(web: (nat, Fetch) -> CrawlResult, files: map<string, string>,
                                             fetches: seq<Fetch>, reqs: seq<Request>, useCache: bool)
    ensures var r := VisitAll(web, files, fetches, reqs, useCache);
            r.contents.Ok? ==> |r.contents.value| == |reqs|
    decreases |reqs|
  {
    if reqs != [] {
      var v := VisitPage(web, files, fetches, reqs[0].name, reqs[0].fetch, useCache);
      if v.content.Ok? {
        VisitAllOnePerUrl(web, v.files, v.fetches, reqs[1..], useCache);
      }
    }
  }

  /**
   * With caching on and every page already cached, nothing is crawled and
   * the i-th content is the cache file of the i-th request.
   */
  lemma {:induction false} VisitAllFromCache(web: (nat, Fetch) -> CrawlResult, files: map<string, string>,
                                             fetches: seq<Fetch>, reqs: seq<Request>)
    requires forall i :: 0 <= i < |reqs| ==> reqs[i].name in files
    ensures var r := VisitAll(web, files, fetches, reqs, true);
            r.files == files && r.fetches == fetches && r.contents.Ok? && |r.contents.value| == |reqs| &&
            forall i :: 0 <= i < |reqs| ==> r.contents.value[i] == files[reqs[i].name]
    decreases |reqs|
  {
    if reqs != [] {
      var rest := reqs[1..];
      assert forall i :: 0 <= i < |rest| ==> rest[i] == reqs[i + 1];
      VisitAllFromCache(web, files, fetches, rest);
    }
  }

  /** With caching off, every request is crawled, in input order. */
  lemma {:induction false} VisitAllCrawlsEach(web: (nat, Fetch) -> CrawlResult, files: map<string, string>,
                                              fetches: seq<Fetch>, reqs: seq<Request>)
    ensures var r := VisitAll(web, files, fetches, reqs, false);
            r.contents.Ok? ==>
              |r.fetches| == |fetches| + |reqs| && r.fetches[..|fetches|] == fetches &&
              forall i :: 0 <= i < |reqs| ==> r.fetches[|fetches| + i] == reqs[i].fetch
    decreases |reqs|
  {
    if reqs != [] {
      var v := VisitPage(web, files, fetches, reqs[0].name, reqs[0].fetch, false);
      if v.content.Ok? {
        var rest := reqs[1..];
        VisitAllCrawlsEach(web, v.files, v.fetches, rest);
        var r := VisitAll(web, v.files, v.fetches, rest, false);
        if r.contents.Ok? {
          assert r.fetches[..|fetches|] == v.fetches[..|fetches|];
          forall i | 0 <= i < |reqs|
            ensures r.fetches[|fetches| + i] == reqs[i].fetch
          {
            if i == 0 {
              assert r.fetches[|fetches|] == v.fetches[|fetches|];
            } else {
              assert rest[i - 1] == reqs[i];
            }
          }
        }
      }
    }
  }

  /** With caching on, what was cached before stays cached, unchanged. */
  lemma {:induction false} VisitAllKeepsCache(web: (nat, Fetch) -> CrawlResult, files: map<string, string>,
                                              fetches: seq<Fetch>, reqs: seq<Request>)
    ensures var r := VisitAll(web, files, fetches, reqs, true);
            forall name :: name in files ==> name in r.files && r.files[name] == files[name]
    decreases |reqs|
  {
    if reqs != [] {
      var v := VisitPage(web, files, fetches, reqs[0].name, reqs[0].fetch, true);
      if v.content.Ok? {
        VisitAllKeepsCache(web, v.files, v.fetches, reqs[1..]);
      }
    }
  }

  /**
   * With caching on, a successful run leaves each request's cache file
   * holding exactly the content returned for it.
   */
  lemma {:induction false} VisitAllCacheAgrees(web: (nat, Fetch) -> CrawlResult, files: map<string, string>,
                                               fetches: seq<Fetch>, reqs: seq<Request>)
    ensures var r := VisitAll(web, files, fetches, reqs, true);
            r.contents.Ok? ==>
              |r.contents.value| == |reqs| &&
              forall i :: 0 <= i < |reqs| ==> reqs[i].name in r.files && r.files[reqs[i].name] == r.contents.value[i]
    decreases |reqs|
  {
    if reqs != [] {
      var v := VisitPage(web, files, fetches, reqs[0].name, reqs[0].fetch, true);
      if v.content.Ok? {
        var rest := reqs[1..];
        VisitAllCacheAgrees(web, v.files, v.fetches, rest);
        VisitAllKeepsCache(web, v.files, v.fetches, rest);
        var r := VisitAll(web, v.files, v.fetches, rest, true);
        if r.contents.Ok? {
          var all := [v.content.value] + r.contents.value;
          forall i | 0 <= i < |reqs|
            ensures reqs[i].name in r.files && r.files[reqs[i].name] == all[i]
          {
            if i > 0 {
              assert rest[i - 1] == reqs[i];
            }
          }
        }
      }
    }
  }

  /**
   * The crawl cache directory and the browser: `files` maps cache file names
   * to their content, `fetches` logs every browser crawl made, and `web`
   * answers the n-th crawl.
   */
  class Crawler {
    const web: (nat, Fetch) -> CrawlResult
    var files: map<string, string>
    var fetches: seq<Fetch>

    constructor(web: (nat, Fetch) -> CrawlResult, files: map<string, string>)
      ensures this.web == web && this.files == files && fetches == []
    {
      this.web := web;
      this.files := files;
      fetches := [];
    }

    /** `crawl_page`: the cache file is named after the URL, the suffix and the schema, then the page is visited. */
    method CrawlPage(url: string, useCache: bool, suffix: Option<string>, css: Option<string>,
                     schema: Option<JValue>) returns (r: Result<string>)
      modifies this
      ensures var v := VisitPage(web, old(files), old(fetches), CacheFileName(url, suffix, schema), Fetch(url, css, schema), useCache);
              r == v.content && files == v.files && fetches == v.fetches
    {
      r := CrawlRequest(Request(CacheFileName(url, suffix, schema), Fetch(url, css, schema)), useCache);
    }

    /** The cache-hit decision and the crawl of `crawl_page`, once the cache file is named. */
    method CrawlRequest(req: Request, useCache: bool) returns (r: Result<string>)
      modifies this
      ensures var v := VisitPage(web, old(files), old(fetches), req.name, req.fetch, useCache);
              r == v.content && files == v.files && fetches == v.fetches
    {
      if useCache && req.name in files {
        return Ok(files[req.name]);
      }
      var page := web(|fetches|, req.fetch);
      fetches := fetches + [req.fetch];
      if !page.success {
        return Err(RuntimeError("Crawl failed for " + req.fetch.url + ": " + page.errorMessage));
      }
      var content := PageContent(page, req.fetch.schema);
      files := files[req.name := content];
      return Ok(content);
    }

    /**
     * `crawl_schedule`: `crawl_page` on the schedule URL. A call that passes
     * keyword arguments the signature does not declare (`unexpected`) raises
     * TypeError before anything is crawled.
     */
    method CrawlSchedule(venueName: string, scheduleUrl: string, useCache: bool, suffix: Option<string>,
                         css: Option<string>, schema: Option<JValue>, unexpected: seq<string>)
      returns (r: Result<string>)
      modifies this
      ensures unexpected != [] ==> r.Err? && r.error.TypeError? && files == old(files) && fetches == old(fetches)
      ensures unexpected == [] ==>
                var v := VisitPage(web, old(files), old(fetches), CacheFileName(scheduleUrl, suffix, schema),
                                   Fetch(scheduleUrl, css, schema), useCache);
                r == v.content && files == v.files && fetches == v.fetches
    {
      if unexpected != [] {
        return Err(UnexpectedKeyword("crawl_schedule", unexpected[0]));
      }
      r := CrawlPage(scheduleUrl, useCache, suffix, css, schema);
    }

    /** `crawl_detail_pages`: the pages in input order, without a cache suffix, stopping at the first failure. */
    method CrawlDetailPages(venueName: string, urls: seq<string>, useCache: bool, css: Option<string>,
                            schema: Option<JValue>, unexpected: seq<string>)
      returns (r: Result<seq<string>>)
      modifies this
      ensures unexpected != [] ==> r.Err? && r.error.TypeError? && files == old(files) && fetches == old(fetches)
      ensures unexpected == [] ==>
                var all := VisitAll(web, old(files), old(fetches), DetailRequests(urls, css, schema), useCache);
                r == all.contents && files == all.files && fetches == all.fetches
    {
      if unexpected != [] {
        return Err(UnexpectedKeyword("crawl_detail_pages", unexpected[0]));
      }
      r := CrawlAll(DetailRequests(urls, css, schema), useCache);
    }

    /** The loop of `crawl_detail_pages`: each request in turn, appending its content, until one fails. */
    method CrawlAll(reqs: seq<Request>, useCache: bool) returns (r: Result<seq<string>>)
      modifies this
      ensures var all := VisitAll(web, old(files), old(fetches), reqs, useCache);
              r == all.contents && files == all.files && fetches == all.fetches
    {
      ghost var whole := VisitAll(web, files, fetches, reqs, useCache);
      var results: seq<string> := [];
      var i := 0;
      assert reqs[i..] == reqs;
      assert whole.contents.Ok? ==> results + whole.contents.value == whole.contents.value;
      while i < |reqs|
        invariant 0 <= i <= |reqs|
        invariant After(results, VisitAll(web, files, fetches, reqs[i..], useCache)) == whole
      {
        assert reqs[i..][1..] == reqs[i + 1..];
        VisitAllStep(web, files, fetches, reqs[i..], useCache, results);
        var content := CrawlRequest(reqs[i], useCache);
        if content.Err? {
          return Err(content.error);
        }
        results := results + [content.value];
        i := i + 1;
      }
      assert reqs[i..] == [];
      assert results + [] == results;
      assert After(results, VisitAll(web, files, fetches, [], useCache)) == Visits(Ok(results), files, fetches);
      return Ok(results);
    }
  }

  /** Python's message for a keyword argument a function does not take. */
  function UnexpectedKeyword(function_name: string, keyword: string): (e: Error)
    ensures e.TypeError?
  {
    TypeError(function_name + "() got an unexpected keyword argument '" + keyword + "'")
  }
}
