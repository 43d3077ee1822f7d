/**
 * The link and page helpers of the link-gathering strategy
 * (app/pipeline.py:164-189, 273-291, 314-319): event links read straight
 * from a JSON extraction, links read from markdown link syntax, and the two
 * ways the crawled detail pages are combined into one document (a JSON merge
 * or labelled text).
 */
module Links {
  import opened Common
  import opened Json

  // ---------------------------------------------------------------------
  // Links from a JSON extraction (app/pipeline.py:164-189)
  // ---------------------------------------------------------------------

  /** The keys an item is searched for a link under, in order. */
  const LinkKeys: seq<string> := ["url", "href", "link", "detail_url"]

  /** A value accepted as a link: a string that starts with "http". */
  predicate IsHttpText(v: JValue)
  {
    v.JStr? && StartsWith(v.s, "http")
  }

  /** The link under the first of `keys` whose value is an http string. */
  function FirstLink(fields: map<string, JValue>, keys: seq<string>): (r: Option<string>)
    ensures r.Some? ==> StartsWith(r.value, "http")
    ensures r.Some? ==> exists i :: 0 <= i < |keys| && keys[i] in fields && fields[keys[i]] == JStr(r.value)
  {
    if keys == [] then None
    else if keys[0] in fields && IsHttpText(fields[keys[0]]) then Some(fields[keys[0]].s)
    else
      var r := FirstLink(fields, keys[1..]);
      if r.Some? then
        ghost var i :| 0 <= i < |keys[1..]| && keys[1..][i] in fields && fields[keys[1..][i]] == JStr(r.value);
        assert keys[i + 1] == keys[1..][i];
        r
      else r
  }

  /** The link an item contributes: none unless it is a dict. */
  function LinkOfItem(item: JValue): Option<string>
  {
    if item.JObj? then FirstLink(item.fields, LinkKeys) else None
  }

  /** The links of a list of items, in item order, at most one per item. */
  function LinksOfItems(items: seq<JValue>): (r: seq<string>)
    ensures |r| <= |items|
    ensures forall i :: 0 <= i < |r| ==> StartsWith(r[i], "http")
  {
    if items == [] then []
    else
      var last := LinkOfItem(items[|items| - 1]);
      LinksOfItems(items[..|items| - 1]) + (if last.Some? then [last.value] else [])
  }

  /** What `_parse_links_from_json` returns: no links for bad JSON, and a non-list is one item. */
  function JsonLinks(codec: JsonCodec, content: string): seq<string>
  {
    match codec.parse(content)
    case None => []
    case Some(v) => LinksOfItems(if v.JArr? then v.items else [v])
  }

  /** A key is chosen exactly when it is the first of the keys that holds an http string. */
  lemma {:induction false} FirstLinkIsFirstKey(fields: map<string, JValue>, keys: seq<string>, i: nat)
    requires i < |keys| && keys[i] in fields && IsHttpText(fields[keys[i]])
    requires forall j :: 0 <= j < i ==> !(keys[j] in fields && IsHttpText(fields[keys[j]]))
    ensures FirstLink(fields, keys) == Some(fields[keys[i]].s)
  {
    if i > 0 {
      assert !(keys[0] in fields && IsHttpText(fields[keys[0]]));
      assert keys[1..][i - 1] == keys[i];
      forall j | 0 <= j < i - 1
        ensures !(keys[1..][j] in fields && IsHttpText(fields[keys[1..][j]]))
      {
        assert keys[1..][j] == keys[j + 1];
      }
      FirstLinkIsFirstKey(fields, keys[1..], i - 1);
    }
  }

  /** An item with no http string under any of the keys contributes nothing. */
  lemma {:induction false} FirstLinkNone(fields: map<string, JValue>, keys: seq<string>)
    requires forall j :: 0 <= j < |keys| ==> !(keys[j] in fields && IsHttpText(fields[keys[j]]))
    ensures FirstLink(fields, keys) == None
  {
    if keys != [] {
      forall j | 0 <= j < |keys[1..]|
        ensures !(keys[1..][j] in fields && IsHttpText(fields[keys[1..][j]]))
      {
        assert keys[1..][j] == keys[j + 1];
      }
      FirstLinkNone(fields, keys[1..]);
    }
  }

  /** The links of a concatenation are the links of each part, in order. */
  lemma {:induction false} LinksOfItemsAppend(a: seq<JValue>, b: seq<JValue>)
    ensures LinksOfItems(a + b) == LinksOfItems(a) + LinksOfItems(b)
    decreases |b|
  {
    if b == [] {
      assert a + b == a;
    } else {
      var ab := a + b;
      assert ab[..|ab| - 1] == a + b[..|b| - 1];
      assert ab[|ab| - 1] == b[|b| - 1];
      LinksOfItemsAppend(a, b[..|b| - 1]);
    }
  }

  /** Each item contributes its own link or nothing: an item that is not a dict contributes nothing. */
  lemma LinksOfOneItem(item: JValue)
    ensures LinksOfItems([item]) == (if LinkOfItem(item).Some? then [LinkOfItem(item).value] else [])
    ensures !item.JObj? ==> LinksOfItems([item]) == []
  {
    assert [item][..0] == [];
  }

  /** Unparsable content has no links, and a top-level value that is not a list counts as one item. */
  lemma JsonLinksShapes(codec: JsonCodec, content: string)
    ensures codec.parse(content).None? ==> JsonLinks(codec, content) == []
    ensures codec.parse(content).Some? && !codec.parse(content).value.JArr? ==>
              JsonLinks(codec, content) == LinksOfItems([codec.parse(content).value])
    ensures |JsonLinks(codec, content)| <= (match codec.parse(content) case None => 0
                                            case Some(v) => if v.JArr? then |v.items| else 1)
  {
  }

  /** `_parse_links_from_json`: the items one by one, each searched key by key until a link is found. */
  method ParseLinksFromJson(codec: JsonCodec, content: string) returns (urls: seq<string>)
    ensures urls == JsonLinks(codec, content)
  {
    var parsed := codec.parse(content);
    if parsed.None? {
      return [];
    }
    var items := if parsed.value.JArr? then parsed.value.items else [parsed.value];
    urls := [];
    var i := 0;
    while i < |items|
      invariant 0 <= i <= |items|
      invariant urls == LinksOfItems(items[..i])
    {
      assert items[..i + 1][..i] == items[..i];
      var link: Option<string> := None;
      if items[i].JObj? {
        link := ItemLink(items[i].fields);
      }
      if link.Some? {
        urls := urls + [link.value];
      }
      i := i + 1;
    }
    assert items[..i] == items;
  }

  /** The keys of one dict tried in order; the first holding an http string gives the link. */
  method ItemLink(fields: map<string, JValue>) returns (link: Option<string>)
    ensures link == FirstLink(fields, LinkKeys)
  {
    var k := 0;
    while k < |LinkKeys|
      invariant 0 <= k <= |LinkKeys|
      invariant FirstLink(fields, LinkKeys) == FirstLink(fields, LinkKeys[k..])
    {
      var key := LinkKeys[k];
      if key in fields && IsHttpText(fields[key]) {
        return Some(fields[key].s);
      }
      assert LinkKeys[k..][1..] == LinkKeys[k + 1..];
      k := k + 1;
    }
    return None;
  }

  // ---------------------------------------------------------------------
  // Links from markdown (app/pipeline.py:314-319)
  // ---------------------------------------------------------------------

  /** A character of the URL body `[^\s)]`. */
  predicate InUrl(c: char)
  {
    !IsSpace(c) && c != ')'
  }

  /** The end of the longest run of URL characters starting at `k`. */
  function UrlEnd(s: string, k: nat): (e: nat)
    requires k <= |s|
    ensures k <= e <= |s|
    ensures forall i :: k <= i < e ==> InUrl(s[i])
    ensures e < |s| ==> !InUrl(s[e])
    decreases |s| - k
  {
    if k == |s| || !InUrl(s[k]) then k else UrlEnd(s, k + 1)
  }

  /** The length of `https?://` at `k`, or 0 when neither scheme is there. */
  function SchemeLength(s: string, k: nat): (n: nat)
    ensures n == 0 || n == 7 || n == 8
    ensures n == 8 ==> OccursAt(s, "https://", k)
    ensures n == 7 ==> OccursAt(s, "http://", k)
  {
    if OccursAt(s, "https://", k) then 8 else if OccursAt(s, "http://", k) then 7 else 0
  }

  /** One match of the link pattern: the captured URL and where scanning resumes. */
  datatype Found = Found(url: string, next: nat)

  /** `\((https?://[^\s)]+)\)` at `k`: the URL runs to the first space or ')' and must close with ')'. */
  function TargetAt(s: string, k: nat): (r: Option<Found>)
    ensures r.Some? ==> k < r.value.next <= |s|
  {
    if k >= |s| || s[k] != '(' then None
    else
      var n := SchemeLength(s, k + 1);
      if n == 0 then None
      else
        var e := UrlEnd(s, k + 1 + n);
        if e == k + 1 + n || e == |s| || s[e] != ')' then None
        else Some(Found(s[k + 1..e], e + 1))
  }

  /**
   * `.*?\]` followed by a target, from `j` on: the shortest run of characters
   * other than a newline that ends just before a ']' with a target after it.
   */
  function CloseFrom(s: string, j: nat): (r: Option<Found>)
    ensures r.Some? ==> j < r.value.next <= |s|
    decreases |s| - j
  {
    if j >= |s| || s[j] == '\n' then None
    else if s[j] == ']' && TargetAt(s, j + 1).Some? then TargetAt(s, j + 1)
    else CloseFrom(s, j + 1)
  }

  /** A match of `\[.*?\]\((https?://[^\s)]+)\)` starting at `i`. */
  function MatchAt(s: string, i: nat): (r: Option<Found>)
    requires i < |s|
    ensures r.Some? ==> i < r.value.next <= |s|
  {
    if s[i] == '[' then CloseFrom(s, i + 1) else None
  }

  /** `findall` from index `i`: leftmost matches that do not overlap, each giving its URL. */
  function UrlsFrom(s: string, i: nat): seq<string>
    decreases |s| - i
  {
    if i >= |s| then []
    else
      var m := MatchAt(s, i);
      if m.Some? then [m.value.url] + UrlsFrom(s, m.value.next) else UrlsFrom(s, i + 1)
  }

  /** `_extract_urls_from_markdown`. */
  function MarkdownUrls(markdown: string): seq<string>
  {
    UrlsFrom(markdown, 0)
  }

  /** A URL the pattern can capture: a scheme, then at least one character that is neither a space nor ')'. */
  predicate IsCapturable(url: string)
  {
    ((StartsWith(url, "https://") && |url| > 8) || (StartsWith(url, "http://") && |url| > 7)) &&
    forall i :: 0 <= i < |url| ==> InUrl(url[i])
  }

  lemma TargetShape(s: string, k: nat)
    requires TargetAt(s, k).Some?
    ensures IsCapturable(TargetAt(s, k).value.url)
  {
    var n := SchemeLength(s, k + 1);
    var e := UrlEnd(s, k + 1 + n);
    assert k + 1 + n < e;
    SchemePrefix(s, k + 1, e);
    SchemeIsUrl(s, k + 1);
    UrlCharsFrom(s, k + 1, e);
  }

  /** A recognised scheme followed by at least one more character starts a capturable URL. */
  lemma SchemePrefix(s: string, j: nat, e: nat)
    requires SchemeLength(s, j) != 0 && j + SchemeLength(s, j) < e <= |s|
    ensures var url := s[j..e];
      (StartsWith(url, "https://") && |url| > 8) || (StartsWith(url, "http://") && |url| > 7)
  {
    var n := SchemeLength(s, j);
    var url := s[j..e];
    assert url[..n] == s[j..j + n];
  }

  /** A run of URL characters is all URL characters, seen from its own start. */
  lemma UrlCharsFrom(s: string, j: nat, e: nat)
    requires j <= e <= |s|
    requires forall i :: j <= i < e ==> InUrl(s[i])
    ensures forall i :: 0 <= i < e - j ==> InUrl(s[j..e][i])
  {
    forall i | 0 <= i < e - j
      ensures InUrl(s[j..e][i])
    {
      assert s[j..e][i] == s[j + i];
    }
  }

  /** The scheme `https?://` is made of URL characters. */
  lemma SchemeIsUrl(s: string, j: nat)
    ensures forall i :: j <= i < j + SchemeLength(s, j) ==> InUrl(s[i])
  {
    var n := SchemeLength(s, j);
    var scheme := if n == 8 then "https://" else "http://";
    if n != 0 {
      assert s[j..j + n] == scheme;
      forall i | j <= i < j + n
        ensures InUrl(s[i])
      {
        assert s[i] == scheme[i - j];
      }
    }
  }

  lemma {:induction false} CloseFromShape(s: string, j: nat)
    requires CloseFrom(s, j).Some?
    ensures IsCapturable(CloseFrom(s, j).value.url)
    decreases |s| - j
  {
    if s[j] == ']' && TargetAt(s, j + 1).Some? {
      TargetShape(s, j + 1);
    } else {
      CloseFromShape(s, j + 1);
    }
  }

  /** Every URL found has the scheme, a non-empty body, and no space or ')'. */
  lemma {:induction false} UrlsFromShape(s: string, i: nat)
    ensures forall u :: u in UrlsFrom(s, i) ==> IsCapturable(u)
    decreases |s| - i
  {
    if i < |s| {
      var m := MatchAt(s, i);
      if m.Some? {
        CloseFromShape(s, i + 1);
        UrlsFromShape(s, m.value.next);
      } else {
        UrlsFromShape(s, i + 1);
      }
    }
  }

  /** A run of characters without ']' or a newline is skipped by the lazy `.*?`. */
  lemma {:induction false} CloseFromSkips(s: string, j: nat, k: nat)
    requires j <= k <= |s|
    requires forall m :: j <= m < k ==> s[m] != ']' && s[m] != '\n'
    ensures CloseFrom(s, j) == CloseFrom(s, k)
    decreases k - j
  {
    if j < k {
      CloseFromSkips(s, j + 1, k);
    }
  }

  /** The capture of `(url)` when the URL is capturable: the URL itself. */
  lemma TargetOfLink(s: string, k: nat, url: string)
    requires IsCapturable(url)
    requires k + |url| + 2 <= |s| && s[k] == '(' && s[k + 1..k + 1 + |url|] == url && s[k + 1 + |url|] == ')'
    ensures TargetAt(s, k) == Some(Found(url, k + |url| + 2))
  {
    var n := SchemeLength(s, k + 1);
    SchemeOfUrl(s, k + 1, url);
    var e := k + 1 + |url|;
    UrlCharsInText(s, k + 1, url, n);
    UrlEndRun(s, k + 1 + n, e);
    assert UrlEnd(s, k + 1 + n) == e && e != k + 1 + n && e < |s| && s[e] == ')';
    assert TargetAt(s, k) == Some(Found(s[k + 1..e], e + 1));
  }

  /** A capturable URL laid out at `j` starts with the scheme it has. */
  lemma SchemeOfUrl(s: string, j: nat, url: string)
    requires IsCapturable(url)
    requires j + |url| <= |s| && s[j..j + |url|] == url
    ensures SchemeLength(s, j) == if StartsWith(url, "https://") then 8 else 7
    ensures SchemeLength(s, j) < |url|
  {
    if StartsWith(url, "https://") {
      assert s[j..j + 8] == url[..8];
      assert url[4] == url[..8][4] == 's';
      assert !StartsWith(url, "http://") by {
        assert |url| >= 7 ==> url[4] == url[..7][4];
      }
    } else {
      assert s[j..j + 7] == url[..7];
      assert url[4] == ':';
      assert s[j + 4] != 's';
      assert j + 8 <= |s| ==> s[j..j + 8][4] == s[j + 4];
    }
  }

  /** The characters of a URL laid out at `j` are URL characters of the text. */
  lemma UrlCharsInText(s: string, j: nat, url: string, n: nat)
    requires IsCapturable(url)
    requires j + |url| <= |s| && s[j..j + |url|] == url && n <= |url|
    ensures forall i :: j + n <= i < j + |url| ==> InUrl(s[i])
  {
    forall i | j + n <= i < j + |url|
      ensures InUrl(s[i])
    {
      assert s[i] == url[i - j];
    }
  }

  lemma {:induction false} UrlEndRun(s: string, k: nat, e: nat)
    requires k <= e < |s| && !InUrl(s[e])
    requires forall i :: k <= i < e ==> InUrl(s[i])
    ensures UrlEnd(s, k) == e
    decreases e - k
  {
    if k < e {
      UrlEndRun(s, k + 1, e);
    }
  }

  /** A string laid out as `[text](url)` yields exactly its URL. */
  lemma LinkLayout(s: string, n: nat, url: string)
    requires IsCapturable(url)
    requires |s| == n + |url| + 4 && s[0] == '['
    requires forall m :: 1 <= m <= n ==> s[m] != ']' && s[m] != '\n'
    requires s[n + 1] == ']' && s[n + 2] == '(' && s[n + 3..n + 3 + |url|] == url && s[|s| - 1] == ')'
    ensures MarkdownUrls(s) == [url]
  {
    var j := n + 1;
    CloseFromSkips(s, 1, j);
    TargetOfLink(s, j + 1, url);
    assert CloseFrom(s, j) == Some(Found(url, |s|));
    assert MatchAt(s, 0) == Some(Found(url, |s|));
    assert UrlsFrom(s, |s|) == [];
  }

  /** A markdown link `[text](url)` whose text has no ']' or newline yields exactly its URL. */
  lemma LinkRoundTrip(text: string, url: string)
    requires forall i :: 0 <= i < |text| ==> text[i] != ']' && text[i] != '\n'
    requires IsCapturable(url)
    ensures MarkdownUrls("[" + text + "](" + url + ")") == [url]
  {
    var s := "[" + text + "](" + url + ")";
    var n := |text|;
    forall m | 1 <= m <= n
      ensures s[m] != ']' && s[m] != '\n'
    {
      assert s[m] == text[m - 1];
    }
    assert s[n + 3..n + 3 + |url|] == url;
    LinkLayout(s, n, url);
  }

  // ---------------------------------------------------------------------
  // Combining the detail pages (app/pipeline.py:273-291)
  // ---------------------------------------------------------------------

  /** The items one page adds to the merge: a list's items, any other value itself, nothing if it does not parse. */
  function PageItems(codec: JsonCodec, page: string): seq<JValue>
  {
    match codec.parse(page)
    case None => []
    case Some(v) => if v.JArr? then v.items else [v]
  }

  /** The merged list of the JSON mode, over the pages in order. */
  function MergedItems(codec: JsonCodec, pages: seq<string>): seq<JValue>
  {
    if pages == [] then []
    else MergedItems(codec, pages[..|pages| - 1]) + PageItems(codec, pages[|pages| - 1])
  }

  /** Merging distributes over the pages: the merge of two runs of pages is the two merges, in order. */
  lemma {:induction false} MergedItemsAppend(codec: JsonCodec, a: seq<string>, b: seq<string>)
    ensures MergedItems(codec, a + b) == MergedItems(codec, a) + MergedItems(codec, b)
    decreases |b|
  {
    if b == [] {
      assert a + b == a;
    } else {
      var ab := a + b;
      var front, last := b[..|b| - 1], b[|b| - 1];
      assert ab[..|ab| - 1] == a + front;
      assert ab[|ab| - 1] == last;
      MergedItemsAppend(codec, a, front);
      calc {
        MergedItems(codec, ab);
        MergedItems(codec, a + front) + PageItems(codec, last);
        MergedItems(codec, a) + MergedItems(codec, front) + PageItems(codec, last);
        { AppendAssoc(MergedItems(codec, a), MergedItems(codec, front), PageItems(codec, last)); }
        MergedItems(codec, a) + (MergedItems(codec, front) + PageItems(codec, last));
        MergedItems(codec, a) + MergedItems(codec, b);
      }
    }
  }

  /** One page: a list is flattened, another value is appended whole, an unparsable page is dropped. */
  lemma MergedOnePage(codec: JsonCodec, page: string)
    ensures codec.parse(page).None? ==> MergedItems(codec, [page]) == []
    ensures codec.parse(page).Some? && codec.parse(page).value.JArr? ==>
              MergedItems(codec, [page]) == codec.parse(page).value.items
    ensures codec.parse(page).Some? && !codec.parse(page).value.JArr? ==>
              MergedItems(codec, [page]) == [codec.parse(page).value]
  {
    assert [page][..0] == [];
  }

  /** The JSON mode: every page parsed and merged, then the merge dumped. */
  method MergeJsonPages(codec: JsonCodec, pages: seq<string>) returns (combined: string)
    ensures combined == codec.dump(JArr(MergedItems(codec, pages)))
  {
    var merged: seq<JValue> := [];
    var i := 0;
    while i < |pages|
      invariant 0 <= i <= |pages|
      invariant merged == MergedItems(codec, pages[..i])
    {
      assert pages[..i + 1][..i] == pages[..i];
      var items := codec.parse(pages[i]);
      if items.Some? {
        if items.value.JArr? {
          merged := merged + items.value.items;
        } else {
          merged := merged + [items.value];
        }
      }
      i := i + 1;
    }
    assert pages[..i] == pages;
    combined := codec.dump(JArr(merged));
  }

  /** The header of the n-th page (counted from 1) in the text mode. */
  function PageHeader(n: nat, url: string): string
  {
    "--- EVENT PAGE " + NatToString(n) + " (" + url + ") ---\n\n"
  }

  /** The labelled parts of the text mode: URLs and contents paired up to the shorter list. */
  function PageParts(urls: seq<string>, contents: seq<string>): (parts: seq<string>)
    ensures |parts| == if |urls| <= |contents| then |urls| else |contents|
  {
    var n := if |urls| <= |contents| then |urls| else |contents|;
    seq(n, i requires 0 <= i < n => PageHeader(i + 1, urls[i]) + contents[i])
  }

  /** The text mode: the parts joined by a blank line. */
  function CombinedText(urls: seq<string>, contents: seq<string>): string
  {
    Join(PageParts(urls, contents), "\n\n")
  }

  /** Every paired page appears in the combined text under its header, numbered from 1 in input order. */
  lemma CombinedTextHasEveryPage(urls: seq<string>, contents: seq<string>, i: nat)
    requires i < |urls| && i < |contents|
    ensures Contains(CombinedText(urls, contents), PageHeader(i + 1, urls[i]) + contents[i])
  {
    var parts := PageParts(urls, contents);
    JoinSliceOccurs(parts, "\n\n", i, i + 1);
    assert parts[i..i + 1] == [parts[i]];
  }

  /** The text mode loop: a part per (URL, content) pair with its running number, then the join. */
  method CombineText(urls: seq<string>, contents: seq<string>) returns (combined: string)
    ensures combined == CombinedText(urls, contents)
  {
    var parts: seq<string> := [];
    var i := 0;
    while i < |urls| && i < |contents|
      invariant 0 <= i <= |urls| && i <= |contents|
      invariant parts == PageParts(urls, contents)[..i]
    {
      parts := parts + [PageHeader(i + 1, urls[i]) + contents[i]];
      i := i + 1;
    }
    assert parts == PageParts(urls, contents);
    combined := Join(parts, "\n\n");
  }
}
