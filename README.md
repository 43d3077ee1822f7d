# Live-house event scraper, modelled in Dafny

This project models the core of MiruVL/events, a pipeline that collects live-music
events from the web sites of Japanese live houses. It covers these parts:

- **Venue loading.** Venues come from a Google Places text search. The model covers
  the paginated search, the dedupe by place id, `place_to_venue` and the upsert that
  counts saved and skipped venues.
- **Scraping strategies.** The pipeline scrapes each configured venue with one of
  three strategies:
  - `schedule`: crawl a schedule page, or one page per month when the URL is a
    template, then ask a language model for the events;
  - `link_gathering`: crawl a schedule page for links, crawl every linked detail
    page, combine them, then ask the model once;
  - `custom`: a per-venue script.
- **Crawl cache.** Pages are crawled through a file cache named after the URL.
- **Model replies.** The reply is cleaned up: reasoning tags, code fences, JSON repair,
  and salvage of whole `{...}` objects. It is then validated into `Event` records.
- **Saving.** Events are upserted into the event store, keyed by
  (venue, date, title).
- **Command line.** The pipeline's arguments are parsed from the command line.

The modules follow the source:

- `Common` holds the Python string and sequence operations the code relies on, such
  as `strip`, `split`, `join`, `find` and `str(n)`.
- `Json` holds the JSON value type. A `JsonCodec` value stands for `json.loads` and
  `json.dumps`.
- `Models` covers `app/models.py`: the enumerations, `GeoLocation`, `Venue` and
  `Event`, and the field coercions used when an `Event` is built from a reply.
- `Prompts` names the four system prompts.
- `Extractor` covers `app/extractor.py`:
  - markdown trimming and reasoning-tag removal;
  - the prompt builders and the model client;
  - JSON repair, fence stripping and partial extraction;
  - the staged parse and the three public extraction functions.
- `Scraper` covers `app/scraper.py`: cache names, and a `Crawler` class whose cache
  and crawl log the crawl methods update.
- `Periods` covers month arithmetic, `str.format` for `{year}`, `{month}` and
  `{month:02d}`, and `resolve_schedule_url`.
- `Links` covers the two ways links are read without the model, and the combining of
  detail pages.
- `Store` covers `_save_events`, with an `EventStore` class.
- `Pipeline` covers the two periodic strategies, the custom strategy, `scrape_venue`
  and `scrape_all`. These run over a `World` value that records:
  - the crawl cache;
  - the crawl log;
  - the model exchanges.
- `PipelineArgs` covers `_parse_main_args`.
- `VenueLoader` covers the venue-loading steps.

Code that works by loops or state changes is modelled as methods:

- the markdown scans and the JSON-repair scan;
- the partial-extraction scan;
- the crawl loop and the period loops;
- the save loops;
- the argument loop;
- the pagination, dedupe and upsert loops.

Each such method is proved equal to a recursive specification function. The
properties are proved about those functions.

Inputs that the program gets from outside are parameters of the model:

- the web (`web`) and the Places API (`fetch`);
- the language model (`complete`, a function of the request number and the prompts);
- the clock (`now`, `scrapedAt`);
- the JSON parser (`JsonCodec`);
- the scripts directory (`modules`);
- store failures (`fails`).

## Model

| member | source | states |
|---|---|---|
| Common.IndexOfFirst | app/extractor.py:204 | The search behind `split(sep)[-1]` finds the first occurrence of the separator, and reports -1 exactly when there is none. |
| Common.Strip | app/extractor.py:130 | `str.strip()` leaves no whitespace at either end. The result is the text found right after the leading whitespace. |
| Common.RStripWhileRemoves | app/extractor.py:311 | `rstrip(",")` removes only the characters it was asked to strip, and only from the end. |
| Common.JoinSplit | app/extractor.py:123-147 | Joining the lines of `split("\n")` with "\n" gives back the text, so trimming keeps lines whole. |
| Common.SplitPiecesHaveNoSeparator | app/extractor.py:123 | No line produced by `split("\n")` contains the separator. |
| Common.NatToString | app/pipeline.py:121 | `str(n)` of a natural number is a non-empty run of ASCII digits. |
| Common.NatToStringValue | app/pipeline.py:469-470 | Reading the digits of `str(n)` back with `int` gives `n`. |
| Common.JoinSliceOccurs | app/pipeline.py:288-291 | The join of any contiguous run of parts occurs inside the join of all the parts. |
| Json.Unwrap | app/extractor.py:360-366 | A value that is not a dict is left alone. A dict with none of the wrapper keys becomes a one-element list. |
| Json.UnwrapFirstPresent | app/extractor.py:361-364 | A dict is replaced by the value under the first wrapper key it has. |
| Models.ParseStrategy | app/models.py:15-18 | A stored string is a strategy exactly when it is one of "schedule", "link_gathering" and "custom", and the strategy's value is that string. |
| Models.StrategyRoundTrip | app/models.py:15-18 | Each strategy parses back from its value, and distinct strategies have distinct values. |
| Models.ParseState | app/models.py:21-34 | A stored string is a venue state exactly when it is one of the four values, and the state's value is that string. |
| Models.MakeGeoLocation | app/models.py:37-43 | A `GeoLocation` validates exactly when there are two coordinates. It is a "Point" holding those coordinates. |
| Models.NewVenue | app/models.py:46-122 | `Venue(name=...)` takes the field defaults: state "new", fit_markdown and no scraping configuration. Both timestamps are `now`. |
| Models.DumpVenue | app/models.py:46-122 | The stored form keeps the strategy and the state, and each parses back to the model's value. |
| Models.NewEvent | app/models.py:125-145 | `Event(venue_id, title, date)` has that key, no artists and no optional field set. |
| Models.AsStr | app/models.py:129 | A `str` field accepts exactly a JSON string. |
| Models.AsOptStr | app/models.py:131 | An `Optional[str]` field accepts exactly null or a string; null gives None. |
| Models.AsOptInt | app/models.py:133 | An `Optional[int]` field accepts a number exactly when it has no fractional part, and takes its integer value. It rejects lists and dicts. Null gives None. |
| Models.AsStrList | app/models.py:137 | A `list[str]` field accepts exactly a list of strings, element by element. |
| Extractor.FirstMatchFrom | app/extractor.py:129-139 | The forward scan stops at the first line passing the test, and no line before it passes. |
| Extractor.LastMatchBetween | app/extractor.py:142-145 | The backward scan finds the last line in the range passing the test, or -1 when there is none. |
| Extractor.SliceStart | app/extractor.py:124-139 | The first kept line is the first start line, or 0 when there is no start line. |
| Extractor.SliceEnd | app/extractor.py:141-145 | The end is the last footer line after the start, or the number of lines when there is none. |
| Extractor.SliceBounds | app/extractor.py:129-145 | The two loops compute exactly `SliceStart` and `SliceEnd`. |
| Extractor.TrimMarkdown | app/extractor.py:121-148 | `_trim_markdown` equals the specification `Trimmed`. |
| Extractor.TrimmedWithoutMarkers | app/extractor.py:121-148 | Markdown without start or footer lines comes back unchanged. |
| Extractor.TrimmedOccursInMarkdown | app/extractor.py:121-148 | Trimming only removes whole leading and trailing lines, so the result occurs in the input. |
| Extractor.AfterLastHasNoSeparator | app/extractor.py:204 | The last piece of `split("</think>")` holds no `</think>`. |
| Extractor.AfterLastIsSuffix | app/extractor.py:204 | The last piece of the split is a suffix of the text. |
| Extractor.StripThinking | app/extractor.py:203-204 | A reply without `<think>` is returned unchanged. |
| Extractor.StripThinkingSpec | app/extractor.py:203-204 | With `<think>` present, the kept text holds no `</think>` and is a piece of the reply. |
| Extractor.StripOfSuffix | app/extractor.py:204 | Stripping the last piece keeps a piece of the reply, and adds no occurrence of anything. |
| Extractor.Answer | app/extractor.py:171-200 | The request fails with an HTTP error exactly when the endpoint gives no reply. |
| Extractor.ModelClient.Call | app/extractor.py:151-207 | One request is appended to the exchange log, and its reply is returned without the reasoning section. |
| Extractor.SystemPromptFor | app/extractor.py:297-298 | The schedule page type gets the schedule prompt, and every other page type gets the detail prompt. |
| Extractor.InstructionsParagraph | app/extractor.py:240-241 | Truthy instructions give an "Additional instructions" paragraph; otherwise there is nothing. |
| Extractor.ExpectationParagraph | app/extractor.py:232-238 | A truthy expected title opens the paragraph. Neither a truthy title nor a truthy date gives nothing. |
| Extractor.SchedulePromptShape | app/extractor.py:215-249 | The schedule prompt opens with the venue line and carries the instructions. It ends with the trimmed content (JSON untouched) and `/no_think`. |
| Extractor.DetailPromptShape | app/extractor.py:215-249 | The detail prompt opens with the venue line and names the expected title. It carries the instructions and ends with the content and `/no_think`. |
| Extractor.CombinedPromptShape | app/extractor.py:252-270 | The combined prompt opens with the venue line and carries the instructions. It ends with the combined pages, untrimmed, and `/no_think`. |
| Extractor.LinkPromptShape | app/extractor.py:273-294 | The link prompt opens with the venue line and carries the instructions. It ends with the trimmed content and `/no_think`. |
| Extractor.NextNonSpace | app/extractor.py:308 | The `\s*` of the substitution ends at the first non-whitespace character. |
| Extractor.NextNonSpaceSkipsSpace | app/extractor.py:308 | Everything `\s*` skips is whitespace. |
| Extractor.SkipSpaces | app/extractor.py:308 | The whitespace loop stops where `NextNonSpace` says. |
| Extractor.ScanAt | app/extractor.py:308 | One match attempt produces a piece and moves on, so that the piece followed by the rest of the substitution is the substitution from here. |
| Extractor.DropCommasScan | app/extractor.py:308 | The substitution loop computes `re.sub(r",\s*([}\]])", r"\1", text)` as specified by `DropCommas`. |
| Extractor.RepairJson | app/extractor.py:306-314 | `_repair_json` equals the specification `Repair`. |
| Extractor.RepairShape | app/extractor.py:311-313 | The repair is its cleaned body followed by the closers the text leaves open. |
| Extractor.RepairOnlyDeletesAndCloses | app/extractor.py:306-314 | Repair deletes only commas and whitespace, then appends one `}` per unclosed `{` and then one `]` per unclosed `[`. |
| Extractor.CountRepair | app/extractor.py:306-314 | Any character other than a comma or whitespace is counted as before, plus its closers. |
| Extractor.CountClosers | app/extractor.py:309-313 | The closers hold `max(0, open braces)` `}` and `max(0, open brackets)` `]`, and no opener. |
| Extractor.RepairBalances | app/extractor.py:306-314 | After repair the brace excess is the old excess when that was negative and zero otherwise; likewise for brackets. |
| Extractor.ClosersDropCommas | app/extractor.py:308-310 | Dropping commas changes no bracket count, hence no closer. |
| Extractor.CountDropCommas | app/extractor.py:308 | The substitution changes the count of no character other than commas and whitespace. |
| Extractor.EraseDropCommas | app/extractor.py:308 | The substitution deletes only commas and whitespace. |
| Extractor.EraseStripTail | app/extractor.py:311 | `rstrip().rstrip(",")` deletes only whitespace and commas. |
| Extractor.RepairIdentity | app/extractor.py:306-314 | Text with no comma before a closer, balanced, and ending in neither whitespace nor a comma comes back unchanged from repair. |
| Extractor.CleanBody | app/extractor.py:308-311 | Clean text ending in neither whitespace nor a comma is its own repair body. |
| Extractor.BalancedClosers | app/extractor.py:309-313 | Balanced text needs no closers. |
| Extractor.StripFences | app/extractor.py:317-326 | A reply that does not open with a fence, once stripped, is just stripped. |
| Extractor.StripFencesWithin | app/extractor.py:317-326 | Whatever fences are removed, the result is a piece of the reply. |
| Extractor.FencedWithin | app/extractor.py:320-325 | The body of a fenced reply is a piece of the reply. |
| Extractor.FencedBlock | app/extractor.py:317-326 | A reply that is exactly one fenced block with an info string comes back as the stripped block content. |
| Extractor.OpeningFence | app/extractor.py:320-322 | A block opening with a fence line loses exactly its first line. |
| Extractor.ScanSpansShape | app/extractor.py:402-417 | The spans closed from any point of the scan start with `{`, end with `}` and come in order. |
| Extractor.SpansShape | app/extractor.py:397-421 | The fragments `_extract_partial_json` parses are `{...}` spans of the text, in left-to-right order. |
| Extractor.ScanSpansTopLevel | app/extractor.py:402-417 | While the depth tracks the open span, every span closed is balanced and top-level. |
| Extractor.OpenBraceTracked | app/extractor.py:403-406 | A `{` opens a span at depth 0 and deepens an open one. |
| Extractor.CloseBraceTracked | app/extractor.py:407-417 | A `}` that brings the depth back to 0 closes a top-level span; any other `}` only lowers the depth. |
| Extractor.OtherCharTracked | app/extractor.py:402-417 | Any other character leaves the depth alone. |
| Extractor.SpansTopLevel | app/extractor.py:397-421 | Every fragment partial extraction parses is a balanced, top-level `{...}` span. |
| Extractor.TitledObjectAt | app/extractor.py:410-414 | A span yields an object exactly when its fragment parses to a dict with a "title" key. |
| Extractor.TitledObjectsFromSpans | app/extractor.py:402-421 | Every salvaged object comes from one of the spans. There is at most one per span, and none exactly when no span yields one. |
| Extractor.PartialJsonNeverEmpty | app/extractor.py:418-421 | Partial extraction is None exactly when no span parses to a titled dict. Otherwise it is a non-empty list of such dicts, each parsed from a span. |
| Extractor.PartialStep | app/extractor.py:402-417 | One scan step yields the object found, followed by what the rest of the scan yields. |
| Extractor.ExtractPartialJson | app/extractor.py:397-421 | `_extract_partial_json` equals the specification `PartialJson`. |
| Extractor.ParseStages | app/extractor.py:329-351 | The repair is used only when the direct parse fails, and salvage only when the repair fails too. The result is None exactly when all three stages fail. |
| Extractor.ParseJsonResponse | app/extractor.py:329-351 | `_parse_json_response` equals the specification `ParsedReply`. |
| Extractor.EventFromItem | app/extractor.py:373-392 | An item becomes an event exactly when it is a dict whose present fields all validate as their types. The event carries the venue, the timestamp and the dumped item. Title and date are the item's strings, or "Unknown" and "". Every optional field and the artists are the validated values, or None and [] when absent. A non-string title skips the item. |
| Extractor.EmptyItemIsDefaultEvent | app/extractor.py:375-388 | An empty dict becomes the default event. |
| Extractor.EventsFromItemsProperties | app/extractor.py:371-394 | There are at most as many events as items, and exactly as many when every item validates. Each event comes from an item and carries the venue and the one timestamp. |
| Extractor.EventsFromItemsAppend | app/extractor.py:373-392 | Mapping a concatenation maps each part in turn. |
| Extractor.EventsFromItemsStep | app/extractor.py:373-392 | One more item appends its event, if any, at the end. |
| Extractor.EventsFromParsedShapes | app/extractor.py:356-369 | An unparsable reply or JSON null is a ValueError, and a list is mapped item by item. A dict is unwrapped by the first of "events", "data", "results" it has (a ValueError unless that value is a list), or else wrapped in a list. A scalar is a ValueError. |
| Extractor.ParseLlmResponseAsEvents | app/extractor.py:354-394 | `_parse_llm_response_as_events` equals the specification `EventsFromReply`. |
| Extractor.LinkItems | app/extractor.py:547 | The comprehension keeps exactly the items that are dicts with a truthy "url", and no more items than it was given. |
| Extractor.LinksFromParsed | app/extractor.py:529-549 | Every link returned is a dict with a truthy "url". |
| Extractor.LinksFromParsedShapes | app/extractor.py:529-547 | A failed parse or a scalar gives [], and a list is filtered. A dict is unwrapped by the first of "links", "urls", "data", "results" it has (nothing unless that value is a list), or else kept when it is a link itself. |
| Extractor.ReplyLinks | app/extractor.py:528-549 | Every link extracted from a reply is a dict with a truthy "url". |
| Extractor.ExtractEvents | app/extractor.py:429-470 | One request with the page-type prompts is logged, and the result is its reply parsed into events. |
| Extractor.ExtractEventsCombined | app/extractor.py:473-503 | One request with the combined prompts is logged, and the result is its reply parsed into events. |
| Extractor.ExtractLinks | app/extractor.py:506-549 | One request with the link prompts is logged, and the result is its reply filtered down to links. |
| Scraper.SafeCacheSuffix | app/scraper.py:21-23 | Every character other than ASCII letters, ASCII digits, '-' and '_' becomes '_', nothing else changes, and the result is cut to 30 characters (see Left out for non-ASCII alphanumerics). |
| Scraper.SafeCacheSuffixFixedPoint | app/scraper.py:21-23 | A safe suffix of at most 30 characters is kept as it is. |
| Scraper.SafeCacheSuffixIdempotent | app/scraper.py:21-23 | Sanitising twice is sanitising once. |
| Scraper.ReplaceAllAbsent | app/scraper.py:148-152 | `str.replace` leaves text without the pattern alone. |
| Scraper.ReplaceCharPointwise | app/scraper.py:150-152 | Replacing one character by another maps the text character by character. |
| Scraper.FlattenPath | app/scraper.py:150-152 | '/', '?' and '&' become '_', and every other character stays. |
| Scraper.UrlToFilename | app/scraper.py:145-153 | The file name has at most 120 characters and holds no '/', '?' or '&'. |
| Scraper.SchemeDoesNotMatter | app/scraper.py:148-149 | A URL behind "https://" or "http://" shares its cache file name with the bare URL. |
| Scraper.PlainUrlIsItsFileName | app/scraper.py:145-153 | A short URL without a scheme or special characters is its own file name. |
| Scraper.ExtensionShape | app/scraper.py:56 | The extension is ".json" exactly when a schema is given, ".md" otherwise. |
| Scraper.CacheFileNameShape | app/scraper.py:53-57 | The cache name starts with the URL's file name. It carries "_" and the sanitised suffix exactly for a truthy suffix, and ends by the schema rule. |
| Scraper.CacheNamesSeparateSuffixes | app/scraper.py:53-57 | Two suffixes that sanitise differently never share a cache file. |
| Scraper.VisitPage | app/scraper.py:52-100 | With caching on, a cache hit returns the file and crawls nothing. Otherwise one crawl is logged; a failure raises RuntimeError and leaves the cache alone, and a success is written to the cache file. |
| Scraper.DetailRequests | app/scraper.py:134-140 | `crawl_detail_pages` makes one request per URL, in order, with no suffix. |
| Scraper.VisitAllStep | app/scraper.py:133-142 | The first page is visited, and the rest follow unless it failed. |
| Scraper.VisitAllOnePerUrl | app/scraper.py:133-142 | A successful run returns one content per URL. |
| Scraper.VisitAllFromCache | app/scraper.py:59-61 | With caching on and every page cached, nothing is crawled and each content is the cache file. |
| Scraper.VisitAllCrawlsEach | app/scraper.py:133-142 | With caching off, every page is crawled, in input order. |
| Scraper.VisitAllKeepsCache | app/scraper.py:59-61 | With caching on, cached files stay unchanged. |
| Scraper.VisitAllCacheAgrees | app/scraper.py:97 | With caching on, each request's cache file holds the content returned for it. |
| Scraper.Crawler.CrawlPage | app/scraper.py:26-100 | `crawl_page` names the cache file, then updates the cache and the crawl log as `VisitPage` says. |
| Scraper.Crawler.CrawlRequest | app/scraper.py:59-100 | The cache decision and the crawl, as `VisitPage` says. |
| Scraper.Crawler.CrawlSchedule | app/scraper.py:103-120 | An undeclared keyword raises TypeError and changes nothing; otherwise this is `crawl_page` on the schedule URL. |
| Scraper.Crawler.CrawlDetailPages | app/scraper.py:123-142 | An undeclared keyword raises TypeError and changes nothing; otherwise the pages are crawled in order, stopping at the first failure. |
| Scraper.Crawler.CrawlAll | app/scraper.py:133-142 | The loop equals the specification `VisitAll`. |
| Scraper.UnexpectedKeyword | app/scraper.py:103-111 | An unexpected keyword argument is a TypeError. |
| Periods.MonthsLaterShape | app/pipeline.py:23-33 | The result is the first of a month in 1..12, exactly `months` months on, keeping the time of day. It fails exactly when the year leaves 1..9999. |
| Periods.MonthsLaterCompose | app/pipeline.py:23-33 | Adding months in two steps is adding them in one. |
| Periods.AddMonths | app/pipeline.py:23-33 | The two carry loops compute `MonthsLater`. |
| Periods.NameEndAfter | app/pipeline.py:55 | A field name ends at the first ':', '!', '.' or '['. |
| Periods.Pad | app/pipeline.py:47 | Right-aligned padding keeps the text at the end and gives the field width. |
| Periods.FormatLiteral | app/pipeline.py:55 | Text without braces passes through `format` unchanged. |
| Periods.FormatPlainChar | app/pipeline.py:55 | A character other than a brace is copied. |
| Periods.FormatField | app/pipeline.py:55 | A replacement field is replaced by its value, or its error is returned. |
| Periods.PlainFields | app/pipeline.py:45-46 | `{year}` and `{month}` give the plain decimal number. |
| Periods.TwoDigitMonth | app/pipeline.py:47 | A month written with two digits reads back as the month. |
| Periods.PaddedSpec | app/pipeline.py:47 | The spec "02d" pads with zeros to width 2. |
| Periods.PaddedMonthSpec | app/pipeline.py:47 | `{month:02d}` hands the month to the spec "02d". |
| Periods.FieldWithSpec | app/pipeline.py:44-47 | `{name:spec}` formats the named value with the spec. |
| Periods.PaddedMonth | app/pipeline.py:47 | A month zero-padded to width 2 is its two-digit form. |
| Periods.PaddedMonthField | app/pipeline.py:47 | `{month:02d}` gives the month as two digits. |
| Periods.FormatNonEmpty | app/pipeline.py:55 | A non-empty template never formats to the empty string. |
| Periods.ResolveScheduleUrl | app/pipeline.py:40-55 | A URL without '{' is returned as it is. A templated one is formatted with the target's year and month. |
| Periods.NatToStringShort | app/pipeline.py:121 | A number below 10^k has at most k digits. |
| Periods.MonthLabelIsSafe | app/pipeline.py:121-125 | A period label passes the cache-suffix sanitising unchanged. |
| Links.FirstLink | app/pipeline.py:184-188 | The link is an http string found under one of the keys. |
| Links.LinksOfItems | app/pipeline.py:180-189 | There is at most one link per item, in item order, and every link starts with "http". |
| Links.FirstLinkIsFirstKey | app/pipeline.py:184-188 | The first key holding an http string gives the link. |
| Links.FirstLinkNone | app/pipeline.py:184-188 | An item with no http string under any key gives nothing. |
| Links.LinksOfItemsAppend | app/pipeline.py:181-188 | The links of a concatenation are the links of each part, in order. |
| Links.LinksOfOneItem | app/pipeline.py:182-183 | An item that is not a dict contributes nothing. |
| Links.JsonLinksShapes | app/pipeline.py:171-178 | Unparsable content has no links. A top-level value that is not a list counts as one item. |
| Links.ParseLinksFromJson | app/pipeline.py:164-189 | `_parse_links_from_json` equals the specification `JsonLinks`. |
| Links.ItemLink | app/pipeline.py:184-188 | The key loop finds `FirstLink` over ("url", "href", "link", "detail_url"). |
| Links.UrlEnd | app/pipeline.py:318 | `[^\s)]+` runs to the first whitespace or ')'. |
| Links.SchemeLength | app/pipeline.py:318 | `https?://` is recognised as 8 or 7 characters, or is not there. |
| Links.TargetShape | app/pipeline.py:318 | A matched target is a capturable URL. |
| Links.CloseFromShape | app/pipeline.py:318 | A match of `.*?\]` and a target captures a capturable URL. |
| Links.UrlsFromShape | app/pipeline.py:314-319 | Every URL found has the scheme and a non-empty body, and holds no whitespace or ')'. |
| Links.CloseFromSkips | app/pipeline.py:318 | The lazy `.*?` skips a run without ']' or newline. |
| Links.TargetOfLink | app/pipeline.py:318 | The capture of `(url)` is the URL itself. |
| Links.LinkLayout | app/pipeline.py:314-319 | A text laid out as `[text](url)` yields exactly its URL. |
| Links.LinkRoundTrip | app/pipeline.py:314-319 | A markdown link whose text has no ']' or newline yields exactly its URL. |
| Links.MergedItemsAppend | app/pipeline.py:276-285 | Merging distributes over the pages, in order. |
| Links.MergedOnePage | app/pipeline.py:278-285 | A list page is flattened, another value is appended whole, and an unparsable page is dropped. |
| Links.MergeJsonPages | app/pipeline.py:274-286 | The merge loop dumps `MergedItems`. |
| Links.PageParts | app/pipeline.py:288-290 | `zip` pairs URLs and contents up to the shorter list. |
| Links.CombinedTextHasEveryPage | app/pipeline.py:288-291 | Every paired page appears in the combined text under its header, numbered from 1. |
| Links.CombineText | app/pipeline.py:288-291 | The loop equals the specification `CombinedText`. |
| Store.SaveAll | app/pipeline.py:63-85 | No more are saved than given, and one update is sent per event. |
| Store.LastWriteWins | app/pipeline.py:68-81 | A key holds the last event with that key whose update went through. |
| Store.OtherKeysUntouched | app/pipeline.py:68-81 | A key none of the events has keeps what it had. |
| Store.StoredKeys | app/pipeline.py:68-81 | The keys afterwards are the old keys and those of the events whose update went through. |
| Store.FreshEventsAllSaved | app/pipeline.py:68-81 | New, distinct keys with no failure are all counted. |
| Store.ResaveCountsNothing | app/pipeline.py:80-81 | Saving the same events again changes nothing and counts nothing. |
| Store.EventStore.UpdateOne | app/pipeline.py:71-83 | One upsert is counted when it inserted or modified a document; a failed update changes nothing. |
| Store.EventStore.SaveEvents | app/pipeline.py:63-85 | The loop equals the specification `SaveAll`. |
| Pipeline.ReplyEventsCarryVenue | app/pipeline.py:140-147 | Every event of a reply carries the venue id and the one timestamp. |
| Pipeline.PeriodAt | app/pipeline.py:119-125 | A plain URL is used as it is, with no suffix. A templated one is formatted for the target month and gets the month label as its suffix. |
| Pipeline.ResolvePeriod | app/pipeline.py:120-125 | The head of the period loop computes `PeriodAt`. |
| Pipeline.JobOf | app/pipeline.py:103-117 | A null schedule URL fails the templated test with a TypeError. Otherwise the job carries the venue id and the template. |
| Pipeline.Backfilled | app/pipeline.py:149-151 | Each event without a detail URL gets the page's URL, and nothing else changes. |
| Pipeline.Backfill | app/pipeline.py:149-151 | The loop equals `Backfilled`. |
| Pipeline.SchedulePageStep | app/pipeline.py:130-151 | A schedule period crawls, extracts and backfills as `FromSchedulePage` says. |
| Pipeline.SchedulePeriodStep | app/pipeline.py:119-153 | One schedule period, as the period function says. |
| Pipeline.AsJsonStrings | app/pipeline.py:247-250 | Each parsed URL becomes a JSON string, in order. |
| Pipeline.UrlValues | app/pipeline.py:256 | Each link's truthy "url" value is taken. |
| Pipeline.DiscoverLinks | app/pipeline.py:245-257 | The links are found as `DiscoveredLinks` says. |
| Pipeline.TextPrefix | app/pipeline.py:264-271 | The leading strings of the URL list are crawled, up to the first value that is not a string. |
| Pipeline.DetailEventsStep | app/pipeline.py:264-306 | Detail pages are crawled, combined and extracted as `DetailEvents` says. |
| Pipeline.LinkedPagesStep | app/pipeline.py:233-306 | One link-gathering period as `FromLinkedPages` says. |
| Pipeline.LinkPeriodStep | app/pipeline.py:222-309 | One link-gathering period, as the period function says. |
| Pipeline.NoLinksNoDetailWork | app/pipeline.py:259-261 | With no links found, no detail page is crawled and at most the one link request is made. |
| Pipeline.PeriodicStep | app/pipeline.py:119-153 | One turn of the loop: the events so far, then this period's events, then the rest; an error ends the loop. |
| Pipeline.RunSchedulePeriods | app/pipeline.py:116-156 | The loop of the schedule strategy equals the specification `Periodic`. |
| Pipeline.RunLinkPeriods | app/pipeline.py:219-311 | The loop of the link-gathering strategy equals the specification `Periodic`. |
| Pipeline.RunStrategy | app/pipeline.py:93-311 | The settings, then the period loop, as `StrategyRun` says. |
| Pipeline.SchedulePageOneRequest | app/pipeline.py:140-147 | A schedule page read makes exactly one model request, for schedule-page events. |
| Pipeline.SchedulePeriodOneRequest | app/pipeline.py:119-153 | A successful schedule period makes exactly one model request. |
| Pipeline.PeriodicRequests | app/pipeline.py:119-153 | A walk over periods that each make one request makes one request per remaining period and leaves earlier requests alone. |
| Pipeline.ScheduleOneRequestPerPeriod | app/pipeline.py:99-101 | A successful schedule strategy makes one model request per period, each for schedule-page events. |
| Pipeline.SchedulePageEvents | app/pipeline.py:140-151 | Every event of a schedule page carries the venue id and has a detail URL. |
| Pipeline.SchedulePeriodEvents | app/pipeline.py:119-153 | Every event of a successful schedule period is labelled that way. |
| Pipeline.PeriodicLabelled | app/pipeline.py:119-156 | A walk over labelled periods returns only labelled events. |
| Pipeline.ScheduleEventsLabelled | app/pipeline.py:93-156 | Every event the schedule strategy returns carries the venue id and the run's timestamp, and has a detail URL. |
| Pipeline.NoPeriodsWithoutCount | app/pipeline.py:119 | `range(months)` with a count that is not positive walks no period. |
| Pipeline.FirstCrawlAsWritten | app/pipeline.py:130-138 | As written, the first crawl of every period raises TypeError and crawls nothing. |
| Pipeline.ScriptKwargs | app/pipeline.py:337 | Missing kwargs bind as {}, and bound kwargs never repeat `use_cache`. |
| Pipeline.CustomEvents | app/pipeline.py:327-371 | No script gives no events. An error comes only from an import that fails other than "not found". A list comes only from a module with `run` whose arguments bind, and is handed on whole, including any item that is not an `Event`. |
| Pipeline.VenueScrapeOutcomes | app/pipeline.py:379-413 | A missing or unknown strategy, or no events, gives 0 and leaves the store alone. A count is returned only for a list of events alone, and never exceeds their number. |
| Pipeline.StrayItemAfterSaving | app/pipeline.py:66-71 | When the list holds an item that is not an `Event`, the events before it are saved, then `model_dump` raises AttributeError out of `scrape_venue`. |
| Pipeline.StrayOnlyFromScripts | app/pipeline.py:357-371 | Only the custom strategy can hand on such an item. |
| Pipeline.StrategyEvents | app/pipeline.py:396-405 | The dispatch on the strategy, as `VenueEvents` says. |
| Pipeline.ScrapeVenue | app/pipeline.py:379-413 | `scrape_venue` updates the world and the store as `VenueScrape` says. |
| Pipeline.EligibleVenues | app/pipeline.py:421-428 | Exactly the venues matching the query are eligible. |
| Pipeline.Selected | app/pipeline.py:421-429 | `to_list(100)` gives the first eligible venues in store order: all of them when at most 100 match, exactly 100 otherwise. |
| Pipeline.LoadedVenueNotEligible | app/pipeline.py:421-428 | A venue straight from the loader (state "new", no strategy) is not scraped. |
| Pipeline.ConfiguredVenueEligible | app/pipeline.py:421-429 | A stored venue with a strategy in state configured or warning matches the query. When at most 100 venues match, it is among the venues `scrape_all` scrapes. |
| Pipeline.ScrapeEachAppend | app/pipeline.py:438-444 | Scraping one run of venues after another adds up the totals, and the state carries over. |
| Pipeline.FailingVenueSkipped | app/pipeline.py:440-444 | A venue that raises adds nothing, and the venues after it are still scraped. |
| Pipeline.ScrapeAll | app/pipeline.py:416-447 | `scrape_all` scrapes the selected venues in order and totals what `ScrapeEach` says. |
| PipelineArgs.ParseInt | app/pipeline.py:476-479 | `int(text)` succeeds exactly when the stripped text is a signed decimal integer. |
| PipelineArgs.AtLeastOne | app/pipeline.py:470 | `max(1, n)` is at least 1 and at least `n`, and is one of them. |
| PipelineArgs.ParseMainArgs | app/pipeline.py:455-488 | The argument loop equals the specification `MainArgsOf`. |
| PipelineArgs.ScanMonthsPositive | app/pipeline.py:468-481 | The loop never sets a count below 1. |
| PipelineArgs.MonthsAtLeastOne | app/pipeline.py:470 | A period count from the command line is never below 1. |
| PipelineArgs.ScanWithoutMonths | app/pipeline.py:463-484 | Without `--months` options the loop leaves the count as it was. |
| PipelineArgs.NoMonthsOption | app/pipeline.py:459 | Without any `--months` option the count stays unset. |
| PipelineArgs.ScanPositionals | app/pipeline.py:482-483 | Bare arguments are appended in order; what was there stays in front. |
| PipelineArgs.BareKept | app/pipeline.py:482-484 | A bare argument is appended and the scan goes on. |
| PipelineArgs.VenueFilterIsBareArgument | app/pipeline.py:486-487 | The filter is an argument that does not start with `--`. Without such an argument there is no filter. |
| PipelineArgs.FirstBareArgumentIsFilter | app/pipeline.py:486-487 | A bare argument right after the program name is the filter. |
| PipelineArgs.ScanAppend | app/pipeline.py:463-484 | An appended argument that is not all digits is processed on its own, after everything before it. |
| PipelineArgs.LastMonthsOptionWins | app/pipeline.py:475-481 | A final `--months=N` overrides every earlier count and changes nothing else. |
| PipelineArgs.MonthsFlagValue | app/pipeline.py:468-472 | `--months N` sets the count to `max(1, N)`. |
| PipelineArgs.MonthsFlagWithoutNumber | app/pipeline.py:468-474 | `--months` followed by a non-number leaves the count unset, and that word is read on its own as the filter. |
| VenueLoader.PlaceToVenue | app/venue_loader.py:153-172 | A present `displayName` or `location` that is not a dict raises on `.get`. Otherwise the venue gets the name ("Unknown" default), the id, a Point [longitude, latitude] with 0 for a missing component, the address ("" default) and the timestamps, with no scraping configuration. |
| VenueLoader.SearchPaginated | app/venue_loader.py:91-114 | The pagination loop equals the specification `Paginate`, and its requests are `Requested`. |
| VenueLoader.RequestsWithinBudget | app/venue_loader.py:105 | No more than `max_pages` requests are made, and none when it is not positive. |
| VenueLoader.RequestsFollowTokens | app/venue_loader.py:102-112 | The first request has no token. Each later one carries the token of the page before, which had places and a next token. |
| VenueLoader.PagesInRequestOrder | app/venue_loader.py:101-114 | The result is the places of the requested pages, in request order. |
| VenueLoader.DedupeById | app/venue_loader.py:300-307 | The dedupe loop equals the specification `Dedupe`. An unhashable id raises TypeError. |
| VenueLoader.SeenIdsMembers | app/venue_loader.py:301-306 | The seen set holds exactly the truthy ids met so far. |
| VenueLoader.KeptAreFirstOccurrences | app/venue_loader.py:303-307 | Every kept place is the first place with its truthy id. |
| VenueLoader.KeptCoversSeen | app/venue_loader.py:303-307 | The ids seen are exactly the ids of the kept places. |
| VenueLoader.KeptIdsDistinct | app/venue_loader.py:303-307 | The kept places have pairwise distinct ids. |
| VenueLoader.KeptExtends | app/venue_loader.py:303-307 | The order is kept: a longer input only adds places at the end. |
| VenueLoader.KeptDistinct | app/venue_loader.py:303-307 | Places with truthy, pairwise distinct ids pass unchanged. |
| VenueLoader.DedupeIdempotent | app/venue_loader.py:300-307 | Deduplicating twice is deduplicating once. |
| VenueLoader.SetDocument | app/venue_loader.py:192-196 | The `$set` part carries neither `created_at` nor `venue_state`. |
| VenueLoader.VenueCollection.UpdateOne | app/venue_loader.py:193-200 | A matching document gets the `$set` fields; otherwise a new one holds both parts. The result is true exactly when it inserted. |
| VenueLoader.UpsertVenues | app/venue_loader.py:186-205 | The saved and skipped counts add up to the number of venues. The collection and the saved count follow `UpsertAll`. |
| VenueLoader.KeysAfterUpsert | app/venue_loader.py:191-200 | Afterwards the collection holds the old ids and the venues' ids. |
| VenueLoader.SavedCountsNewDocuments | app/venue_loader.py:201-204 | The saved count is the number of documents added, never more than the venues. |
| VenueLoader.ExistingKeepCreation | app/venue_loader.py:197 | `created_at` and `venue_state` of an existing document are never touched. |
| VenueLoader.NewStartsNew | app/venue_loader.py:192-199 | A new document starts in state "new", created at the time of the first venue with its id. |
| VenueLoader.StepKeepsCreation | app/venue_loader.py:193-200 | One upsert leaves the creation fields of an existing document alone. |
| VenueLoader.InsertedEarlier | app/venue_loader.py:193-200 | A document inserted earlier keeps its creation fields through a later upsert. |
| VenueLoader.InsertedByLast | app/venue_loader.py:193-200 | A document the last venue inserts holds both parts, and no earlier venue had its id. |
| VenueLoader.OtherDocumentsUntouched | app/venue_loader.py:191-200 | Documents of other places are left as they were. |
| VenueLoader.ReloadClearsConfiguration | app/venue_loader.py:167-169 | Loading a place again overwrites the stored scraping configuration with nulls. |
| VenueLoader.UpsertWithoutConfiguration | app/venue_loader.py:196 | Upserting a venue without a configuration stores nulls for it. |

## Left out

- **Network, browser and file system.** Crawl4AI, the HTTP streaming of the model
  endpoint and the Places HTTP calls are left out. So are the request headers, the
  API-key check and `sys.exit`. Each is a parameter that returns a result or an
  error.
- **Diagnostics.** Logging, `print` and the diagnostic file that
  `_parse_json_response` writes on failure are left out.
- **Out-of-core functions.** These are not part of this model:
  - `main` in each module;
  - `load_venues`, `load_venues_nearby` and `_print_venues`;
  - the interactive prompts and the database set-up.
- **Venue lookup.** The `$regex` lookup of a single venue by name in `main` is not
  modelled.
- Scraper.SafeCacheSuffix: keeps only ASCII letters and digits besides '-' and '_'.
  Python's `str.isalnum` is Unicode-aware, so the source also keeps letters and digits
  such as 'é', '年' and '２', which the model turns into '_'. Suffixes made only of
  ASCII characters, such as the month labels the pipeline passes, are treated the same.
- **Python integer parsing.** `int()` and `isdigit()` accept only ASCII digits here.
  Other Unicode digits and the underscores Python accepts are not modelled.
- **`str.format`.** The model covers `{{`, `}}`, and the fields `year` and `month`,
  with no spec or a spec of `[0][width][d]`. As in Python, an empty or all-digit field
  name is an IndexError and any other name a KeyError. Some parts of the grammar are
  not modelled: other specs, nested fields inside a spec, a conversion (`!r`), an
  attribute (`.attr`) and an index (`[i]`) after the name. The model gives ValueError
  for each of these, where Python formats or raises as its own rules say.
- **pydantic coercions.** Only the rules stated for each field are modelled. Lax rules
  beyond them are not: for example an `int` read from a numeric string padded with
  whitespace, which the model rejects.
- **JSON text.** JSON parsing and dumping are abstract functions, so nothing is said
  about the JSON text itself.
- **Model replies.** A reply is a function of the request number and the prompts,
  with the prompts given by name. The model's behaviour is not modelled.
- **Clock.** The source reads two clocks. The local `datetime.now()` fixes the periods
  (app/pipeline.py:117). The UTC `datetime.now(timezone.utc)` is read again in every
  extraction call for `scraped_at` (app/extractor.py:372). The model has two parameters,
  `now` for the periods and `scrapedAt` for the whole run. So in the model, every event of
  a run carries the same `scraped_at`; in the source, events of different periods carry
  different times. `Pipeline.ReplyEventsCarryVenue`, `Pipeline.SchedulePageEvents`,
  `Pipeline.SchedulePeriodEvents`, `Pipeline.PeriodicLabelled` and
  `Pipeline.ScheduleEventsLabelled` state `scraped_at == scrapedAt` under this
  simplification; the venue and detail-URL parts do not depend on it.
- Pipeline.JobOf: the stored venue does not tell a null `schedule_url` from a missing
  one, and the model raises TypeError for both. In the source, a missing key raises
  KeyError at `venue["schedule_url"]` (app/pipeline.py:105 and 204), before the
  templated test. A null one raises TypeError in `_url_is_templated`.
- **Custom scripts.** A script's `run` is a function of its arguments. A custom
  kwarg named like a positional parameter of `run`, such as `venue`, is not modelled.
- **Caller's dictionaries.** `_upsert_venues` pops `created_at` from the caller's
  dict. The model builds the `$set` part without it and does not model the mutation
  seen by the caller.
- **Script items.** An item of a script's list that is not an `Event` is assumed to have
  no `model_dump`. An object of another pydantic model would dump and be saved; that
  case is not modelled.
- **Hashing.** In the dedupe, Python equates `True` and `1`. That is not modelled:
  ids compare as JSON values.
- **Venue collection keys.** The collection is keyed by the `google_place_id` value.
  A null id stands for both a null and a missing one, as the query matches both.
- **Per-period errors.** The code has no per-period error handling: an error in any
  period ends the whole strategy, and `scrape_all` catches it per venue. The model
  follows the code.
- **Strategy arguments.** The strategies are modelled with `crawl_schedule` and
  `crawl_detail_pages` called without `content_type`. The as-written call is kept
  as `Pipeline.FirstCrawlAsWritten` (see Findings).
- **Concurrency.** The `async` code runs one awaited call at a time, which is the
  order the model uses. No concurrency is modelled.

## Findings

| source | as written | input that shows it | evidently intended | confidence | as-written member | corrected member |
|---|---|---|---|---|---|---|
| app/pipeline.py:130-138 | `crawl_schedule` is called with `content_type=content_type`, but its signature (app/scraper.py:103-111) has no such parameter. Every period of the schedule strategy raises TypeError before crawling. The same holds for the link-gathering calls at app/pipeline.py:234-242 and 264-271 against app/scraper.py:123-130. | Any venue with strategy "schedule" and a non-null schedule URL that resolves. | The crawl functions accept the content type, or are called without it, and the period crawls and extracts. | not executed | Pipeline.FirstCrawlAsWritten | Pipeline.SchedulePeriodStep |
