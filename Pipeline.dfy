/**
 * The scraping pipeline (app/pipeline.py:88-447): the schedule and
 * link-gathering strategies walk a number of monthly periods, crawling and
 * asking the model in each; the custom strategy hands the venue to a script;
 * `scrape_venue` dispatches on the venue's strategy and saves what comes
 * back; `scrape_all` does that for every eligible venue.
 *
 * The crawler, the model client and the event store are the objects the
 * strategies change. Each method is proved against a function of the state
 * it starts from (`World` for the crawler and the model, `Env` when the
 * store is included).
 */
module Pipeline {
  import opened Common
  import opened Json
  import opened Models
  import opened Prompts
  import opened Extractor
  import opened Scraper
  import Periods
  import opened Links
  import opened Store

  /** A venue document as the pipeline receives it, with the string form of its `_id`. */
  datatype StoredVenue = StoredVenue(id: string, doc: VenueDoc)

  /** What the strategies change: the crawl cache, the crawl log and the model's request log. */
  datatype World = World(files: map<string, string>, fetches: seq<Fetch>, exchanges: seq<Exchange>)

  /** The collaborators the strategies consult: the browser crawl, the model endpoint and the JSON codec. */
  datatype Services = Services(web: (nat, Fetch) -> CrawlResult,
                               complete: (nat, SystemPrompt, UserPrompt) -> Option<string>,
                               codec: JsonCodec)

  /** An outcome together with the world it leaves behind. */
  datatype Step<+T> = Step(result: Result<T>, world: World)

  function WorldOf(crawler: Crawler, client: ModelClient): World
    reads crawler, client
  {
    World(crawler.files, crawler.fetches, client.exchanges)
  }

  function ServicesOf(crawler: Crawler, client: ModelClient, codec: JsonCodec): Services
  {
    Services(crawler.web, client.complete, codec)
  }

  // ---------------------------------------------------------------------
  // The collaborators, as functions of the world
  // ---------------------------------------------------------------------

  /** `crawl_page` once its cache file is named. */
  function CrawlStep(svc: Services, w: World, req: Request, useCache: bool): Step<string>
  {
    var v := VisitPage(svc.web, w.files, w.fetches, req.name, req.fetch, useCache);
    Step(v.content, World(v.files, v.fetches, w.exchanges))
  }

  /** `crawl_detail_pages` once the cache files are named. */
  function CrawlAllStep(svc: Services, w: World, reqs: seq<Request>, useCache: bool): Step<seq<string>>
  {
    var all := VisitAll(svc.web, w.files, w.fetches, reqs, useCache);
    Step(all.contents, World(all.files, all.fetches, w.exchanges))
  }

  /** The world after one more model request. */
  function Asked(svc: Services, w: World, system: SystemPrompt, user: UserPrompt): World
  {
    w.(exchanges := w.exchanges + [Exchange(system, user, svc.complete(|w.exchanges|, system, user))])
  }

  /** `extract_events` / `extract_events_combined` as one request. */
  function AskEvents(svc: Services, w: World, system: SystemPrompt, user: UserPrompt, venueId: string,
                     scrapedAt: DateTime): Step<seq<Event>>
  {
    Step(ReplyEvents(svc.complete, svc.codec, |w.exchanges|, system, user, venueId, scrapedAt),
         Asked(svc, w, system, user))
  }

  /** `extract_links` as one request. */
  function AskLinks(svc: Services, w: World, user: UserPrompt): Step<seq<JValue>>
  {
    Step(ReplyLinks(svc.complete, svc.codec, |w.exchanges|, user), Asked(svc, w, LinkInstructions, user))
  }

  /** Every event of a parsed reply carries the venue and the one timestamp it was parsed with. */
  lemma ReplyEventsCarryVenue(complete: (nat, SystemPrompt, UserPrompt) -> Option<string>, codec: JsonCodec, n: nat,
                              system: SystemPrompt, user: UserPrompt, venueId: string, now: DateTime)
    ensures var r := ReplyEvents(complete, codec, n, system, user, venueId, now);
            r.Ok? ==> forall e :: e in r.value ==> e.venueId == venueId && e.scrapedAt == now
  {
    var a := Answer(complete, n, system, user);
    if a.Ok? {
      var parsed := ParsedReply(codec, a.value);
      if parsed.Some? && !parsed.value.JNull? {
        var unwrapped := Unwrap(parsed.value, WrapperKeys(false));
        if unwrapped.JArr? {
          EventsFromItemsProperties(codec, unwrapped.items, venueId, now);
        }
      }
    }
  }

  // ---------------------------------------------------------------------
  // Periods (app/pipeline.py:112-128, 215-231)
  // ---------------------------------------------------------------------

  /** One period: the schedule URL for its month, and the cache suffix (the month label, only for a templated URL). */
  datatype Period = Period(url: string, suffix: Option<string>)

  /**
   * The period `offset` months after `now`: the URL resolved at
   * `_add_months(now, offset)`. A plain URL is used as it is and without a
   * suffix.
   */
  function PeriodAt(template: string, now: DateTime, offset: int): (r: Result<Period>)
    ensures r.Ok? ==> Periods.MonthsLater(now, offset).Ok?
    ensures r.Ok? && !Periods.IsTemplated(template) ==> r.value == Period(template, None)
    ensures r.Ok? && Periods.IsTemplated(template) ==>
              var target := Periods.MonthsLater(now, offset).value;
              Periods.Format(template, target.year, target.month) == Ok(r.value.url) &&
              r.value.suffix == Some(Periods.MonthLabel(target))
    ensures r.Ok? && template != [] ==> r.value.url != []
  {
    var target := Periods.MonthsLater(now, offset);
    if target.Err? then Err(target.error)
    else
      Periods.MonthsLaterShape(now, offset);
      var url := Periods.ResolveScheduleUrl(template, target.value);
      if url.Err? then Err(url.error)
      else Ok(Period(url.value, if Periods.IsTemplated(template) then Some(Periods.MonthLabel(target.value)) else None))
  }

  /** The head of the period loop: the target month, the label and the resolved URL. */
  method ResolvePeriod(template: string, now: DateTime, offset: int) returns (r: Result<Period>)
    ensures r == PeriodAt(template, now, offset)
  {
    var target := Periods.AddMonths(now, offset);
    if target.Err? {
      return Err(target.error);
    }
    Periods.MonthsLaterShape(now, offset);
    var url := Periods.ResolveScheduleUrl(template, target.value);
    if url.Err? {
      return Err(url.error);
    }
    var suffix := if Periods.IsTemplated(template) then Some(Periods.MonthLabel(target.value)) else None;
    return Ok(Period(url.value, suffix));
  }

  // ---------------------------------------------------------------------
  // What a strategy reads from the venue
  // ---------------------------------------------------------------------

  /** The venue settings a periodic strategy works with, and the run's parameters. */
  datatype Job = Job(
    venueId: string,
    venueName: string,
    template: string,
    instructions: Option<string>,
    scheduleCss: Option<string>,
    scheduleSchema: Option<JValue>,
    detailCss: Option<string>,
    detailSchema: Option<JValue>,
    skipLlmForLinks: bool,
    now: DateTime,
    useCache: bool,
    scrapedAt: DateTime)

  /** The settings read at the top of both periodic strategies; a null schedule URL fails the templated test. */
  function JobOf(v: StoredVenue, now: DateTime, useCache: bool, scrapedAt: DateTime): (r: Result<Job>)
    ensures r.Err? <==> v.doc.scheduleUrl.None?
    ensures r.Err? ==> r.error.TypeError?
    ensures r.Ok? ==> r.value.venueId == v.id && r.value.template == v.doc.scheduleUrl.value
  {
    if v.doc.scheduleUrl.None? then Err(TypeError("argument of type 'NoneType' is not iterable"))
    else
      Ok(Job(v.id, v.doc.name, v.doc.scheduleUrl.value, v.doc.scrapingInstructions,
             v.doc.scheduleCssSelector, v.doc.scheduleJsonCssSchema,
             v.doc.detailCssSelector, v.doc.detailJsonCssSchema, v.doc.skipLlmForLinks,
             now, useCache, scrapedAt))
  }

  /** The crawl of a period's schedule page. */
  function ScheduleRequest(job: Job, p: Period): Request
  {
    Request(CacheFileName(p.url, p.suffix, job.scheduleSchema), Fetch(p.url, job.scheduleCss, job.scheduleSchema))
  }

  // ---------------------------------------------------------------------
  // The detail_url backfill (app/pipeline.py:149-151, 302-306)
  // ---------------------------------------------------------------------

  function Fill(e: Event, url: string): Event
  {
    if IsTruthyText(e.detailUrl) then e else e.(detailUrl := Some(url))
  }

  /**
   * An event without a detail URL gets `url`; the others are left alone,
   * and nothing but the detail URL changes.
   */
  function Backfilled(events: seq<Event>, url: string): (r: seq<Event>)
    ensures |r| == |events|
    ensures forall i :: 0 <= i < |r| ==> r[i].(detailUrl := events[i].detailUrl) == events[i]
    ensures forall i :: 0 <= i < |r| && IsTruthyText(events[i].detailUrl) ==> r[i] == events[i]
    ensures forall i :: 0 <= i < |r| && !IsTruthyText(events[i].detailUrl) ==> r[i].detailUrl == Some(url)
    ensures url != [] ==> forall i :: 0 <= i < |r| ==> IsTruthyText(r[i].detailUrl)
  {
    seq(|events|, i requires 0 <= i < |events| => Fill(events[i], url))
  }

  /** The backfill loop: each event without a detail URL is given one, in place. */
  method Backfill(events: seq<Event>, url: string) returns (filled: seq<Event>)
    ensures filled == Backfilled(events, url)
  {
    filled := events;
    var i := 0;
    while i < |filled|
      invariant 0 <= i <= |filled| == |events|
      invariant forall j :: 0 <= j < i ==> filled[j] == Fill(events[j], url)
      invariant forall j :: i <= j < |filled| ==> filled[j] == events[j]
    {
      if !IsTruthyText(filled[i].detailUrl) {
        filled := filled[i := filled[i].(detailUrl := Some(url))];
      }
      i := i + 1;
    }
    assert forall j :: 0 <= j < |filled| ==> filled[j] == Backfilled(events, url)[j];
  }

  // ---------------------------------------------------------------------
  // One period of the schedule strategy (app/pipeline.py:119-154)
  // ---------------------------------------------------------------------

  /** A period's schedule page: crawl it, ask for its events, and backfill their detail URL with the page URL. */
  function FromSchedulePage(svc: Services, w: World, job: Job, p: Period): Step<seq<Event>>
  {
    var c := CrawlStep(svc, w, ScheduleRequest(job, p), job.useCache);
    if c.result.Err? then Step(Err(c.result.error), c.world)
    else
      var user := PagePrompt(c.result.value, job.venueName, job.instructions, SchedulePage, None, None,
                              job.scheduleSchema.Some?);
      var e := AskEvents(svc, c.world, SystemPromptFor(SchedulePage), user, job.venueId, job.scrapedAt);
      if e.result.Err? then e else Step(Ok(Backfilled(e.result.value, p.url)), e.world)
  }

  /** One period of the schedule strategy: resolve the period, then read its schedule page. */
  function SchedulePeriod(svc: Services, w: World, job: Job, offset: int): Step<seq<Event>>
  {
    var p := PeriodAt(job.template, job.now, offset);
    if p.Err? then Step(Err(p.error), w) else FromSchedulePage(svc, w, job, p.value)
  }

  method SchedulePageStep(crawler: Crawler, client: ModelClient, codec: JsonCodec, job: Job, p: Period)
    returns (r: Result<seq<Event>>)
    modifies crawler, client
    ensures var s := FromSchedulePage(ServicesOf(crawler, client, codec), old(WorldOf(crawler, client)), job, p);
            r == s.result && WorldOf(crawler, client) == s.world
  {
    var content := crawler.CrawlSchedule(job.venueName, p.url, job.useCache, p.suffix,
                                         job.scheduleCss, job.scheduleSchema, []);
    if content.Err? {
      return Err(content.error);
    }
    var events := ExtractEvents(client, codec, content.value, job.venueId, job.venueName, job.instructions,
                                SchedulePage, None, None, job.scheduleSchema.Some?, job.scrapedAt);
    if events.Err? {
      return events;
    }
    var filled := Backfill(events.value, p.url);
    return Ok(filled);
  }

  method SchedulePeriodStep(crawler: Crawler, client: ModelClient, codec: JsonCodec, job: Job, offset: int,
                     ghost period: (World, int) -> Step<seq<Event>>)
    returns (r: Result<seq<Event>>)
    requires forall w: World, o: int {:trigger SchedulePeriod(ServicesOf(crawler, client, codec), w, job, o)} ::
               period(w, o) == SchedulePeriod(ServicesOf(crawler, client, codec), w, job, o)
    modifies crawler, client
    ensures var s := period(old(WorldOf(crawler, client)), offset);
            r == s.result && WorldOf(crawler, client) == s.world
  {
    assert period(WorldOf(crawler, client), offset) == SchedulePeriod(ServicesOf(crawler, client, codec), WorldOf(crawler, client), job, offset);
    var p := ResolvePeriod(job.template, job.now, offset);
    if p.Err? {
      return Err(p.error);
    }
    r := SchedulePageStep(crawler, client, codec, job, p.value);
  }

  // ---------------------------------------------------------------------
  // One period of the link-gathering strategy (app/pipeline.py:222-309)
  // ---------------------------------------------------------------------

  function AsJsonStrings(urls: seq<string>): (r: seq<JValue>)
    ensures |r| == |urls| && forall i :: 0 <= i < |r| ==> r[i] == JStr(urls[i])
  {
    seq(|urls|, i requires 0 <= i < |urls| => JStr(urls[i]))
  }

  /** `[lr["url"] for lr in link_results if lr.get("url")]`: the "url" value of every link item. */
  function UrlValues(links: seq<JValue>): (r: seq<JValue>)
    ensures |r| == |links|
    ensures forall i :: 0 <= i < |r| && IsLink(links[i]) ==> r[i] == links[i].fields["url"] && Truthy(r[i])
  {
    seq(|links|, i requires 0 <= i < |links| => if links[i].JObj? then GetOr(links[i].fields, "url", JNull) else JNull)
  }

  /** Step 2: the detail links, read from the schedule page directly or asked of the model. */
  function DiscoveredLinks(svc: Services, w: World, job: Job, content: string): Step<seq<JValue>>
  {
    if job.skipLlmForLinks then
      Step(Ok(AsJsonStrings(if job.scheduleSchema.Some? then JsonLinks(svc.codec, content) else MarkdownUrls(content))), w)
    else
      var a := AskLinks(svc, w, LinksPrompt(content, job.venueName, job.instructions, job.scheduleSchema.Some?));
      if a.result.Err? then Step(Err(a.result.error), a.world) else Step(Ok(UrlValues(a.result.value)), a.world)
  }

  method DiscoverLinks(crawler: Crawler, client: ModelClient, codec: JsonCodec, job: Job, content: string)
    returns (r: Result<seq<JValue>>)
    modifies client
    ensures var d := DiscoveredLinks(ServicesOf(crawler, client, codec), old(WorldOf(crawler, client)), job, content);
            r == d.result && WorldOf(crawler, client) == d.world
  {
    if job.skipLlmForLinks {
      var urls: seq<string>;
      if job.scheduleSchema.Some? {
        urls := ParseLinksFromJson(codec, content);
      } else {
        urls := MarkdownUrls(content);
      }
      return Ok(AsJsonStrings(urls));
    }
    var links := ExtractLinks(client, codec, content, job.venueName, job.instructions, job.scheduleSchema.Some?);
    if links.Err? {
      return Err(links.error);
    }
    return Ok(UrlValues(links.value));
  }

  /** The leading string values of a list: the URLs that can be crawled before one that is not a string. */
  function TextPrefix(values: seq<JValue>): (r: seq<string>)
    ensures |r| <= |values|
    ensures forall i :: 0 <= i < |r| ==> values[i] == JStr(r[i])
    ensures |r| < |values| ==> !values[|r|].JStr?
  {
    if values == [] || !values[0].JStr? then [] else [values[0].s] + TextPrefix(values[1..])
  }

  /** Step 4: the detail pages as one document, merged as JSON or labelled as text. */
  function Combined(codec: JsonCodec, job: Job, urls: seq<string>, pages: seq<string>): string
  {
    if job.detailSchema.Some? then codec.dump(JArr(MergedItems(codec, pages))) else CombinedText(urls, pages)
  }

  /**
   * Steps 3 to 5: crawl every detail page in order (a URL that is not a
   * string has no `replace` and fails the crawl), combine the pages, ask for
   * their events in one request, and backfill the detail URL only when there
   * was exactly one page.
   */
  function DetailEvents(svc: Services, w: World, job: Job, values: seq<JValue>): Step<seq<Event>>
  {
    var urls := TextPrefix(values);
    var pages := CrawlAllStep(svc, w, DetailRequests(urls, job.detailCss, job.detailSchema), job.useCache);
    if pages.result.Err? then Step(Err(pages.result.error), pages.world)
    else if |urls| < |values| then Step(Err(AttributeError("replace")), pages.world)
    else
      var combined := Combined(svc.codec, job, urls, pages.result.value);
      var e := AskEvents(svc, pages.world, CombinedInstructions,
                         CombinedPagesPrompt(combined, job.venueName, job.instructions, job.detailSchema.Some?),
                         job.venueId, job.scrapedAt);
      if e.result.Err? then e
      else Step(Ok(if |urls| == 1 then Backfilled(e.result.value, urls[0]) else e.result.value), e.world)
  }

  method DetailEventsStep(crawler: Crawler, client: ModelClient, codec: JsonCodec, job: Job, values: seq<JValue>)
    returns (r: Result<seq<Event>>)
    modifies crawler, client
    ensures var s := DetailEvents(ServicesOf(crawler, client, codec), old(WorldOf(crawler, client)), job, values);
            r == s.result && WorldOf(crawler, client) == s.world
  {
    var urls := TextPrefix(values);
    var pages := crawler.CrawlDetailPages(job.venueName, urls, job.useCache, job.detailCss, job.detailSchema, []);
    if pages.Err? {
      return Err(pages.error);
    }
    if |urls| < |values| {
      return Err(AttributeError("replace"));
    }
    var combined: string;
    if job.detailSchema.Some? {
      combined := MergeJsonPages(codec, pages.value);
    } else {
      combined := CombineText(urls, pages.value);
    }
    var events := ExtractEventsCombined(client, codec, combined, job.venueId, job.venueName, job.instructions,
                                        job.detailSchema.Some?, job.scrapedAt);
    if events.Err? {
      return events;
    }
    if |urls| == 1 {
      var filled := Backfill(events.value, urls[0]);
      return Ok(filled);
    }
    return events;
  }

  /**
   * A period's schedule page in the link-gathering strategy: crawl it, find
   * the detail links, and stop with no events when there are none.
   */
  function FromLinkedPages(svc: Services, w: World, job: Job, p: Period): Step<seq<Event>>
  {
    var c := CrawlStep(svc, w, ScheduleRequest(job, p), job.useCache);
    if c.result.Err? then Step(Err(c.result.error), c.world)
    else
      var d := DiscoveredLinks(svc, c.world, job, c.result.value);
      if d.result.Err? then Step(Err(d.result.error), d.world)
      else if d.result.value == [] then Step(Ok([]), d.world)
      else DetailEvents(svc, d.world, job, d.result.value)
  }

  /** One period of the link-gathering strategy: resolve the period, then follow its schedule page's links. */
  function LinkPeriod(svc: Services, w: World, job: Job, offset: int): Step<seq<Event>>
  {
    var p := PeriodAt(job.template, job.now, offset);
    if p.Err? then Step(Err(p.error), w) else FromLinkedPages(svc, w, job, p.value)
  }

  method LinkedPagesStep(crawler: Crawler, client: ModelClient, codec: JsonCodec, job: Job, p: Period)
    returns (r: Result<seq<Event>>)
    modifies crawler, client
    ensures var s := FromLinkedPages(ServicesOf(crawler, client, codec), old(WorldOf(crawler, client)), job, p);
            r == s.result && WorldOf(crawler, client) == s.world
  {
    var content := crawler.CrawlSchedule(job.venueName, p.url, job.useCache, p.suffix,
                                         job.scheduleCss, job.scheduleSchema, []);
    if content.Err? {
      return Err(content.error);
    }
    var links := DiscoverLinks(crawler, client, codec, job, content.value);
    if links.Err? {
      return Err(links.error);
    }
    if links.value == [] {
      return Ok([]);
    }
    r := DetailEventsStep(crawler, client, codec, job, links.value);
  }

  method LinkPeriodStep(crawler: Crawler, client: ModelClient, codec: JsonCodec, job: Job, offset: int,
                     ghost period: (World, int) -> Step<seq<Event>>)
    returns (r: Result<seq<Event>>)
    requires forall w: World, o: int {:trigger LinkPeriod(ServicesOf(crawler, client, codec), w, job, o)} ::
               period(w, o) == LinkPeriod(ServicesOf(crawler, client, codec), w, job, o)
    modifies crawler, client
    ensures var s := period(old(WorldOf(crawler, client)), offset);
            r == s.result && WorldOf(crawler, client) == s.world
  {
    assert period(WorldOf(crawler, client), offset) == LinkPeriod(ServicesOf(crawler, client, codec), WorldOf(crawler, client), job, offset);
    var p := ResolvePeriod(job.template, job.now, offset);
    if p.Err? {
      return Err(p.error);
    }
    r := LinkedPagesStep(crawler, client, codec, job, p.value);
  }

  /** A schedule page with no links found makes no detail crawl and at most the one link request. */
  lemma NoLinksNoDetailWork(svc: Services, w: World, job: Job, p: Period)
    ensures var c := CrawlStep(svc, w, ScheduleRequest(job, p), job.useCache);
            var s := FromLinkedPages(svc, w, job, p);
            c.result.Ok? && DiscoveredLinks(svc, c.world, job, c.result.value).result == Ok([]) ==>
              s.result == Ok([]) && s.world.fetches == c.world.fetches && s.world.files == c.world.files &&
              |s.world.exchanges| <= |w.exchanges| + 1 &&
              forall i :: |w.exchanges| <= i < |s.world.exchanges| ==> s.world.exchanges[i].system == LinkInstructions
  {
  }

  // ---------------------------------------------------------------------
  // The period loop (app/pipeline.py:113-156, 216-311)
  // ---------------------------------------------------------------------

  /** The two strategies that walk periods. */
  datatype Walk = SchedulePages | GatherLinks

  /** `range(months)` once `months` is settled: one period for a plain URL. */
  function PeriodTotal(job: Job, months: Option<int>): int
  {
    Periods.PeriodCount(Periods.IsTemplated(job.template), months)
  }

  /** `events` in front of what follows, unless what follows failed. */
  function Prefixed(events: seq<Event>, rest: Step<seq<Event>>): Step<seq<Event>>
  {
    if rest.result.Err? then rest else Step(Ok(events + rest.result.value), rest.world)
  }

  /**
   * The periods from `offset` up to `total`, each run by `period` in the
   * world the one before left behind, their events concatenated in order;
   * the first failing period ends the walk with its error.
   */
  function Periodic(period: (World, int) -> Step<seq<Event>>, w: World, total: int, offset: nat): Step<seq<Event>>
    decreases total - offset
  {
    if offset >= total then Step(Ok([]), w)
    else
      var s := period(w, offset);
      if s.result.Err? then s else Prefixed(s.result.value, Periodic(period, s.world, total, offset + 1))
  }

  /** The period each strategy runs. */
  function PeriodOf(svc: Services, job: Job, walk: Walk): (World, int) -> Step<seq<Event>>
  {
    match walk
    case SchedulePages => (w, offset) => SchedulePeriod(svc, w, job, offset)
    case GatherLinks => (w, offset) => LinkPeriod(svc, w, job, offset)
  }

  /** The walk of a strategy: the venue's settings, then every period from the first. */
  function StrategyRun(svc: Services, w: World, v: StoredVenue, walk: Walk, months: Option<int>, now: DateTime,
                       useCache: bool, scrapedAt: DateTime): Step<seq<Event>>
  {
    var job := JobOf(v, now, useCache, scrapedAt);
    if job.Err? then Step(Err(job.error), w)
    else Periodic(PeriodOf(svc, job.value, walk), w, PeriodTotal(job.value, months), 0)
  }

  /** One turn of a period loop, as the loop sees it: the events so far, then this period, then the rest. */
  lemma PeriodicStep(period: (World, int) -> Step<seq<Event>>, w: World, total: int, offset: nat, done: seq<Event>)
    requires offset < total
    ensures var s := period(w, offset);
            s.result.Err? ==> Prefixed(done, Periodic(period, w, total, offset)) == s
    ensures var s := period(w, offset);
            s.result.Ok? ==> Prefixed(done, Periodic(period, w, total, offset)) ==
                             Prefixed(done + s.result.value, Periodic(period, s.world, total, offset + 1))
  {
    var s := period(w, offset);
    if s.result.Ok? {
      var rest := Periodic(period, s.world, total, offset + 1);
      assert rest.result.Ok? ==> done + (s.result.value + rest.result.value) == done + s.result.value + rest.result.value;
    }
  }

  /**
   * The loop of `_run_schedule_strategy` over `range(months)`: each period's
   * events are appended; an error ends it. `period` is the schedule period
   * (`PeriodOf` with `SchedulePages`), passed as a value so that the loop
   * reasons about the walk without the periods' details.
   */
  method RunSchedulePeriods(crawler: Crawler, client: ModelClient, codec: JsonCodec, job: Job, months: Option<int>,
                            ghost period: (World, int) -> Step<seq<Event>>)
    returns (r: Result<seq<Event>>)
    requires forall w: World, o: int {:trigger SchedulePeriod(ServicesOf(crawler, client, codec), w, job, o)} ::
               period(w, o) == SchedulePeriod(ServicesOf(crawler, client, codec), w, job, o)
    modifies crawler, client
    ensures var s := Periodic(period, old(WorldOf(crawler, client)), PeriodTotal(job, months), 0);
            r == s.result && WorldOf(crawler, client) == s.world
  {
    ghost var whole := Periodic(period, WorldOf(crawler, client), PeriodTotal(job, months), 0);
    var count := Periods.PeriodCount(Periods.IsTemplated(job.template), months);
    var all: seq<Event> := [];
    var offset: nat := 0;
    assert whole.result.Ok? ==> [] + whole.result.value == whole.result.value;
    while offset < count
      invariant count == PeriodTotal(job, months)
      invariant Prefixed(all, Periodic(period, WorldOf(crawler, client), count, offset)) == whole
      decreases count - offset
    {
      PeriodicStep(period, WorldOf(crawler, client), count, offset, all);
      var events := SchedulePeriodStep(crawler, client, codec, job, offset, period);
      if events.Err? {
        return Err(events.error);
      }
      all := all + events.value;
      offset := offset + 1;
    }
    assert all + [] == all;
    return Ok(all);
  }

  /** The loop of `_run_link_gathering_strategy`, the same walk over link-gathering periods. */
  method RunLinkPeriods(crawler: Crawler, client: ModelClient, codec: JsonCodec, job: Job, months: Option<int>,
                        ghost period: (World, int) -> Step<seq<Event>>)
    returns (r: Result<seq<Event>>)
    requires forall w: World, o: int {:trigger LinkPeriod(ServicesOf(crawler, client, codec), w, job, o)} ::
               period(w, o) == LinkPeriod(ServicesOf(crawler, client, codec), w, job, o)
    modifies crawler, client
    ensures var s := Periodic(period, old(WorldOf(crawler, client)), PeriodTotal(job, months), 0);
            r == s.result && WorldOf(crawler, client) == s.world
  {
    ghost var whole := Periodic(period, WorldOf(crawler, client), PeriodTotal(job, months), 0);
    var count := Periods.PeriodCount(Periods.IsTemplated(job.template), months);
    var all: seq<Event> := [];
    var offset: nat := 0;
    assert whole.result.Ok? ==> [] + whole.result.value == whole.result.value;
    while offset < count
      invariant count == PeriodTotal(job, months)
      invariant Prefixed(all, Periodic(period, WorldOf(crawler, client), count, offset)) == whole
      decreases count - offset
    {
      PeriodicStep(period, WorldOf(crawler, client), count, offset, all);
      var events := LinkPeriodStep(crawler, client, codec, job, offset, period);
      if events.Err? {
        return Err(events.error);
      }
      all := all + events.value;
      offset := offset + 1;
    }
    assert all + [] == all;
    return Ok(all);
  }

  /** `_run_schedule_strategy` and `_run_link_gathering_strategy`: the settings, then the period loop. */
  method RunStrategy(crawler: Crawler, client: ModelClient, codec: JsonCodec, v: StoredVenue, walk: Walk,
                     months: Option<int>, now: DateTime, useCache: bool, scrapedAt: DateTime)
    returns (r: Result<seq<Event>>)
    modifies crawler, client
    ensures var s := StrategyRun(ServicesOf(crawler, client, codec), old(WorldOf(crawler, client)), v, walk, months,
                                 now, useCache, scrapedAt);
            r == s.result && WorldOf(crawler, client) == s.world
  {
    var job := JobOf(v, now, useCache, scrapedAt);
    if job.Err? {
      return Err(job.error);
    }
    ghost var svc := ServicesOf(crawler, client, codec);
    ghost var period := PeriodOf(svc, job.value, walk);
    match walk {
      case SchedulePages =>
        forall w: World, o: int ensures period(w, o) == SchedulePeriod(svc, w, job.value, o) {}
        r := RunSchedulePeriods(crawler, client, codec, job.value, months, period);
      case GatherLinks =>
        forall w: World, o: int ensures period(w, o) == LinkPeriod(svc, w, job.value, o) {}
        r := RunLinkPeriods(crawler, client, codec, job.value, months, period);
    }
  }

  // ---------------------------------------------------------------------
  // What the periodic strategies promise
  // ---------------------------------------------------------------------

  /** `after` is `before` with one more model request, made with `system`. */
  predicate OneRequest(before: World, after: World, system: SystemPrompt)
  {
    |after.exchanges| == |before.exchanges| + 1 &&
    after.exchanges[..|before.exchanges|] == before.exchanges &&
    after.exchanges[|before.exchanges|].system == system
  }

  /** A schedule page that is read makes exactly one request to the model, for schedule-page events. */
  lemma SchedulePageOneRequest(svc: Services, w: World, job: Job, p: Period)
    ensures var s := FromSchedulePage(svc, w, job, p);
            s.result.Ok? ==> OneRequest(w, s.world, ScheduleInstructions)
  {
  }

  /** A schedule period that succeeds makes exactly one request to the model, for schedule-page events. */
  lemma SchedulePeriodOneRequest(svc: Services, w: World, job: Job, offset: int)
    ensures var s := SchedulePeriod(svc, w, job, offset);
            s.result.Ok? ==> OneRequest(w, s.world, ScheduleInstructions)
  {
    var p := PeriodAt(job.template, job.now, offset);
    if p.Ok? {
      SchedulePageOneRequest(svc, w, job, p.value);
    }
  }

  /** Every period that succeeds makes exactly one model request, with `system`. */
  ghost predicate EachPeriodOneRequest(period: (World, int) -> Step<seq<Event>>, system: SystemPrompt)
  {
    forall w: World, offset: int :: period(w, offset).result.Ok? ==> OneRequest(w, period(w, offset).world, system)
  }

  /**
   * A walk that succeeds, over periods that each make one request, makes one
   * request per remaining period and leaves the earlier requests alone.
   */
  lemma {:induction false} PeriodicRequests(period: (World, int) -> Step<seq<Event>>, w: World, total: int,
                                            offset: nat, system: SystemPrompt)
    requires EachPeriodOneRequest(period, system)
    ensures var s := Periodic(period, w, total, offset);
            s.result.Ok? ==> |s.world.exchanges| == |w.exchanges| + (if offset < total then total - offset else 0) &&
                             s.world.exchanges[..|w.exchanges|] == w.exchanges &&
                             forall i :: |w.exchanges| <= i < |s.world.exchanges| ==> s.world.exchanges[i].system == system
    decreases total - offset
  {
    if offset < total {
      var p := period(w, offset);
      if p.result.Ok? {
        PeriodicRequests(period, p.world, total, offset + 1, system);
        var s := Periodic(period, p.world, total, offset + 1);
        if s.result.Ok? {
          assert s.world.exchanges[..|w.exchanges|] == s.world.exchanges[..|p.world.exchanges|][..|w.exchanges|];
        }
      }
    }
  }

  /**
   * A schedule walk that succeeds makes one model request per remaining
   * period, each for schedule-page events, and leaves the earlier requests
   * alone.
   */
  lemma ScheduleOneRequestPerPeriod(svc: Services, w: World, job: Job, months: Option<int>, offset: nat)
    ensures var s := Periodic(PeriodOf(svc, job, SchedulePages), w, PeriodTotal(job, months), offset);
            var total := PeriodTotal(job, months);
            s.result.Ok? ==> |s.world.exchanges| == |w.exchanges| + (if offset < total then total - offset else 0) &&
                             s.world.exchanges[..|w.exchanges|] == w.exchanges &&
                             forall i :: |w.exchanges| <= i < |s.world.exchanges| ==>
                               s.world.exchanges[i].system == ScheduleInstructions
  {
    var period := PeriodOf(svc, job, SchedulePages);
    forall w': World, o: int
      ensures period(w', o).result.Ok? ==> OneRequest(w', period(w', o).world, ScheduleInstructions)
    {
      SchedulePeriodOneRequest(svc, w', job, o);
    }
    PeriodicRequests(period, w, PeriodTotal(job, months), offset, ScheduleInstructions);
  }

  /** An event of the venue, stamped with the run's time, with a detail URL. */
  predicate Labelled(job: Job, e: Event)
  {
    e.venueId == job.venueId && e.scrapedAt == job.scrapedAt && IsTruthyText(e.detailUrl)
  }

  /** Every event of a schedule page that is read carries the venue id and, for a non-empty URL, a detail URL. */
  lemma SchedulePageEvents(svc: Services, w: World, job: Job, p: Period)
    requires p.url != []
    ensures var s := FromSchedulePage(svc, w, job, p);
            s.result.Ok? ==> forall e :: e in s.result.value ==> Labelled(job, e)
  {
    var c := CrawlStep(svc, w, ScheduleRequest(job, p), job.useCache);
    if c.result.Ok? {
      var user := PagePrompt(c.result.value, job.venueName, job.instructions, SchedulePage, None, None,
                              job.scheduleSchema.Some?);
      ReplyEventsCarryVenue(svc.complete, svc.codec, |c.world.exchanges|, SystemPromptFor(SchedulePage), user,
                            job.venueId, job.scrapedAt);
      var r := ReplyEvents(svc.complete, svc.codec, |c.world.exchanges|, SystemPromptFor(SchedulePage), user,
                           job.venueId, job.scrapedAt);
      if r.Ok? {
        var filled := Backfilled(r.value, p.url);
        forall e | e in filled
          ensures Labelled(job, e)
        {
          var i :| 0 <= i < |filled| && filled[i] == e;
          assert r.value[i] in r.value;
        }
      }
    }
  }

  /** Every event of a successful schedule period is labelled, when the schedule URL is not empty. */
  lemma SchedulePeriodEvents(svc: Services, w: World, job: Job, offset: int)
    requires job.template != []
    ensures var s := SchedulePeriod(svc, w, job, offset);
            s.result.Ok? ==> forall e :: e in s.result.value ==> Labelled(job, e)
  {
    var p := PeriodAt(job.template, job.now, offset);
    if p.Ok? {
      SchedulePageEvents(svc, w, job, p.value);
    }
  }

  /** Every event of every period that succeeds is labelled. */
  ghost predicate EachPeriodLabelled(period: (World, int) -> Step<seq<Event>>, job: Job)
  {
    forall w: World, offset: int :: period(w, offset).result.Ok? ==>
      forall e :: e in period(w, offset).result.value ==> Labelled(job, e)
  }

  /** A walk over periods whose events are all labelled returns only labelled events. */
  lemma {:induction false} PeriodicLabelled(period: (World, int) -> Step<seq<Event>>, job: Job, w: World, total: int,
                                            offset: nat)
    requires EachPeriodLabelled(period, job)
    ensures var s := Periodic(period, w, total, offset);
            s.result.Ok? ==> forall e :: e in s.result.value ==> Labelled(job, e)
    decreases total - offset
  {
    if offset < total {
      var p := period(w, offset);
      if p.result.Ok? {
        PeriodicLabelled(period, job, p.world, total, offset + 1);
      }
    }
  }

  /**
   * Every event the schedule strategy returns, over all periods, carries the
   * venue id and the run's timestamp and has a detail URL (the period's URL
   * when the model gave none).
   */
  lemma ScheduleEventsLabelled(svc: Services, w: World, job: Job, months: Option<int>, offset: nat)
    requires job.template != []
    ensures var s := Periodic(PeriodOf(svc, job, SchedulePages), w, PeriodTotal(job, months), offset);
            s.result.Ok? ==> forall e :: e in s.result.value ==> Labelled(job, e)
  {
    var period := PeriodOf(svc, job, SchedulePages);
    forall w': World, o: int
      ensures period(w', o).result.Ok? ==> forall e :: e in period(w', o).result.value ==> Labelled(job, e)
    {
      SchedulePeriodEvents(svc, w', job, o);
    }
    PeriodicLabelled(period, job, w, PeriodTotal(job, months), offset);
  }

  /** `range(months)` with a count that is not positive walks no period, in either strategy. */
  lemma NoPeriodsWithoutCount(svc: Services, w: World, job: Job, months: Option<int>, walk: Walk)
    requires PeriodTotal(job, months) <= 0
    ensures Periodic(PeriodOf(svc, job, walk), w, PeriodTotal(job, months), 0) == Step(Ok([]), w)
  {
  }

  // ---------------------------------------------------------------------
  // The content_type keyword (app/pipeline.py:130-138, 234-242, 264-271)
  // ---------------------------------------------------------------------

  /**
   * The first crawl of every period, as written: `crawl_schedule` is called
   * with `content_type=`, which it does not accept, so the call raises
   * TypeError before anything is crawled, in both periodic strategies.
   */
  method FirstCrawlAsWritten(crawler: Crawler, job: Job, offset: int) returns (r: Result<string>)
    modifies crawler
    ensures PeriodAt(job.template, job.now, offset).Ok? ==>
              r.Err? && r.error.TypeError? && crawler.files == old(crawler.files) && crawler.fetches == old(crawler.fetches)
  {
    var p := ResolvePeriod(job.template, job.now, offset);
    if p.Err? {
      return Err(p.error);
    }
    r := crawler.CrawlSchedule(job.venueName, p.value.url, job.useCache, p.value.suffix,
                               job.scheduleCss, job.scheduleSchema, ["content_type"]);
  }

  // ---------------------------------------------------------------------
  // The custom strategy (app/pipeline.py:327-371)
  // ---------------------------------------------------------------------

  /**
   * What a strategy hands to `_save_events`: a list whose leading items are
   * the `Event`s `events`; `stray` when another kind of item follows them
   * (only a custom script can return one).
   */
  datatype EventBatch = EventBatch(events: seq<Event>, stray: bool)

  /** What awaiting a script's `run()` gives: it raises, returns something other than a list, or returns a list. */
  datatype ScriptOutcome = Raises | ReturnsNonList | ReturnsList(batch: EventBatch)

  /** What importing a script module gives: the module with or without `run`, or an import error. */
  datatype ScriptModule =
    | Module(run: Option<(StoredVenue, bool, map<string, JValue>) -> ScriptOutcome>)
    | ImportFails(notFound: bool, error: Error)

  /** The empty list. */
  const NoEvents := EventBatch([], false)

  /** The module a script name is imported as. */
  function ModuleName(script: string): string
  {
    "scripts." + script
  }

  /**
   * The keyword arguments `**(custom_kwargs or {})` adds to the call, or
   * None when the call cannot bind them: a value that is not a mapping, or a
   * second `use_cache`.
   */
  function ScriptKwargs(kwargs: Option<JValue>): (r: Option<map<string, JValue>>)
    ensures kwargs.None? ==> r == Some(map[])
    ensures r.Some? ==> "use_cache" !in r.value
  {
    var k := if kwargs.None? || !Truthy(kwargs.value) then JObj(map[]) else kwargs.value;
    if !k.JObj? || "use_cache" in k.fields then None else Some(k.fields)
  }

  /**
   * `_run_custom_strategy`: no script, a module that is not found, a module
   * without `run`, arguments that do not bind, a `run` that raises and a
   * result that is not a list all give no events. Only an import error other
   * than "not found" escapes.
   */
  function CustomEvents(modules: map<string, ScriptModule>, v: StoredVenue, useCache: bool): (r: Result<EventBatch>)
    ensures !IsTruthyText(v.doc.customScript) ==> r == Ok(NoEvents)
    ensures r.Err? ==> IsTruthyText(v.doc.customScript) && ModuleName(v.doc.customScript.value) in modules &&
                       modules[ModuleName(v.doc.customScript.value)] == ImportFails(false, r.error)
    ensures r.Ok? && r.value != NoEvents ==>
              IsTruthyText(v.doc.customScript) && ModuleName(v.doc.customScript.value) in modules &&
              var m := modules[ModuleName(v.doc.customScript.value)];
              m.Module? && m.run.Some? && ScriptKwargs(v.doc.customKwargs).Some? &&
              m.run.value(v, useCache, ScriptKwargs(v.doc.customKwargs).value) == ReturnsList(r.value)
  {
    var script := v.doc.customScript;
    if !IsTruthyText(script) then Ok(NoEvents)
    else
      var name := ModuleName(script.value);
      if name !in modules then Ok(NoEvents)
      else
        match modules[name]
        case ImportFails(notFound, e) => if notFound then Ok(NoEvents) else Err(e)
        case Module(run) =>
          if run.None? then Ok(NoEvents)
          else
            var kwargs := ScriptKwargs(v.doc.customKwargs);
            if kwargs.None? then Ok(NoEvents)
            else
              match run.value(v, useCache, kwargs.value)
              case ReturnsList(batch) => Ok(batch)
              case _ => Ok(NoEvents)
  }

  // ---------------------------------------------------------------------
  // scrape_venue (app/pipeline.py:379-413)
  // ---------------------------------------------------------------------

  /** The events of a venue's strategy: none for a missing or unknown strategy. */
  function VenueEvents(svc: Services, modules: map<string, ScriptModule>, w: World, v: StoredVenue,
                       months: Option<int>, now: DateTime, useCache: bool, scrapedAt: DateTime): Step<EventBatch>
  {
    var strategy := v.doc.scrapingStrategy;
    if !IsTruthyText(strategy) then Step(Ok(NoEvents), w)
    else
      match ParseStrategy(strategy.value)
      case None => Step(Ok(NoEvents), w)
      case Some(Schedule) => AllEvents(StrategyRun(svc, w, v, SchedulePages, months, now, useCache, scrapedAt))
      case Some(LinkGathering) => AllEvents(StrategyRun(svc, w, v, GatherLinks, months, now, useCache, scrapedAt))
      case Some(Custom) => Step(CustomEvents(modules, v, useCache), w)
  }

  /** A strategy's list holds only `Event`s. */
  function AllEvents(s: Step<seq<Event>>): Step<EventBatch>
  {
    Step(if s.result.Ok? then Ok(EventBatch(s.result.value, false)) else Err(s.result.error), s.world)
  }

  /** The crawler, the model and the store together. */
  datatype Env = Env(world: World, docs: map<EventKey, Event>, attempts: nat)

  /** The count `scrape_venue` returns (or the error it raises), and the state it leaves. */
  datatype Scraped = Scraped(result: Result<nat>, env: Env)

  /** `scrape_venue`: the strategy's events are saved unless there are none; the saved count is returned. */
  function VenueScrape(svc: Services, fails: nat -> bool, modules: map<string, ScriptModule>, env: Env,
                       v: StoredVenue, months: Option<int>, now: DateTime, useCache: bool,
                       scrapedAt: DateTime): Scraped
  {
    var s := VenueEvents(svc, modules, env.world, v, months, now, useCache, scrapedAt);
    if s.result.Err? then Scraped(Err(s.result.error), env.(world := s.world))
    else if s.result.value == NoEvents then Scraped(Ok(0), env.(world := s.world))
    else
      var batch := s.result.value;
      var saved := SaveAll(fails, env.docs, env.attempts, batch.events);
      Scraped(if batch.stray then Err(NoModelDump) else Ok(saved.saved), Env(s.world, saved.docs, saved.attempts))
  }

  /** What `event.model_dump()` raises on an item that is not a model. */
  const NoModelDump := AttributeError("model_dump")

  /**
   * A venue without a strategy or with an unknown one, and a strategy that
   * produced no events, return 0 and leave the store alone; the count is never
   * more than the number of events.
   */
  lemma VenueScrapeOutcomes(svc: Services, fails: nat -> bool, modules: map<string, ScriptModule>, env: Env,
                            v: StoredVenue, months: Option<int>, now: DateTime, useCache: bool, scrapedAt: DateTime)
    ensures var r := VenueScrape(svc, fails, modules, env, v, months, now, useCache, scrapedAt);
            (!IsTruthyText(v.doc.scrapingStrategy) || ParseStrategy(v.doc.scrapingStrategy.value).None?) ==>
              r == Scraped(Ok(0), env)
    ensures var r := VenueScrape(svc, fails, modules, env, v, months, now, useCache, scrapedAt);
            var s := VenueEvents(svc, modules, env.world, v, months, now, useCache, scrapedAt);
            s.result == Ok(NoEvents) ==> r.result == Ok(0) && r.env.docs == env.docs && r.env.attempts == env.attempts
    ensures var r := VenueScrape(svc, fails, modules, env, v, months, now, useCache, scrapedAt);
            var s := VenueEvents(svc, modules, env.world, v, months, now, useCache, scrapedAt);
            r.result.Ok? ==> s.result.Ok? && !s.result.value.stray && r.result.value <= |s.result.value.events|
  {
  }

  /**
   * A custom script's list with an item that is not an `Event`: the events
   * before it are saved, then `model_dump` raises `AttributeError` out of
   * `scrape_venue` (it is outside the per-event `try`).
   */
  lemma StrayItemAfterSaving(svc: Services, fails: nat -> bool, modules: map<string, ScriptModule>, env: Env,
                             v: StoredVenue, months: Option<int>, now: DateTime, useCache: bool, scrapedAt: DateTime)
    requires var s := VenueEvents(svc, modules, env.world, v, months, now, useCache, scrapedAt);
             s.result.Ok? && s.result.value.stray
    ensures var r := VenueScrape(svc, fails, modules, env, v, months, now, useCache, scrapedAt);
            var s := VenueEvents(svc, modules, env.world, v, months, now, useCache, scrapedAt);
            var saved := SaveAll(fails, env.docs, env.attempts, s.result.value.events);
            r.result == Err(AttributeError("model_dump")) && r.env.docs == saved.docs &&
            r.env.attempts == env.attempts + |s.result.value.events|
  {
  }

  /** Only a custom script's list can hold an item that is not an `Event`. */
  lemma StrayOnlyFromScripts(svc: Services, modules: map<string, ScriptModule>, w: World, v: StoredVenue,
                             months: Option<int>, now: DateTime, useCache: bool, scrapedAt: DateTime)
    requires var s := VenueEvents(svc, modules, w, v, months, now, useCache, scrapedAt);
             s.result.Ok? && s.result.value.stray
    ensures IsTruthyText(v.doc.scrapingStrategy) && ParseStrategy(v.doc.scrapingStrategy.value) == Some(Custom)
  {
  }

  /** The events the venue's strategy yields, as `scrape_venue` dispatches on it. */
  method StrategyEvents(crawler: Crawler, client: ModelClient, codec: JsonCodec,
                        modules: map<string, ScriptModule>, v: StoredVenue, months: Option<int>, now: DateTime,
                        useCache: bool, scrapedAt: DateTime)
    returns (r: Result<EventBatch>)
    modifies crawler, client
    ensures var s := VenueEvents(ServicesOf(crawler, client, codec), modules, old(WorldOf(crawler, client)),
                                 v, months, now, useCache, scrapedAt);
            r == s.result && WorldOf(crawler, client) == s.world
  {
    var strategy := v.doc.scrapingStrategy;
    if !IsTruthyText(strategy) {
      return Ok(NoEvents);
    }
    match ParseStrategy(strategy.value) {
      case None =>
        r := Ok(NoEvents);
      case Some(Schedule) =>
        var events := RunStrategy(crawler, client, codec, v, SchedulePages, months, now, useCache, scrapedAt);
        r := if events.Ok? then Ok(EventBatch(events.value, false)) else Err(events.error);
      case Some(LinkGathering) =>
        var events := RunStrategy(crawler, client, codec, v, GatherLinks, months, now, useCache, scrapedAt);
        r := if events.Ok? then Ok(EventBatch(events.value, false)) else Err(events.error);
      case Some(Custom) =>
        r := CustomEvents(modules, v, useCache);
    }
  }

  method ScrapeVenue(crawler: Crawler, client: ModelClient, store: EventStore, codec: JsonCodec,
                     modules: map<string, ScriptModule>, v: StoredVenue, months: Option<int>, now: DateTime,
                     useCache: bool, scrapedAt: DateTime)
    returns (r: Result<nat>)
    modifies crawler, client, store
    ensures var s := VenueScrape(ServicesOf(crawler, client, codec), store.fails, modules,
                                 old(Env(WorldOf(crawler, client), store.docs, store.attempts)),
                                 v, months, now, useCache, scrapedAt);
            r == s.result && Env(WorldOf(crawler, client), store.docs, store.attempts) == s.env
  {
    var events := StrategyEvents(crawler, client, codec, modules, v, months, now, useCache, scrapedAt);
    if events.Err? {
      return Err(events.error);
    }
    if events.value == NoEvents {
      return Ok(0);
    }
    var saved := store.SaveEvents(events.value.events);
    if events.value.stray {
      return Err(NoModelDump);
    }
    return Ok(saved);
  }

  // ---------------------------------------------------------------------
  // scrape_all (app/pipeline.py:416-447)
  // ---------------------------------------------------------------------

  /** The most venues one run reads. */
  const MaxVenues := 100

  /** The venue query: a strategy is set, and the state is configured or warning, or absent. */
  predicate Eligible(doc: VenueDoc)
  {
    doc.scrapingStrategy.Some? &&
    (doc.venueState.Missing? ||
     (doc.venueState.Present? && (doc.venueState.value == "configured" || doc.venueState.value == "warning")))
  }

  function EligibleVenues(venues: seq<StoredVenue>): (r: seq<StoredVenue>)
    ensures |r| <= |venues|
    ensures forall v :: v in r ==> v in venues && Eligible(v.doc)
    ensures forall v :: v in venues && Eligible(v.doc) ==> v in r
  {
    if venues == [] then []
    else
      var rest := EligibleVenues(venues[1..]);
      assert forall v :: v in venues <==> v == venues[0] || v in venues[1..];
      if Eligible(venues[0].doc) then [venues[0]] + rest else rest
  }

  /** `find(query).to_list(100)`: the first 100 eligible venues in store order. */
  function Selected(venues: seq<StoredVenue>): (r: seq<StoredVenue>)
    ensures |r| <= MaxVenues
    ensures forall v :: v in r ==> v in venues && Eligible(v.doc)
    ensures r <= EligibleVenues(venues)
    ensures |EligibleVenues(venues)| <= MaxVenues ==> r == EligibleVenues(venues)
    ensures |EligibleVenues(venues)| > MaxVenues ==> |r| == MaxVenues
  {
    var all := EligibleVenues(venues);
    if |all| <= MaxVenues then all
    else
      assert forall i :: 0 <= i < MaxVenues ==> all[..MaxVenues][i] in all;
      all[..MaxVenues]
  }

  /** A venue straight from the venue loader (state "new", no strategy) is not scraped. */
  lemma LoadedVenueNotEligible(name: string, now: DateTime)
    ensures !Eligible(DumpVenue(NewVenue(name, now)))
  {
  }

  /**
   * A stored venue with a strategy whose state is configured or warning
   * matches the query, and is among the venues `scrape_all` scrapes whenever
   * no more than 100 venues match.
   */
  lemma ConfiguredVenueEligible(venues: seq<StoredVenue>, v: StoredVenue)
    requires v in venues
    requires v.doc.scrapingStrategy.Some?
    requires v.doc.venueState == Present("configured") || v.doc.venueState == Present("warning")
    ensures Eligible(v.doc)
    ensures |EligibleVenues(venues)| <= MaxVenues ==> v in Selected(venues)
  {
  }

  /** The total of `scrape_all` and the state after it. */
  datatype Totals = Totals(total: nat, env: Env)

  /** The venues scraped in turn by `scrape`; a venue that raises adds nothing and the loop goes on. */
  function ScrapeEach(scrape: (Env, StoredVenue) -> Scraped, env: Env, venues: seq<StoredVenue>): Totals
  {
    if venues == [] then Totals(0, env)
    else
      var before := ScrapeEach(scrape, env, venues[..|venues| - 1]);
      var s := scrape(before.env, venues[|venues| - 1]);
      Totals(before.total + (if s.result.Ok? then s.result.value else 0), s.env)
  }

  /** Scraping a run of venues after another is scraping them all: the totals add up and the state carries over. */
  lemma {:induction false} ScrapeEachAppend(scrape: (Env, StoredVenue) -> Scraped, env: Env,
                                            a: seq<StoredVenue>, b: seq<StoredVenue>)
    ensures var first := ScrapeEach(scrape, env, a);
            var second := ScrapeEach(scrape, first.env, b);
            ScrapeEach(scrape, env, a + b) == Totals(first.total + second.total, second.env)
    decreases |b|
  {
    if b == [] {
      assert a + b == a;
    } else {
      var ab := a + b;
      assert ab[..|ab| - 1] == a + b[..|b| - 1];
      assert ab[|ab| - 1] == b[|b| - 1];
      ScrapeEachAppend(scrape, env, a, b[..|b| - 1]);
    }
  }

  /** A venue whose scrape raises contributes nothing to the total, and the venues after it are still scraped. */
  lemma FailingVenueSkipped(scrape: (Env, StoredVenue) -> Scraped, env: Env, v: StoredVenue, rest: seq<StoredVenue>)
    requires scrape(env, v).result.Err?
    ensures ScrapeEach(scrape, env, [v] + rest) == ScrapeEach(scrape, scrape(env, v).env, rest)
  {
    ScrapeEachAppend(scrape, env, [v], rest);
    assert [v][..0] == [];
  }

  /**
   * `scrape_all` without the query: the selected venues in turn, errors
   * caught per venue, counts summed. `scrape` is `scrape_venue` with this
   * run's collaborators and settings.
   */
  method ScrapeAll(crawler: Crawler, client: ModelClient, store: EventStore, codec: JsonCodec,
                   modules: map<string, ScriptModule>, venues: seq<StoredVenue>, months: Option<int>,
                   now: DateTime, useCache: bool, scrapedAt: DateTime, ghost scrape: (Env, StoredVenue) -> Scraped)
    returns (total: nat)
    requires forall env: Env, v: StoredVenue
               {:trigger VenueScrape(ServicesOf(crawler, client, codec), store.fails, modules, env, v, months, now,
                                     useCache, scrapedAt)} ::
               scrape(env, v) == VenueScrape(ServicesOf(crawler, client, codec), store.fails, modules, env, v, months,
                                             now, useCache, scrapedAt)
    modifies crawler, client, store
    ensures var t := ScrapeEach(scrape, old(Env(WorldOf(crawler, client), store.docs, store.attempts)),
                                Selected(venues));
            total == t.total && Env(WorldOf(crawler, client), store.docs, store.attempts) == t.env
  {
    var selected := Selected(venues);
    ghost var start := Env(WorldOf(crawler, client), store.docs, store.attempts);
    total := 0;
    var i := 0;
    while i < |selected|
      invariant 0 <= i <= |selected|
      invariant var t := ScrapeEach(scrape, start, selected[..i]);
                total == t.total && Env(WorldOf(crawler, client), store.docs, store.attempts) == t.env
    {
      assert selected[..i + 1][..i] == selected[..i];
      var count := ScrapeVenue(crawler, client, store, codec, modules, selected[i], months, now, useCache, scrapedAt);
      if count.Ok? {
        total := total + count.value;
      }
      i := i + 1;
    }
    assert selected[..i] == selected;
  }
}
