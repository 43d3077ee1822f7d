/**
 * The records of app/models.py: the closed enumerations, the GeoJSON point,
 * the Venue and Event models with their defaults, and the per-field
 * validation that pydantic applies when an Event is constructed from
 * loosely-typed JSON values. Also the stored form of a venue document, which
 * is what the pipeline and the venue loader actually read and write.
 */
module Models {
  import opened Common
  import opened Json

  // ---------------------------------------------------------------------
  // Enumerations (str-valued enums)
  // ---------------------------------------------------------------------

  datatype ContentType = FitMarkdown | RawMarkdown | MarkdownWithCitations | Html

  function ContentTypeValue(c: ContentType): string
  {
    match c
    case FitMarkdown => "fit_markdown"
    case RawMarkdown => "raw_markdown"
    case MarkdownWithCitations => "markdown_with_citations"
    case Html => "html"
  }

  datatype ScrapingStrategy = Schedule | LinkGathering | Custom

  function StrategyValue(s: ScrapingStrategy): string
  {
    match s
    case Schedule => "schedule"
    case LinkGathering => "link_gathering"
    case Custom => "custom"
  }

  /**
   * The strategy a stored string stands for: a `str` enum member compares
   * equal to exactly its value, so any other string is an unknown strategy.
   */
  function ParseStrategy(value: string): (r: Option<ScrapingStrategy>)
    ensures r.Some? <==> value in {"schedule", "link_gathering", "custom"}
    ensures r.Some? ==> StrategyValue(r.value) == value
  {
    if value == "schedule" then Some(Schedule)
    else if value == "link_gathering" then Some(LinkGathering)
    else if value == "custom" then Some(Custom)
    else None
  }

  /** The three strategies have three distinct values, each parsed back to itself. */
  lemma StrategyRoundTrip(s: ScrapingStrategy, t: ScrapingStrategy)
    ensures ParseStrategy(StrategyValue(s)) == Some(s)
    ensures StrategyValue(s) == StrategyValue(t) ==> s == t
  {
  }

  datatype VenueState = New | Configured | Disabled | Warning

  function StateValue(s: VenueState): string
  {
    match s
    case New => "new"
    case Configured => "configured"
    case Disabled => "disabled"
    case Warning => "warning"
  }

  function ParseState(value: string): (r: Option<VenueState>)
    ensures r.Some? <==> value in {"new", "configured", "disabled", "warning"}
    ensures r.Some? ==> StateValue(r.value) == value
  {
    if value == "new" then Some(New)
    else if value == "configured" then Some(Configured)
    else if value == "disabled" then Some(Disabled)
    else if value == "warning" then Some(Warning)
    else None
  }

  // ---------------------------------------------------------------------
  // Time
  // ---------------------------------------------------------------------

  /**
   * A Python `datetime`: the calendar date, and everything finer than a day
   * (time of day, time zone) as one opaque value that is carried along.
   */
  datatype DateTime = DateTime(year: int, month: int, day: int, clock: nat)

  const MinYear := 1
  const MaxYear := 9999

  predicate IsLeapYear(y: int)
  {
    (y % 4 == 0 && y % 100 != 0) || y % 400 == 0
  }

  function DaysInMonth(y: int, m: int): int
    requires 1 <= m <= 12
  {
    if m == 2 then (if IsLeapYear(y) then 29 else 28)
    else if m in {4, 6, 9, 11} then 30
    else 31
  }

  /** What the `datetime` constructor accepts. */
  predicate ValidDateTime(dt: DateTime)
  {
    MinYear <= dt.year <= MaxYear && 1 <= dt.month <= 12 && 1 <= dt.day <= DaysInMonth(dt.year, dt.month)
  }

  // ---------------------------------------------------------------------
  // GeoJSON point
  // ---------------------------------------------------------------------

  /** A GeoJSON Point; `coordinates` is [longitude, latitude]. */
  datatype GeoLocation = GeoLocation(kind: string, coordinates: seq<real>)

  /**
   * `GeoLocation(coordinates=...)`: the type defaults to "Point" and the
   * coordinate list must have exactly two elements.
   */
  function MakeGeoLocation(coordinates: seq<real>): (r: Result<GeoLocation>)
    ensures r.Ok? <==> |coordinates| == 2
    ensures r.Ok? ==> r.value.kind == "Point" && r.value.coordinates == coordinates
  {
    if |coordinates| == 2 then Ok(GeoLocation("Point", coordinates))
    else Err(ValueError("coordinates must have exactly two elements"))
  }

  // ---------------------------------------------------------------------
  // Venue
  // ---------------------------------------------------------------------

  /** The typed Venue model. A JSON-CSS schema is an opaque JSON object. */
  datatype Venue = Venue(
    name: string,
    googlePlaceId: Option<string>,
    location: Option<GeoLocation>,
    address: Option<string>,
    website: Option<string>,
    googleMapsUrl: Option<string>,
    rating: Option<real>,
    venueState: Option<VenueState>,
    defaultImageUrl: Option<string>,
    scheduleUrl: Option<string>,
    scrapingStrategy: Option<ScrapingStrategy>,
    scrapingInstructions: Option<string>,
    contentType: ContentType,
    scheduleCssSelector: Option<string>,
    detailCssSelector: Option<string>,
    scheduleJsonCssSchema: Option<map<string, JValue>>,
    detailJsonCssSchema: Option<map<string, JValue>>,
    skipLlmForLinks: bool,
    customScript: Option<string>,
    customKwargs: Option<map<string, JValue>>,
    createdAt: DateTime,
    updatedAt: DateTime)

  /** `Venue(name=name)`, both timestamps taken at `now`. */
  function NewVenue(name: string, now: DateTime): (v: Venue)
    ensures v.name == name && v.venueState == Some(New)
    ensures v.contentType == FitMarkdown && !v.skipLlmForLinks
    ensures v.customScript == None && v.customKwargs == None
    ensures v.scheduleUrl == None && v.scrapingStrategy == None && v.scrapingInstructions == None
    ensures v.location == None && v.googlePlaceId == None
    ensures v.createdAt == now && v.updatedAt == now
  {
    Venue(name, None, None, None, None, None, None, Some(New), None,
          None, None, None, FitMarkdown, None, None, None, None, false, None, None, now, now)
  }

  /** A field of a stored document that may be absent, present as null, or hold a value. */
  datatype Field<+T> = Missing | Null | Present(value: T)

  /**
   * A venue document as it sits in the store and as the pipeline reads it
   * (a dict, read with `.get`): enumerations are stored as their string
   * values, `None` stands for a key that is absent or null, except for the
   * lifecycle state, where the store query tells the two apart.
   */
  datatype VenueDoc = VenueDoc(
    name: string,
    googlePlaceId: Option<string>,
    location: Option<GeoLocation>,
    address: Option<string>,
    website: Option<string>,
    googleMapsUrl: Option<string>,
    rating: Option<real>,
    venueState: Field<string>,
    scheduleUrl: Option<string>,
    scrapingStrategy: Option<string>,
    scrapingInstructions: Option<string>,
    contentType: Option<string>,
    scheduleCssSelector: Option<string>,
    detailCssSelector: Option<string>,
    scheduleJsonCssSchema: Option<JValue>,
    detailJsonCssSchema: Option<JValue>,
    skipLlmForLinks: bool,
    customScript: Option<string>,
    customKwargs: Option<JValue>,
    createdAt: Option<DateTime>,
    updatedAt: Option<DateTime>)

  function OptionMap<A, B>(o: Option<A>, f: A -> B): Option<B>
  {
    if o.Some? then Some(f(o.value)) else None
  }

  /** `venue.model_dump()` as stored: the typed model in its stored form. */
  function DumpVenue(v: Venue): (d: VenueDoc)
    ensures d.scrapingStrategy.Some? <==> v.scrapingStrategy.Some?
    ensures v.scrapingStrategy.Some? ==> ParseStrategy(d.scrapingStrategy.value) == v.scrapingStrategy
    ensures v.venueState.Some? ==> d.venueState.Present? && ParseState(d.venueState.value) == v.venueState
  {
    VenueDoc(
      v.name, v.googlePlaceId, v.location, v.address, v.website, v.googleMapsUrl, v.rating,
      if v.venueState.Some? then Present(StateValue(v.venueState.value)) else Null,
      v.scheduleUrl,
      OptionMap(v.scrapingStrategy, StrategyValue),
      v.scrapingInstructions,
      Some(ContentTypeValue(v.contentType)),
      v.scheduleCssSelector, v.detailCssSelector,
      OptionMap(v.scheduleJsonCssSchema, (m: map<string, JValue>) => JObj(m)),
      OptionMap(v.detailJsonCssSchema, (m: map<string, JValue>) => JObj(m)),
      v.skipLlmForLinks, v.customScript,
      OptionMap(v.customKwargs, (m: map<string, JValue>) => JObj(m)),
      Some(v.createdAt), Some(v.updatedAt))
  }

  // ---------------------------------------------------------------------
  // Event
  // ---------------------------------------------------------------------

  datatype Event = Event(
    venueId: string,
    title: string,
    date: string,
    timeOpen: Option<string>,
    timeStart: Option<string>,
    price: Option<int>,
    priceText: Option<string>,
    artists: seq<string>,
    imageUrl: Option<string>,
    detailUrl: Option<string>,
    rawText: Option<string>,
    scrapedAt: DateTime)

  /** The key the event store deduplicates on. */
  datatype EventKey = EventKey(venueId: string, date: string, title: string)

  function KeyOf(e: Event): EventKey
  {
    EventKey(e.venueId, e.date, e.title)
  }

  /** `Event(venue_id=..., title=..., date=...)` with every other field defaulted. */
  function NewEvent(venueId: string, title: string, date: string, scrapedAt: DateTime): (e: Event)
    ensures KeyOf(e) == EventKey(venueId, date, title) && e.scrapedAt == scrapedAt
    ensures e.artists == []
    ensures e.timeOpen == None && e.timeStart == None && e.price == None && e.priceText == None
    ensures e.imageUrl == None && e.detailUrl == None && e.rawText == None
  {
    Event(venueId, title, date, None, None, None, None, [], None, None, None, scrapedAt)
  }

  // ---------------------------------------------------------------------
  // Field validation (pydantic, lax mode) for values that come from JSON
  // ---------------------------------------------------------------------

  /** A `str` field accepts only a string. */
  function AsStr(v: JValue): (r: Option<string>)
    ensures r.Some? <==> v.JStr?
    ensures r.Some? ==> r.value == v.s
  {
    if v.JStr? then Some(v.s) else None
  }

  /** An `Optional[str]` field: null is None, a string is kept, anything else fails. */
  function AsOptStr(v: JValue): (r: Option<Option<string>>)
    ensures r.Some? <==> v.JNull? || v.JStr?
    ensures r == Some(None) <==> v.JNull?
  {
    match v
    case JNull => Some(None)
    case JStr(s) => Some(Some(s))
    case _ => None
  }

  /** The digits of an optionally signed integer literal. */
  function UnsignedPart(s: string): string
  {
    if |s| > 0 && (s[0] == '-' || s[0] == '+') then s[1..] else s
  }

  predicate IsDecimalInteger(s: string)
  {
    var digits := UnsignedPart(s);
    |digits| > 0 && forall i :: 0 <= i < |digits| ==> IsAsciiDigit(digits[i])
  }

  function DecimalValue(s: string): int
    requires IsDecimalInteger(s)
  {
    var m: int := DigitsValue(UnsignedPart(s));
    if s[0] == '-' then -m else m
  }

  /**
   * An `Optional[int]` field: null is None; a number is accepted only when it
   * has no fractional part; a boolean counts as 0 or 1; a string is accepted
   * when it is a plain decimal integer. Anything else fails.
   */
  function AsOptInt(v: JValue): (r: Option<Option<int>>)
    ensures v.JNum? ==> (r.Some? <==> v.n == v.n.Floor as real)
    ensures v.JNum? && r.Some? ==> r.value == Some(v.n.Floor)
    ensures v.JArr? || v.JObj? ==> r.None?
    ensures r == Some(None) <==> v.JNull?
  {
    match v
    case JNull => Some(None)
    case JNum(n) => if n == n.Floor as real then Some(Some(n.Floor)) else None
    case JBool(b) => Some(Some(if b then 1 else 0))
    case JStr(s) => if IsDecimalInteger(s) then Some(Some(DecimalValue(s))) else None
    case _ => None
  }

  /** A `list[str]` field: a list whose every element is a string. */
  function AsStrList(v: JValue): (r: Option<seq<string>>)
    ensures r.Some? <==> v.JArr? && forall i :: 0 <= i < |v.items| ==> v.items[i].JStr?
    ensures r.Some? ==> |r.value| == |v.items| && forall i :: 0 <= i < |r.value| ==> v.items[i] == JStr(r.value[i])
  {
    if v.JArr? && forall i :: 0 <= i < |v.items| ==> v.items[i].JStr? then
      Some(seq(|v.items|, i requires 0 <= i < |v.items| => v.items[i].s))
    else None
  }
}
