/**
 * Venue ingestion from the Google Places text search (app/venue_loader.py):
 * mapping a place to a venue document, dropping repeated place ids,
 * following result pages, and upserting the venues by place id.
 * The search endpoint is a function from the page token to a page (or an
 * HTTP error); the venues collection is a map from place id to document.
 */
module VenueLoader {
  import opened Common
  import opened Json
  import opened Models

  /** A place as the Places API returns it: a JSON object. */
  type Place = map<string, JValue>

  // ---------------------------------------------------------------------
  // place_to_venue (app/venue_loader.py:153-172)
  // ---------------------------------------------------------------------

  /**
   * The venue document built from a place. JSON null stands for Python
   * None; coordinates and rating are carried as they came.
   */
  datatype PlaceVenue = PlaceVenue(
    name: JValue,
    googlePlaceId: JValue,
    locationType: string,
    coordinates: seq<JValue>,
    address: JValue,
    website: JValue,
    googleMapsUrl: JValue,
    rating: JValue,
    scheduleUrl: Option<string>,
    scrapingStrategy: Option<string>,
    scrapingInstructions: Option<string>,
    createdAt: DateTime,
    updatedAt: DateTime)

  /** `place.get(key, {})` followed by `.get(...)`: the value under `key` must be a dict when present. */
  predicate DictOrAbsent(place: Place, key: string)
  {
    key !in place || place[key].JObj?
  }

  /**
   * `place_to_venue`: the display name's text ("Unknown" without one), the
   * place id, a GeoJSON point [longitude, latitude] with 0 for a missing
   * component, the address ("" without one), website, maps URL and rating,
   * no scraping configuration, and the two clock readings. A display name
   * or location that is not a dict has no `.get`: AttributeError.
   */
  function PlaceToVenue(place: Place, createdAt: DateTime, updatedAt: DateTime): (r: Result<PlaceVenue>)
    ensures r.Ok? <==> DictOrAbsent(place, "displayName") && DictOrAbsent(place, "location")
    ensures r.Ok? ==> |r.value.coordinates| == 2 && r.value.locationType == "Point"
    ensures r.Ok? ==> r.value.scheduleUrl == None && r.value.scrapingStrategy == None && r.value.scrapingInstructions == None
    ensures r.Ok? && "location" in place ==>
              var loc := place["location"].fields;
              (("longitude" in loc ==> r.value.coordinates[0] == loc["longitude"]) &&
               ("latitude" in loc ==> r.value.coordinates[1] == loc["latitude"]) &&
               ("longitude" !in loc ==> r.value.coordinates[0] == JNum(0.0)) &&
               ("latitude" !in loc ==> r.value.coordinates[1] == JNum(0.0)))
    ensures r.Ok? && "location" !in place ==> r.value.coordinates == [JNum(0.0), JNum(0.0)]
    ensures r.Ok? ==> (r.value.name == if "displayName" in place && "text" in place["displayName"].fields
                                       then place["displayName"].fields["text"] else JStr("Unknown"))
    ensures r.Ok? ==> (r.value.address == if "formattedAddress" in place then place["formattedAddress"] else JStr(""))
    ensures r.Ok? ==> (r.value.googlePlaceId == if "id" in place then place["id"] else JNull)
    ensures r.Ok? ==> r.value.createdAt == createdAt && r.value.updatedAt == updatedAt
  {
    var display := GetOr(place, "displayName", JObj(map[]));
    var loc := GetOr(place, "location", JObj(map[]));
    if !display.JObj? then Err(AttributeError("get"))
    else if !loc.JObj? then Err(AttributeError("get"))
    else
      Ok(PlaceVenue(
        GetOr(display.fields, "text", JStr("Unknown")),
        GetOr(place, "id", JNull),
        "Point",
        [GetOr(loc.fields, "longitude", JNum(0.0)), GetOr(loc.fields, "latitude", JNum(0.0))],
        GetOr(place, "formattedAddress", JStr("")),
        GetOr(place, "websiteUri", JNull),
        GetOr(place, "googleMapsUri", JNull),
        GetOr(place, "rating", JNull),
        None, None, None,
        createdAt, updatedAt))
  }

  // ---------------------------------------------------------------------
  // Paginated text search (app/venue_loader.py:91-114)
  // ---------------------------------------------------------------------

  /** One page of results and the token of the next page, if the response had one. */
  datatype Page = Page(places: seq<Place>, next: Option<string>)

  /** A page is the last one when it has no next token or no places. */
  predicate LastPage(pg: Page)
  {
    !IsTruthyText(pg.next) || pg.places == []
  }

  /** `r` with `first` in front of its value. */
  function Prefixed(first: seq<Place>, r: Result<seq<Place>>): Result<seq<Place>>
  {
    if r.Err? then r else Ok(first + r.value)
  }

  /**
   * What the paginated search returns when it may still make `budget`
   * requests, starting from `token`: nothing once the budget is spent, the
   * error of a failed request, or this page's places followed by the rest.
   */
  function Paginate(fetch: Option<string> -> Result<Page>, token: Option<string>, budget: int): Result<seq<Place>>
    decreases budget
  {
    if budget <= 0 then Ok([])
    else
      match fetch(token)
      case Err(e) => Err(e)
      case Ok(pg) => if LastPage(pg) then Ok(pg.places) else Prefixed(pg.places, Paginate(fetch, pg.next, budget - 1))
  }

  /** The page tokens the search sends, in order. */
  function Requested(fetch: Option<string> -> Result<Page>, token: Option<string>, budget: int): seq<Option<string>>
    decreases budget
  {
    if budget <= 0 then []
    else
      match fetch(token)
      case Err(_) => [token]
      case Ok(pg) => if LastPage(pg) then [token] else [token] + Requested(fetch, pg.next, budget - 1)
  }

  /** The places of the pages sent for `tokens`, in request order. */
  function Collected(fetch: Option<string> -> Result<Page>, tokens: seq<Option<string>>): Result<seq<Place>>
  {
    if tokens == [] then Ok([])
    else
      match fetch(tokens[0])
      case Err(e) => Err(e)
      case Ok(pg) => Prefixed(pg.places, Collected(fetch, tokens[1..]))
  }

  /**
   * `search_places_text_in_rect_paginated`: request pages until one is the
   * last or `maxPages` requests were made; returns the places and the
   * tokens requested.
   */
  method SearchPaginated(fetch: Option<string> -> Result<Page>, maxPages: int)
    returns (r: Result<seq<Place>>, requests: seq<Option<string>>)
    ensures r == Paginate(fetch, None, maxPages) && requests == Requested(fetch, None, maxPages)
  {
    var all: seq<Place> := [];
    var token: Option<string> := None;
    var page := 0;
    requests := [];
    PrefixedEmpty(Paginate(fetch, None, maxPages));
    assert [] + Requested(fetch, None, maxPages) == Requested(fetch, None, maxPages);
    while page < maxPages
      invariant Paginate(fetch, None, maxPages) == Prefixed(all, Paginate(fetch, token, maxPages - page))
      invariant Requested(fetch, None, maxPages) == requests + Requested(fetch, token, maxPages - page)
      decreases maxPages - page
    {
      var res := fetch(token);
      requests := requests + [token];
      if res.Err? {
        return Err(res.error), requests;
      }
      var pg := res.value;
      ghost var rest := Paginate(fetch, pg.next, maxPages - page - 1);
      ghost var before := all;
      all := all + pg.places;
      page := page + 1;
      token := pg.next;
      if LastPage(pg) {
        assert Paginate(fetch, None, maxPages) == Ok(all);
        return Ok(all), requests;
      }
      PrefixedTwice(before, pg.places, rest);
    }
    assert all + [] == all;
    assert requests + [] == requests;
    return Ok(all), requests;
  }

  lemma PrefixedEmpty(r: Result<seq<Place>>)
    ensures Prefixed([], r) == r
  {
    if r.Ok? {
      assert [] + r.value == r.value;
    }
  }

  lemma PrefixedTwice(a: seq<Place>, b: seq<Place>, r: Result<seq<Place>>)
    ensures Prefixed(a, Prefixed(b, r)) == Prefixed(a + b, r)
  {
    if r.Ok? {
      assert a + (b + r.value) == a + b + r.value;
    }
  }

  /** No more than `maxPages` requests are made, and none when it is not positive. */
  lemma {:induction false} RequestsWithinBudget(fetch: Option<string> -> Result<Page>, token: Option<string>, budget: int)
    ensures |Requested(fetch, token, budget)| <= (if budget <= 0 then 0 else budget)
    decreases budget
  {
    if budget > 0 {
      match fetch(token)
      case Err(_) =>
      case Ok(pg) =>
        if !LastPage(pg) {
          RequestsWithinBudget(fetch, pg.next, budget - 1);
        }
    }
  }

  /**
   * The first request carries no token; each further request carries the
   * token of the page before it, which had places and a next token.
   */
  lemma {:induction false} RequestsFollowTokens(fetch: Option<string> -> Result<Page>, token: Option<string>, budget: int)
    ensures var req := Requested(fetch, token, budget);
      (req != [] ==> req[0] == token) &&
      forall k :: 0 <= k < |req| - 1 ==>
        fetch(req[k]).Ok? && !LastPage(fetch(req[k]).value) && req[k + 1] == fetch(req[k]).value.next
    decreases budget
  {
    if budget > 0 {
      match fetch(token)
      case Err(_) =>
      case Ok(pg) =>
        if !LastPage(pg) {
          RequestsFollowTokens(fetch, pg.next, budget - 1);
          var req := Requested(fetch, token, budget);
          assert req[1..] == Requested(fetch, pg.next, budget - 1);
        }
    }
  }

  /** The search returns the places of the requested pages concatenated in request order. */
  lemma {:induction false} PagesInRequestOrder(fetch: Option<string> -> Result<Page>, token: Option<string>, budget: int)
    ensures Paginate(fetch, token, budget) == Collected(fetch, Requested(fetch, token, budget))
    decreases budget
  {
    if budget > 0 {
      var req := Requested(fetch, token, budget);
      match fetch(token)
      case Err(_) =>
      case Ok(pg) =>
        if LastPage(pg) {
          assert req[1..] == [];
          assert pg.places + [] == pg.places;
        } else {
          PagesInRequestOrder(fetch, pg.next, budget - 1);
          assert req[1..] == Requested(fetch, pg.next, budget - 1);
        }
    }
  }

  // ---------------------------------------------------------------------
  // Dedupe by place id (app/venue_loader.py:300-307)
  // ---------------------------------------------------------------------

  function PlaceId(p: Place): JValue
  {
    GetOr(p, "id", JNull)
  }

  /** A truthy id that is a list or a dict cannot be looked up in a set: TypeError. */
  predicate Unhashable(id: JValue)
  {
    Truthy(id) && (id.JArr? || id.JObj?)
  }

  /** The truthy ids among the first `n` places. */
  function SeenIds(places: seq<Place>, n: nat): set<JValue>
    requires n <= |places|
  {
    if n == 0 then {}
    else
      var id := PlaceId(places[n - 1]);
      SeenIds(places, n - 1) + (if Truthy(id) then {id} else {})
  }

  /** The places among the first `n` that are kept: those with a truthy id not seen before them. */
  function Kept(places: seq<Place>, n: nat): seq<Place>
    requires n <= |places|
  {
    if n == 0 then []
    else
      var id := PlaceId(places[n - 1]);
      if Truthy(id) && id !in SeenIds(places, n - 1) then Kept(places, n - 1) + [places[n - 1]]
      else Kept(places, n - 1)
  }

  /** The dedupe: a TypeError when some truthy id is unhashable, otherwise the kept places. */
  function Dedupe(places: seq<Place>): Result<seq<Place>>
  {
    if exists j :: 0 <= j < |places| && Unhashable(PlaceId(places[j])) then Err(TypeError("unhashable type"))
    else Ok(Kept(places, |places|))
  }

  /** The dedupe loop with its `seen_ids` set and `unique_places` list. */
  method DedupeById(places: seq<Place>) returns (r: Result<seq<Place>>)
    ensures r == Dedupe(places)
  {
    var seen: set<JValue> := {};
    var unique: seq<Place> := [];
    var i := 0;
    while i < |places|
      invariant 0 <= i <= |places|
      invariant seen == SeenIds(places, i) && unique == Kept(places, i)
      invariant forall j :: 0 <= j < i ==> !Unhashable(PlaceId(places[j]))
    {
      var pid := PlaceId(places[i]);
      if Truthy(pid) {
        if pid.JArr? || pid.JObj? {
          return Err(TypeError("unhashable type"));
        }
        if pid !in seen {
          seen := seen + {pid};
          unique := unique + [places[i]];
        }
      }
      i := i + 1;
    }
    return Ok(unique);
  }

  lemma {:induction false} SeenIdsMembers(places: seq<Place>, n: nat)
    requires n <= |places|
    ensures forall id :: id in SeenIds(places, n) <==>
              exists j :: 0 <= j < n && Truthy(PlaceId(places[j])) && PlaceId(places[j]) == id
  {
    if n > 0 {
      SeenIdsMembers(places, n - 1);
    }
  }

  /** The first occurrence of a truthy id: no place before it has that id. */
  predicate FirstOccurrence(places: seq<Place>, j: nat)
    requires j < |places|
  {
    Truthy(PlaceId(places[j])) && forall i :: 0 <= i < j ==> PlaceId(places[i]) != PlaceId(places[j])
  }

  /** Every kept place is the first occurrence of its id. */
  lemma {:induction false} KeptAreFirstOccurrences(places: seq<Place>, n: nat)
    requires n <= |places|
    ensures forall k :: 0 <= k < |Kept(places, n)| ==>
              exists j :: 0 <= j < n && Kept(places, n)[k] == places[j] && FirstOccurrence(places, j)
  {
    if n > 0 {
      KeptAreFirstOccurrences(places, n - 1);
      SeenIdsMembers(places, n - 1);
      var prev := Kept(places, n - 1);
      var kept := Kept(places, n);
      forall k | 0 <= k < |kept|
        ensures exists j :: 0 <= j < n && kept[k] == places[j] && FirstOccurrence(places, j)
      {
        if k < |prev| {
          assert kept[k] == prev[k];
        } else {
          forall i | 0 <= i < n - 1
            ensures PlaceId(places[i]) != PlaceId(places[n - 1])
          {
            if Truthy(PlaceId(places[i])) {
              assert PlaceId(places[i]) in SeenIds(places, n - 1);
            }
          }
          assert kept[k] == places[n - 1] && FirstOccurrence(places, n - 1);
        }
      }
      assert forall k :: 0 <= k < |kept| ==> exists j :: 0 <= j < n && kept[k] == places[j] && FirstOccurrence(places, j);
    } else {
      assert Kept(places, n) == [];
    }
  }

  /** The ids met so far are exactly the ids of the places kept so far. */
  lemma {:induction false} KeptCoversSeen(places: seq<Place>, n: nat)
    requires n <= |places|
    ensures forall id :: id in SeenIds(places, n) <==> exists k :: 0 <= k < |Kept(places, n)| && PlaceId(Kept(places, n)[k]) == id
  {
    if n > 0 {
      KeptCoversSeen(places, n - 1);
      var prev := Kept(places, n - 1);
      var kept := Kept(places, n);
      var id := PlaceId(places[n - 1]);
      assert forall k :: 0 <= k < |prev| ==> kept[k] == prev[k];
      forall id' | id' in SeenIds(places, n)
        ensures exists k :: 0 <= k < |kept| && PlaceId(kept[k]) == id'
      {
        if id' in SeenIds(places, n - 1) {
          var k :| 0 <= k < |prev| && PlaceId(prev[k]) == id';
          assert kept[k] == prev[k];
        } else {
          assert PlaceId(kept[|prev|]) == id';
        }
      }
      forall k | 0 <= k < |kept|
        ensures PlaceId(kept[k]) in SeenIds(places, n)
      {
        if k < |prev| {
          assert PlaceId(prev[k]) in SeenIds(places, n - 1);
        }
      }
    }
  }

  /** The kept places have pairwise distinct ids. */
  lemma {:induction false} KeptIdsDistinct(places: seq<Place>, n: nat)
    requires n <= |places|
    ensures forall a, b :: 0 <= a < b < |Kept(places, n)| ==> PlaceId(Kept(places, n)[a]) != PlaceId(Kept(places, n)[b])
  {
    if n > 0 {
      KeptIdsDistinct(places, n - 1);
      KeptCoversSeen(places, n - 1);
      var prev := Kept(places, n - 1);
      var kept := Kept(places, n);
      assert forall k :: 0 <= k < |prev| ==> kept[k] == prev[k];
    }
  }

  /** The dedupe keeps the places in their original order: a longer input only adds places at the end. */
  lemma {:induction false} KeptExtends(places: seq<Place>, m: nat, n: nat)
    requires m <= n <= |places|
    ensures |Kept(places, m)| <= |Kept(places, n)| && Kept(places, n)[..|Kept(places, m)|] == Kept(places, m)
    decreases n - m
  {
    if m < n {
      KeptExtends(places, m, n - 1);
      var a := Kept(places, m);
      var b := Kept(places, n - 1);
      assert Kept(places, n)[..|b|] == b;
      assert b[..|a|] == a;
    }
  }

  /** Places whose ids are truthy, hashable and pairwise distinct pass the dedupe unchanged. */
  lemma {:induction false} KeptDistinct(places: seq<Place>, n: nat)
    requires n <= |places|
    requires forall k :: 0 <= k < |places| ==> Truthy(PlaceId(places[k]))
    requires forall a, b :: 0 <= a < b < |places| ==> PlaceId(places[a]) != PlaceId(places[b])
    ensures Kept(places, n) == places[..n]
  {
    if n > 0 {
      KeptDistinct(places, n - 1);
      SeenIdsMembers(places, n - 1);
      assert places[..n] == places[..n - 1] + [places[n - 1]];
    }
  }

  /** Deduplicating twice is deduplicating once. */
  lemma DedupeIdempotent(places: seq<Place>)
    requires Dedupe(places).Ok?
    ensures Dedupe(Dedupe(places).value) == Dedupe(places)
  {
    var kept := Kept(places, |places|);
    KeptAreFirstOccurrences(places, |places|);
    KeptIdsDistinct(places, |places|);
    forall k | 0 <= k < |kept|
      ensures Truthy(PlaceId(kept[k])) && !Unhashable(PlaceId(kept[k]))
    {
      var j :| 0 <= j < |places| && kept[k] == places[j] && FirstOccurrence(places, j);
    }
    KeptDistinct(kept, |kept|);
    assert kept[..|kept|] == kept;
  }

  // ---------------------------------------------------------------------
  // _upsert_venues (app/venue_loader.py:186-205)
  // ---------------------------------------------------------------------

  /** A stored value: a JSON value or a timestamp. */
  datatype DocValue = JV(j: JValue) | Time(t: DateTime)

  /** A stored venue document. */
  type Doc = map<string, DocValue>

  function OptText(s: Option<string>): JValue
  {
    if s.Some? then JStr(s.value) else JNull
  }

  /** The `$set` part: every field of the venue except `created_at`, which was popped off. */
  function SetDocument(v: PlaceVenue): (d: Doc)
    ensures "created_at" !in d && "venue_state" !in d
  {
    map["name" := JV(v.name),
        "google_place_id" := JV(v.googlePlaceId),
        "location" := JV(JObj(map["type" := JStr(v.locationType), "coordinates" := JArr(v.coordinates)])),
        "address" := JV(v.address),
        "website" := JV(v.website),
        "google_maps_url" := JV(v.googleMapsUrl),
        "rating" := JV(v.rating),
        "schedule_url" := JV(OptText(v.scheduleUrl)),
        "scraping_strategy" := JV(OptText(v.scrapingStrategy)),
        "scraping_instructions" := JV(OptText(v.scrapingInstructions)),
        "updated_at" := Time(v.updatedAt)]
  }

  /** The `$setOnInsert` part. */
  function OnInsert(createdAt: DateTime): Doc
  {
    map["created_at" := Time(createdAt), "venue_state" := JV(JStr("new"))]
  }

  /**
   * `update_one({"google_place_id": key}, {"$set": update, "$setOnInsert": onInsert}, upsert=True)`:
   * a matching document gets the `$set` fields; otherwise a new document
   * holds both parts.
   */
  function UpdatedDocs(docs: map<JValue, Doc>, key: JValue, update: Doc, onInsert: Doc): map<JValue, Doc>
  {
    if key in docs then docs[key := docs[key] + update] else docs[key := update + onInsert]
  }

  /** The venues collection, one document per `google_place_id` (null standing for a null or missing id). */
  class VenueCollection {
    var docs: map<JValue, Doc>

    constructor (docs: map<JValue, Doc>)
      ensures this.docs == docs
    {
      this.docs := docs;
    }

    /** The upserting `update_one`; true when a document was inserted (`upserted_id` is set). */
    method UpdateOne(key: JValue, update: Doc, onInsert: Doc) returns (upserted: bool)
      modifies this
      ensures docs == UpdatedDocs(old(docs), key, update, onInsert) && upserted == (key !in old(docs))
    {
      upserted := key !in docs;
      docs := UpdatedDocs(docs, key, update, onInsert);
    }
  }

  /** The collection after upserting `venues` in order, and the number of inserted documents. */
  datatype Upserted = Upserted(docs: map<JValue, Doc>, saved: nat)

  function UpsertAll(docs: map<JValue, Doc>, venues: seq<PlaceVenue>): Upserted
  {
    if venues == [] then Upserted(docs, 0)
    else
      var prev := UpsertAll(docs, venues[..|venues| - 1]);
      var v := venues[|venues| - 1];
      Upserted(UpdatedDocs(prev.docs, v.googlePlaceId, SetDocument(v), OnInsert(v.createdAt)),
               prev.saved + if v.googlePlaceId in prev.docs then 0 else 1)
  }

  /** `_upsert_venues`: upsert each venue by place id, counting inserts as saved and matches as skipped. */
  method UpsertVenues(coll: VenueCollection, venues: seq<PlaceVenue>) returns (saved: nat, skipped: nat)
    modifies coll
    ensures saved + skipped == |venues|
    ensures coll.docs == UpsertAll(old(coll.docs), venues).docs && saved == UpsertAll(old(coll.docs), venues).saved
  {
    saved := 0;
    skipped := 0;
    var i := 0;
    while i < |venues|
      invariant 0 <= i <= |venues| && saved + skipped == i
      invariant coll.docs == UpsertAll(old(coll.docs), venues[..i]).docs
      invariant saved == UpsertAll(old(coll.docs), venues[..i]).saved
    {
      var venue := venues[i];
      var createdAt := venue.createdAt;
      var upserted := coll.UpdateOne(venue.googlePlaceId, SetDocument(venue), OnInsert(createdAt));
      if upserted {
        saved := saved + 1;
      } else {
        skipped := skipped + 1;
      }
      assert venues[..i + 1][..i] == venues[..i];
      i := i + 1;
    }
    assert venues[..i] == venues;
  }

  /** The place ids of some venues. */
  function IdsOf(venues: seq<PlaceVenue>): set<JValue>
  {
    set i | 0 <= i < |venues| :: venues[i].googlePlaceId
  }

  lemma IdsOfSnoc(venues: seq<PlaceVenue>)
    requires venues != []
    ensures IdsOf(venues) == IdsOf(venues[..|venues| - 1]) + {venues[|venues| - 1].googlePlaceId}
  {
    var init := venues[..|venues| - 1];
    forall id | id in IdsOf(venues)
      ensures id in IdsOf(init) + {venues[|venues| - 1].googlePlaceId}
    {
      var i :| 0 <= i < |venues| && venues[i].googlePlaceId == id;
      if i < |venues| - 1 {
        assert init[i] == venues[i];
      }
    }
    forall id | id in IdsOf(init)
      ensures id in IdsOf(venues)
    {
      var i :| 0 <= i < |init| && init[i].googlePlaceId == id;
      assert venues[i] == init[i];
    }
  }

  /** After the upserts the collection holds the ids it held and the ids of the venues. */
  lemma {:induction false} KeysAfterUpsert(docs: map<JValue, Doc>, venues: seq<PlaceVenue>)
    ensures UpsertAll(docs, venues).docs.Keys == docs.Keys + IdsOf(venues)
  {
    if venues != [] {
      KeysAfterUpsert(docs, venues[..|venues| - 1]);
      IdsOfSnoc(venues);
    }
  }

  /** The saved count is the number of documents the upserts added, never more than the venues. */
  lemma {:induction false} SavedCountsNewDocuments(docs: map<JValue, Doc>, venues: seq<PlaceVenue>)
    ensures var u := UpsertAll(docs, venues); u.saved == |u.docs| - |docs| && u.saved <= |venues|
  {
    if venues != [] {
      SavedCountsNewDocuments(docs, venues[..|venues| - 1]);
    }
  }

  /** `created_at` and `venue_state` of a document that was already there are never touched. */
  lemma {:induction false} ExistingKeepCreation(docs: map<JValue, Doc>, venues: seq<PlaceVenue>, key: JValue)
    requires key in docs
    ensures var d := UpsertAll(docs, venues).docs;
      key in d &&
      ("created_at" in d[key] <==> "created_at" in docs[key]) &&
      ("created_at" in docs[key] ==> d[key]["created_at"] == docs[key]["created_at"]) &&
      ("venue_state" in d[key] <==> "venue_state" in docs[key]) &&
      ("venue_state" in docs[key] ==> d[key]["venue_state"] == docs[key]["venue_state"])
  {
    if venues != [] {
      ExistingKeepCreation(docs, venues[..|venues| - 1], key);
    }
  }

  /** The first venue carrying `key` among `venues`. */
  predicate FirstWithId(venues: seq<PlaceVenue>, i: int, key: JValue)
  {
    0 <= i < |venues| && venues[i].googlePlaceId == key && forall j :: 0 <= j < i ==> venues[j].googlePlaceId != key
  }

  /** A new document starts in state "new", created at the time of the first venue with its id. */
  lemma {:induction false} NewStartsNew(docs: map<JValue, Doc>, venues: seq<PlaceVenue>, key: JValue)
    requires key in UpsertAll(docs, venues).docs && key !in docs
    ensures var d := UpsertAll(docs, venues).docs[key];
      "venue_state" in d && d["venue_state"] == JV(JStr("new")) && "created_at" in d &&
      exists i :: FirstWithId(venues, i, key) && d["created_at"] == Time(venues[i].createdAt)
  {
    assert venues != [];
    var init := venues[..|venues| - 1];
    if key in UpsertAll(docs, init).docs {
      NewStartsNew(docs, init, key);
      var pd := UpsertAll(docs, init).docs[key];
      var i :| FirstWithId(init, i, key) && pd["created_at"] == Time(init[i].createdAt);
      InsertedEarlier(docs, venues, key);
      FirstWithIdExtends(venues, i, key);
    } else {
      InsertedByLast(docs, venues, key);
    }
  }

  /** The first venue with an id stays the first when another venue is appended. */
  lemma FirstWithIdExtends(venues: seq<PlaceVenue>, i: int, key: JValue)
    requires venues != [] && FirstWithId(venues[..|venues| - 1], i, key)
    ensures FirstWithId(venues, i, key) && venues[i] == venues[..|venues| - 1][i]
  {
    var init := venues[..|venues| - 1];
    forall j | 0 <= j <= i
      ensures venues[j] == init[j]
    {
    }
  }

  /** One upsert leaves the creation fields of an existing document as they were. */
  lemma StepKeepsCreation(prev: map<JValue, Doc>, v: PlaceVenue, key: JValue)
    requires key in prev
    ensures var d := UpdatedDocs(prev, v.googlePlaceId, SetDocument(v), OnInsert(v.createdAt));
      key in d &&
      ("created_at" in d[key] <==> "created_at" in prev[key]) &&
      ("created_at" in prev[key] ==> d[key]["created_at"] == prev[key]["created_at"]) &&
      ("venue_state" in d[key] <==> "venue_state" in prev[key]) &&
      ("venue_state" in prev[key] ==> d[key]["venue_state"] == prev[key]["venue_state"])
  {
    var upd := SetDocument(v);
    if key == v.googlePlaceId {
      MergeOutside(prev[key], upd, "venue_state");
      MergeOutside(prev[key], upd, "created_at");
    }
  }

  /** A document inserted before the last venue keeps its creation fields through it. */
  lemma InsertedEarlier(docs: map<JValue, Doc>, venues: seq<PlaceVenue>, key: JValue)
    requires venues != [] && key in UpsertAll(docs, venues[..|venues| - 1]).docs
    ensures var pd := UpsertAll(docs, venues[..|venues| - 1]).docs[key];
      var d := UpsertAll(docs, venues).docs;
      key in d &&
      ("created_at" in d[key] <==> "created_at" in pd) &&
      ("created_at" in pd ==> d[key]["created_at"] == pd["created_at"]) &&
      ("venue_state" in d[key] <==> "venue_state" in pd) &&
      ("venue_state" in pd ==> d[key]["venue_state"] == pd["venue_state"])
  {
    var v := venues[|venues| - 1];
    StepKeepsCreation(UpsertAll(docs, venues[..|venues| - 1]).docs, v, key);
  }

  /** A document the last venue inserts holds both parts, and no earlier venue had its id. */
  lemma InsertedByLast(docs: map<JValue, Doc>, venues: seq<PlaceVenue>, key: JValue)
    requires venues != [] && key in UpsertAll(docs, venues).docs && key !in docs
    requires key !in UpsertAll(docs, venues[..|venues| - 1]).docs
    ensures var d := UpsertAll(docs, venues).docs[key];
      "venue_state" in d && d["venue_state"] == JV(JStr("new")) && "created_at" in d &&
      d["created_at"] == Time(venues[|venues| - 1].createdAt) && FirstWithId(venues, |venues| - 1, key)
  {
    var init := venues[..|venues| - 1];
    var v := venues[|venues| - 1];
    KeysAfterUpsert(docs, init);
    assert key == v.googlePlaceId;
    var d := UpsertAll(docs, venues).docs[key];
    assert d == SetDocument(v) + OnInsert(v.createdAt);
    MergeRight(SetDocument(v), OnInsert(v.createdAt), "venue_state");
    MergeRight(SetDocument(v), OnInsert(v.createdAt), "created_at");
    forall j | 0 <= j < |init|
      ensures venues[j].googlePlaceId != key
    {
      assert venues[j] == init[j] && init[j].googlePlaceId in IdsOf(init);
    }
  }

  /** A field the `$set` part does not name keeps its stored value. */
  lemma MergeOutside(a: Doc, b: Doc, f: string)
    requires f !in b
    ensures (f in a + b <==> f in a) && (f in a ==> (a + b)[f] == a[f])
  {
  }

  /** A field of the right-hand part wins the merge. */
  lemma MergeRight(a: Doc, b: Doc, f: string)
    requires f in b
    ensures f in a + b && (a + b)[f] == b[f]
  {
  }

  /** Documents of places that are not among the venues are left as they were. */
  lemma {:induction false} OtherDocumentsUntouched(docs: map<JValue, Doc>, venues: seq<PlaceVenue>, key: JValue)
    requires key !in IdsOf(venues)
    ensures var u := UpsertAll(docs, venues); (key in u.docs <==> key in docs) && (key in docs ==> u.docs[key] == docs[key])
  {
    if venues != [] {
      IdsOfSnoc(venues);
      OtherDocumentsUntouched(docs, venues[..|venues| - 1], key);
    }
  }

  /**
   * Loading a place again overwrites the scraping configuration of its
   * stored venue with nulls: the `$set` part carries the fresh venue's empty
   * schedule URL, strategy and instructions.
   */
  lemma ReloadClearsConfiguration(docs: map<JValue, Doc>, place: Place, createdAt: DateTime, updatedAt: DateTime)
    requires PlaceToVenue(place, createdAt, updatedAt).Ok?
    ensures var v := PlaceToVenue(place, createdAt, updatedAt).value;
      var d := UpsertAll(docs, [v]).docs[v.googlePlaceId];
      d["schedule_url"] == JV(JNull) && d["scraping_strategy"] == JV(JNull) && d["scraping_instructions"] == JV(JNull)
  {
    UpsertWithoutConfiguration(docs, PlaceToVenue(place, createdAt, updatedAt).value);
  }

  /** Upserting a venue without a scraping configuration stores nulls for it. */
  lemma UpsertWithoutConfiguration(docs: map<JValue, Doc>, v: PlaceVenue)
    requires v.scheduleUrl == None && v.scrapingStrategy == None && v.scrapingInstructions == None
    ensures var d := UpsertAll(docs, [v]).docs[v.googlePlaceId];
      d["schedule_url"] == JV(JNull) && d["scraping_strategy"] == JV(JNull) && d["scraping_instructions"] == JV(JNull)
  {
    assert [v][..0] == [];
    var upd := SetDocument(v);
    assert upd["schedule_url"] == JV(JNull) && upd["scraping_strategy"] == JV(JNull) && upd["scraping_instructions"] == JV(JNull);
    if v.googlePlaceId in docs {
      MergeRight(docs[v.googlePlaceId], upd, "schedule_url");
      MergeRight(docs[v.googlePlaceId], upd, "scraping_strategy");
      MergeRight(docs[v.googlePlaceId], upd, "scraping_instructions");
    } else {
      MergeOutside(upd, OnInsert(v.createdAt), "schedule_url");
      MergeOutside(upd, OnInsert(v.createdAt), "scraping_strategy");
      MergeOutside(upd, OnInsert(v.createdAt), "scraping_instructions");
    }
  }
}
