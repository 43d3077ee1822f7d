/**
 * The event store of the pipeline (app/pipeline.py:63-85): events are
 * upserted one at a time under the key (venue_id, date, title), and the
 * number of upserts that inserted a document or changed one is reported.
 * The database is a map from key to the stored event; whether the n-th
 * update raises is a function supplied from outside (`fails`).
 */
module Store {
  import opened Models

  /** The store after a run of upserts, the number of updates sent so far, and the saved count of the run. */
  datatype SaveRun = SaveRun(docs: map<EventKey, Event>, attempts: nat, saved: nat)

  /** An upsert changes the store when the key is new or the stored event differs. */
  predicate Changes(docs: map<EventKey, Event>, e: Event)
  {
    KeyOf(e) !in docs || docs[KeyOf(e)] != e
  }

  /** One update: a failure leaves the store alone and is skipped; otherwise the event is written under its key. */
  function SaveOne(fails: nat -> bool, run: SaveRun, e: Event): SaveRun
  {
    if fails(run.attempts) then run.(attempts := run.attempts + 1)
    else SaveRun(run.docs[KeyOf(e) := e], run.attempts + 1, run.saved + (if Changes(run.docs, e) then 1 else 0))
  }

  /** The events upserted in order, starting from `docs` with `attempts` updates already sent. */
  function SaveAll(fails: nat -> bool, docs: map<EventKey, Event>, attempts: nat, events: seq<Event>): (r: SaveRun)
    ensures r.saved <= |events|
    ensures r.attempts == attempts + |events|
  {
    if events == [] then SaveRun(docs, attempts, 0)
    else SaveOne(fails, SaveAll(fails, docs, attempts, events[..|events| - 1]), events[|events| - 1])
  }

  /**
   * The key of event i holds event i afterwards when every later event with
   * the same key failed to save and event i itself did not: the last
   * successful write wins.
   */
  lemma {:induction false} LastWriteWins(fails: nat -> bool, docs: map<EventKey, Event>, attempts: nat,
                                         events: seq<Event>, i: nat)
    requires i < |events| && !fails(attempts + i)
    requires forall j :: i < j < |events| && KeyOf(events[j]) == KeyOf(events[i]) ==> fails(attempts + j)
    ensures var r := SaveAll(fails, docs, attempts, events);
            KeyOf(events[i]) in r.docs && r.docs[KeyOf(events[i])] == events[i]
    decreases |events|
  {
    var init := events[..|events| - 1];
    var prev := SaveAll(fails, docs, attempts, init);
    assert prev.attempts == attempts + |init|;
    if i < |events| - 1 {
      assert init[i] == events[i];
      forall j | i < j < |init| && KeyOf(init[j]) == KeyOf(init[i])
        ensures fails(attempts + j)
      {
        assert init[j] == events[j];
      }
      LastWriteWins(fails, docs, attempts, init, i);
    }
  }

  /** A key none of the events has keeps what it had, present or absent. */
  lemma {:induction false} OtherKeysUntouched(fails: nat -> bool, docs: map<EventKey, Event>, attempts: nat,
                                              events: seq<Event>, k: EventKey)
    requires forall j :: 0 <= j < |events| ==> KeyOf(events[j]) != k
    ensures var r := SaveAll(fails, docs, attempts, events);
            (k in r.docs <==> k in docs) && (k in docs ==> r.docs[k] == docs[k])
    decreases |events|
  {
    if events != [] {
      var init := events[..|events| - 1];
      forall j | 0 <= j < |init|
        ensures KeyOf(init[j]) != k
      {
        assert init[j] == events[j];
      }
      OtherKeysUntouched(fails, docs, attempts, init, k);
    }
  }

  /** The stored keys afterwards are the old ones and the keys of the events whose update went through. */
  lemma {:induction false} StoredKeys(fails: nat -> bool, docs: map<EventKey, Event>, attempts: nat,
                                      events: seq<Event>)
    ensures var r := SaveAll(fails, docs, attempts, events);
            forall k :: k in r.docs <==>
              k in docs || exists j :: 0 <= j < |events| && !fails(attempts + j) && KeyOf(events[j]) == k
    decreases |events|
  {
    if events != [] {
      var init := events[..|events| - 1];
      var n := |init|;
      var prev := SaveAll(fails, docs, attempts, init);
      var r := SaveAll(fails, docs, attempts, events);
      StoredKeys(fails, docs, attempts, init);
      assert r == SaveOne(fails, prev, events[n]);
      assert prev.attempts == attempts + n;
      forall k
        ensures k in r.docs <==> k in docs || exists j :: 0 <= j < |events| && !fails(attempts + j) && KeyOf(events[j]) == k
      {
        if k in prev.docs && k !in docs {
          var j :| 0 <= j < n && !fails(attempts + j) && KeyOf(init[j]) == k;
          assert init[j] == events[j];
        }
        if j :| 0 <= j < |events| && !fails(attempts + j) && KeyOf(events[j]) == k {
          if j < n {
            assert init[j] == events[j];
          }
        }
      }
    }
  }

  /** Upserting into a store that has none of the keys, with distinct keys and no failure, saves every event. */
  lemma {:induction false} FreshEventsAllSaved(fails: nat -> bool, docs: map<EventKey, Event>, attempts: nat,
                                               events: seq<Event>)
    requires forall j :: 0 <= j < |events| ==> KeyOf(events[j]) !in docs && !fails(attempts + j)
    requires forall i, j :: 0 <= i < j < |events| ==> KeyOf(events[i]) != KeyOf(events[j])
    ensures SaveAll(fails, docs, attempts, events).saved == |events|
    decreases |events|
  {
    if events != [] {
      var init := events[..|events| - 1];
      var last := events[|events| - 1];
      assert forall j :: 0 <= j < |init| ==> init[j] == events[j];
      FreshEventsAllSaved(fails, docs, attempts, init);
      OtherKeysUntouched(fails, docs, attempts, init, KeyOf(last));
    }
  }

  /** Saving the same events again, with no failure, changes nothing and counts nothing. */
  lemma {:induction false} ResaveCountsNothing(fails: nat -> bool, docs: map<EventKey, Event>, attempts: nat,
                                               events: seq<Event>)
    requires forall j :: 0 <= j < |events| ==> KeyOf(events[j]) in docs && docs[KeyOf(events[j])] == events[j]
    ensures SaveAll(fails, docs, attempts, events).saved == 0
    ensures SaveAll(fails, docs, attempts, events).docs == docs
    decreases |events|
  {
    if events != [] {
      var init := events[..|events| - 1];
      assert forall j :: 0 <= j < |init| ==> init[j] == events[j];
      ResaveCountsNothing(fails, docs, attempts, init);
    }
  }

  /** The events collection. */
  class EventStore {
    var docs: map<EventKey, Event>
    var attempts: nat
    const fails: nat -> bool

    constructor(docs: map<EventKey, Event>, fails: nat -> bool)
      ensures this.docs == docs && attempts == 0 && this.fails == fails
    {
      this.docs := docs;
      attempts := 0;
      this.fails := fails;
    }

    /** `update_one(filter, {"$set": doc}, upsert=True)`: whether it inserted or modified a document, or the error. */
    method UpdateOne(e: Event) returns (counted: bool, failed: bool)
      modifies this
      ensures var r := SaveOne(fails, SaveRun(old(docs), old(attempts), 0), e);
              docs == r.docs && attempts == r.attempts && (counted <==> r.saved == 1) && (failed <==> fails(old(attempts)))
    {
      failed := fails(attempts);
      counted := false;
      if !failed {
        counted := Changes(docs, e);
        docs := docs[KeyOf(e) := e];
      }
      attempts := attempts + 1;
    }

    /** `_save_events`: every event upserted in turn; a failing update is skipped and the loop goes on. */
    method SaveEvents(events: seq<Event>) returns (saved: nat)
      modifies this
      ensures var r := SaveAll(fails, old(docs), old(attempts), events);
              docs == r.docs && attempts == r.attempts && saved == r.saved
    {
      saved := 0;
      var i := 0;
      while i < |events|
        invariant 0 <= i <= |events|
        invariant var r := SaveAll(fails, old(docs), old(attempts), events[..i]);
                  docs == r.docs && attempts == r.attempts && saved == r.saved
      {
        assert events[..i + 1][..i] == events[..i];
        var counted, failed := UpdateOne(events[i]);
        if counted {
          saved := saved + 1;
        }
        i := i + 1;
      }
      assert events[..i] == events;
    }
  }
}
