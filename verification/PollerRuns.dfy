/** Every run of a polled feed whose server returns all records past the watermark it is given and
    publishes only under greater identifiers: polls cut short anywhere or failing anyhow, and whatever is
    published or stored meanwhile, between the items of one poll as well as between polls. */
module PollerRuns {
  import opened Domain
  import opened PolicyRules
  import opened Configuration
  import opened Store
  import opened Pipeline
  import opened Invariants
  import opened Checkpoints
  import opened Ingests
  import opened Offers
  import opened Poller

  /** The record published under id is stored. */
  ghost predicate Stored(name: string, s: Tables, id: string) {
    Taken(s, Key(name, BySourceId(id)))
  }

  // ---- One item ----

  /** An item is an event unless it is no object or a cursor field is configured that it does not carry as
      a nonempty string or number; and with such a field two items are one delivery exactly when they
      agree in it, whatever else they carry. */
  lemma CursorFieldIsIdentity(v: View, a: Value, b: Value, i: Id, j: Id)
    ensures EventOf(v, a, i).Some? <==>
      a.Object? && (v.src.cursorField == ""
                    || (v.src.cursorField in a.fields
                        && (a.fields[v.src.cursorField].Text? || a.fields[v.src.cursorField].Literal?)
                        && a.fields[v.src.cursorField] !in {Text(""), Literal("")}))
    ensures v.src.cursorField != "" && EventOf(v, a, i).Some? && EventOf(v, b, j).Some? ==>
      (KeyOf(EventOf(v, a, i).value) == KeyOf(EventOf(v, b, j).value) <==>
       CursorValue(a.fields, v.src.cursorField) == CursorValue(b.fields, v.src.cursorField))
  {
  }

  // ---- One walk over a batch ----

  /** Item q is an event of this source and stored. */
  ghost predicate Kept(v: View, s: Tables, item: Value) {
    && item.Object?
    && (v.src.cursorField != "" ==>
          var id := CursorValue(item.fields, v.src.cursorField); id != "" && Stored(v.src.name, s, id))
  }

  ghost predicate AllKept(v: View, s: Tables, items: seq<Value>, k: nat) {
    forall q {:trigger items[q]} | k <= q < |items| :: Kept(v, s, items[q])
  }

  lemma OfferKeeps(v: View, rt: Runtime, sem: Semantics, w: World, item: Value, id: Id, s: Tables)
    requires EventOf(v, item, id).Some?
    ensures var (s', response) := IngestResult(rt, sem, w, s, EventOf(v, item, id).value);
      Grows(s, s') && (response != IngestError ==> Kept(v, s', item))
  {
    var e := EventOf(v, item, id).value;
    IngestGrows(rt, sem, w, s, e);
    DuplicateIffTaken(rt, sem, w, s, e);
  }

  lemma {:induction false} WalkGrows(v: View, rt: Runtime, sem: Semantics, f: Faults, items: seq<Value>, k: nat,
                                     s: Tables, complete: bool, newest: string)
    requires k <= |items|
    ensures Grows(s, Walk(v, rt, sem, f, items, k, s, complete, newest).tables)
    ensures !complete ==> !Walk(v, rt, sem, f, items, k, s, complete, newest).complete
    decreases |items| - k
  {
    if k < |items| && k < f.cancelAt {
      match EventOf(v, items[k], f.id(k))
      case None =>
        WalkGrows(v, rt, sem, f, items, k + 1, s, false, newest);
      case Some(e) =>
        var (s', response) := IngestResult(rt, sem, f.world(k), s, e);
        IngestGrows(rt, sem, f.world(k), s, e);
        WalkGrows(v, rt, sem, f, items, k + 1, s', complete && response != IngestError,
                  if response == IngestError then newest else Later(newest, e.sourceId));
        GrowsTwice(s, s', Walk(v, rt, sem, f, items, k, s, complete, newest).tables);
    }
  }

  /** newest is the greatest of a starting value and the identifiers of items[lo..hi]. */
  ghost predicate IsGreatest(v: View, items: seq<Value>, lo: nat, hi: nat, start: string, newest: string)
    requires hi <= |items|
  {
    && (newest == start
        || exists q | lo <= q < hi :: items[q].Object? && newest == CursorValue(items[q].fields, v.src.cursorField))
    && AtMost(start, newest)
    && forall q {:trigger items[q]} | lo <= q < hi && items[q].Object? ::
         AtMost(CursorValue(items[q].fields, v.src.cursorField), newest)
  }

  lemma GreatestOfRest(v: View, items: seq<Value>, k: nat, start: string, newest: string)
    requires k < |items| && items[k].Object?
    requires IsGreatest(v, items, k + 1, |items|, Later(start, CursorValue(items[k].fields, v.src.cursorField)), newest)
    ensures IsGreatest(v, items, k, |items|, start, newest)
  {
    var c := CursorValue(items[k].fields, v.src.cursorField);
    LessIsTotal(start, c);
    LessIsTransitive(newest, start, c);
    LessIsTransitive(newest, c, start);
    LessIsTotal(newest, Later(start, c));
    LessIsTransitive(start, c, newest);
    LessIsTransitive(c, start, newest);
  }

  lemma AtMostLater(a: string, b: string, c: string)
    requires AtMost(a, b)
    ensures AtMost(a, Later(b, c)) && AtMost(c, Later(b, c)) && AtMost(b, Later(b, c))
  {
    LessIsStrict(b);
    LessIsStrict(c);
    LessIsTotal(a, b);
    LessIsTotal(b, c);
    LessIsTransitive(b, c, a);
    LessIsTransitive(c, b, c);
    LessIsTransitive(c, a, b);
    LessIsTransitive(a, b, c);
    LessIsTransitive(c, a, c);
  }

  lemma GreatestSoFar(v: View, items: seq<Value>, k: nat, newest: string)
    requires k < |items| && items[k].Object? && IsGreatest(v, items, 0, k, "", newest)
    ensures IsGreatest(v, items, 0, k + 1, "", Later(newest, CursorValue(items[k].fields, v.src.cursorField)))
  {
    var c := CursorValue(items[k].fields, v.src.cursorField);
    AtMostLater("", newest, c);
    forall q | 0 <= q < k + 1 && items[q].Object?
      ensures AtMost(CursorValue(items[q].fields, v.src.cursorField), Later(newest, c))
    {
      if q < k {
        AtMostLater(CursorValue(items[q].fields, v.src.cursorField), newest, c);
      }
    }
  }

  /** A batch that ends complete was stored to the last item, and its watermark is the string maximum
      of its identifiers, in whatever order they came. */
  lemma {:induction false} CompleteBatchIsKept(v: View, rt: Runtime, sem: Semantics, f: Faults, items: seq<Value>,
                                               k: nat, s: Tables, newest: string)
    requires k <= |items|
    requires var w := Walk(v, rt, sem, f, items, k, s, true, newest); w.complete && !w.cancelled
    ensures var w := Walk(v, rt, sem, f, items, k, s, true, newest);
      AllKept(v, w.tables, items, k) && IsGreatest(v, items, k, |items|, newest, w.newest)
    decreases |items| - k
  {
    LessIsStrict(newest);
    if k < |items| {
      var w := Walk(v, rt, sem, f, items, k, s, true, newest);
      if EventOf(v, items[k], f.id(k)).None? {
        WalkGrows(v, rt, sem, f, items, k + 1, s, false, newest);
      } else {
        var e := EventOf(v, items[k], f.id(k)).value;
        var (s', response) := IngestResult(rt, sem, f.world(k), s, e);
        OfferKeeps(v, rt, sem, f.world(k), items[k], f.id(k), s);
        if response == IngestError {
          WalkGrows(v, rt, sem, f, items, k + 1, s', false, newest);
        } else {
          CompleteBatchIsKept(v, rt, sem, f, items, k + 1, s', Later(newest, e.sourceId));
          WalkGrows(v, rt, sem, f, items, k + 1, s', true, Later(newest, e.sourceId));
          GreatestOfRest(v, items, k, newest, w.newest);
          KeptGrows(v, s', w.tables, items[k]);
        }
      }
    }
  }

  lemma KeptGrows(v: View, s: Tables, s': Tables, item: Value)
    requires Grows(s, s') && Kept(v, s, item)
    ensures Kept(v, s', item)
  {
  }

  // ---- Exactly when the watermark is written, and to what ----

  /** The tables a walk over items[k..] has reached when it comes to item q. */
  function TablesAt(v: View, rt: Runtime, sem: Semantics, f: Faults, items: seq<Value>, k: nat, s: Tables,
          q: nat): Tables
    requires k <= q <= |items|
    decreases q - k
  {
    if k == q then s
    else
      var e := EventOf(v, items[k], f.id(k));
      TablesAt(v, rt, sem, f, items, k + 1, if e.Some? then IngestResult(rt, sem, f.world(k), s, e.value).0 else s, q)
  }

  /** An item becomes an event, and no fault meets its ingest at the tables reached. */
  ghost predicate Succeeds(v: View, rt: Runtime, sem: Semantics, f: Faults, item: Value, q: nat, s: Tables) {
    var e := EventOf(v, item, f.id(q));
    e.Some? && !Fails(rt, sem, f.world(q)(0), s, e.value)
  }

  ghost predicate SucceedsAt(v: View, rt: Runtime, sem: Semantics, f: Faults, items: seq<Value>, k: nat, s: Tables,
          q: int) {
    k <= q < |items| && Succeeds(v, rt, sem, f, items[q], q, TablesAt(v, rt, sem, f, items, k, s, q))
  }

  ghost predicate AllSucceed(v: View, rt: Runtime, sem: Semantics, f: Faults, items: seq<Value>, k: nat, s: Tables) {
    forall q {:trigger SucceedsAt(v, rt, sem, f, items, k, s, q)} | k <= q < |items| ::
      SucceedsAt(v, rt, sem, f, items, k, s, q)
  }

  lemma SucceedsSplits(v: View, rt: Runtime, sem: Semantics, f: Faults, items: seq<Value>, k: nat, s: Tables,
          s1: Tables)
    requires k < |items|
    requires var e := EventOf(v, items[k], f.id(k));
      s1 == if e.Some? then IngestResult(rt, sem, f.world(k), s, e.value).0 else s
    ensures AllSucceed(v, rt, sem, f, items, k, s)
       <==> Succeeds(v, rt, sem, f, items[k], k, s) && AllSucceed(v, rt, sem, f, items, k + 1, s1)
  {
    assert SucceedsAt(v, rt, sem, f, items, k, s, k) <==> Succeeds(v, rt, sem, f, items[k], k, s);
    var next := k + 1;
    if AllSucceed(v, rt, sem, f, items, k, s) {
      forall q | next <= q < |items| ensures SucceedsAt(v, rt, sem, f, items, next, s1, q) {
        assert SucceedsAt(v, rt, sem, f, items, k, s, q);
      }
    }
    if Succeeds(v, rt, sem, f, items[k], k, s) && AllSucceed(v, rt, sem, f, items, next, s1) {
      forall q | k <= q < |items| ensures SucceedsAt(v, rt, sem, f, items, k, s, q) {
        assert q > k ==> SucceedsAt(v, rt, sem, f, items, next, s1, q);
      }
    }
  }

  /** A batch ends complete if and only if every item succeeds. */
  lemma {:induction false} CompleteIff(v: View, rt: Runtime, sem: Semantics, f: Faults, items: seq<Value>, k: nat,
                                       s: Tables, complete: bool, newest: string)
    requires k <= |items| <= f.cancelAt
    ensures var w := Walk(v, rt, sem, f, items, k, s, complete, newest);
      !w.cancelled && (w.complete <==> complete && AllSucceed(v, rt, sem, f, items, k, s))
    decreases |items| - k
  {
    if k < |items| {
      match EventOf(v, items[k], f.id(k)) {
        case None =>
          CompleteIff(v, rt, sem, f, items, k + 1, s, false, newest);
          SucceedsSplits(v, rt, sem, f, items, k, s, s);
        case Some(e) =>
          var (s', response) := IngestResult(rt, sem, f.world(k), s, e);
          IngestFailsIff(rt, sem, f.world(k), s, e);
          CompleteIff(v, rt, sem, f, items, k + 1, s', complete && response != IngestError,
                      if response == IngestError then newest else Later(newest, e.sourceId));
          SucceedsSplits(v, rt, sem, f, items, k, s, s');
      }
    }
  }

  lemma {:induction false} CancelledIff(v: View, rt: Runtime, sem: Semantics, f: Faults, items: seq<Value>, k: nat,
                                        s: Tables, complete: bool, newest: string)
    requires k <= |items|
    ensures Walk(v, rt, sem, f, items, k, s, complete, newest).cancelled <==> k < |items| && f.cancelAt < |items|
    decreases |items| - k
  {
    if k < |items| && k < f.cancelAt {
      match EventOf(v, items[k], f.id(k)) {
        case None => CancelledIff(v, rt, sem, f, items, k + 1, s, false, newest);
        case Some(e) =>
          var (s', response) := IngestResult(rt, sem, f.world(k), s, e);
          CancelledIff(v, rt, sem, f, items, k + 1, s', complete && response != IngestError,
                       if response == IngestError then newest else Later(newest, e.sourceId));
      }
    }
  }

  /** What a caller can check of a poll beforehand that decides whether it writes the watermark. */
  ghost predicate Writes(v: View, rt: Runtime, sem: Semantics, f: Faults, s: Tables) {
    && f.fetched.Fetched? && f.fetched.items != [] && v.src.cursorField != ""
    && f.cancelAt > |f.fetched.items| && (f.saved || f.landed)
    && AllSucceed(v, rt, sem, f, f.fetched.items, 0, s)
  }

  /** A poll writes the watermark if and only if the batch is not empty, the feed has a cursor field,
      nothing cancels the poll, every item succeeds and the row is written; it then becomes the
      greatest identifier of the batch. */
  lemma WritesExactly(v: View, rt: Runtime, sem: Semantics, f: Faults, s: Tables, rows: Rows)
    ensures var rows' := PollResult(v, rt, sem, f, s, rows).1;
      if Writes(v, rt, sem, f, s)
      then v.src.name in rows' && rows' == rows[v.src.name := rows'[v.src.name]]
           && IsGreatest(v, f.fetched.items, 0, |f.fetched.items|, "", rows'[v.src.name])
           && rows'[v.src.name] != ""
      else rows' == rows
  {
    if f.fetched.Fetched? {
      var items := f.fetched.items;
      var w := Walk(v, rt, sem, f, items, 0, s, true, "");
      CancelledIff(v, rt, sem, f, items, 0, s, true, "");
      if f.cancelAt > |items| {
        CompleteIff(v, rt, sem, f, items, 0, s, true, "");
        if w.complete {
          CompleteBatchIsKept(v, rt, sem, f, items, 0, s, "");
          NewestOfKept(v, w.tables, items, w.newest);
        }
      }
    }
  }

  /** A poll reports no error if and only if the feed answers, nothing cancels the poll to its end, every item
      succeeds, and the watermark, if there is one to write, is saved; a cancellation is reported as itself
      however late it is found. */
  lemma SucceedsExactly(v: View, rt: Runtime, sem: Semantics, f: Faults, s: Tables, rows: Rows)
    ensures var error := PollResult(v, rt, sem, f, s, rows).2;
      match f.fetched
      case FetchFails => error == Some(FetchError)
      case Fetched(items) =>
        && (error == Some(Cancelled) <==> f.cancelAt < |items| + 2)
        && (error == None <==>
              && f.cancelAt > |items| + 1 && AllSucceed(v, rt, sem, f, items, 0, s)
              && (items != [] && v.src.cursorField != "" ==> f.saved))
  {
    if f.fetched.Fetched? {
      var items := f.fetched.items;
      var w := Walk(v, rt, sem, f, items, 0, s, true, "");
      CancelledIff(v, rt, sem, f, items, 0, s, true, "");
      if f.cancelAt > |items| {
        CompleteIff(v, rt, sem, f, items, 0, s, true, "");
        if w.complete {
          CompleteBatchIsKept(v, rt, sem, f, items, 0, s, "");
          NewestOfKept(v, w.tables, items, w.newest);
        }
      }
    }
  }

  lemma NewestOfKept(v: View, s: Tables, items: seq<Value>, newest: string)
    requires AllKept(v, s, items, 0) && IsGreatest(v, items, 0, |items|, "", newest)
    ensures newest != "" <==> items != [] && v.src.cursorField != ""
  {
    if items != [] && v.src.cursorField != "" {
      assert Kept(v, s, items[0]);
      LessIsTotal("", CursorValue(items[0].fields, v.src.cursorField));
    }
  }

  /** Whether the watermark moves back is decided by the batch alone: a poll that writes it leaves it at
      or past the old one if and only if some item's identifier is. */
  lemma KeepsWatermarkIff(v: View, rt: Runtime, sem: Semantics, f: Faults, s: Tables, rows: Rows)
    requires Writes(v, rt, sem, f, s)
    ensures var (was, now) := (Position(rows, v.src.name), Position(PollResult(v, rt, sem, f, s, rows).1, v.src.name));
      AtMost(was, now) <==>
        exists q | 0 <= q < |f.fetched.items| ::
          f.fetched.items[q].Object? && AtMost(was, CursorValue(f.fetched.items[q].fields, v.src.cursorField))
  {
    var (was, items) := (Position(rows, v.src.name), f.fetched.items);
    WritesExactly(v, rt, sem, f, s, rows);
    var now := PollResult(v, rt, sem, f, s, rows).1[v.src.name];
    forall q | 0 <= q < |items| && items[q].Object? && AtMost(was, CursorValue(items[q].fields, v.src.cursorField))
      ensures AtMost(was, now)
    {
      AtMostIsTransitive(was, CursorValue(items[q].fields, v.src.cursorField), now);
    }
  }

  lemma AtMostIsTransitive(a: string, b: string, c: string)
    requires AtMost(a, b) && AtMost(b, c)
    ensures AtMost(a, c)
  {
    LessIsTotal(a, b);
    LessIsTotal(b, c);
    LessIsTransitive(c, a, b);
    LessIsTransitive(b, c, a);
  }

  /** So over all polls: it moves back if and only if it is written from a batch that lies wholly behind it. */
  lemma MovesBackIff(v: View, rt: Runtime, sem: Semantics, f: Faults, s: Tables, rows: Rows)
    ensures var (was, now) := (Position(rows, v.src.name), Position(PollResult(v, rt, sem, f, s, rows).1, v.src.name));
      Less(now, was) <==>
        && Writes(v, rt, sem, f, s)
        && forall q | 0 <= q < |f.fetched.items| && f.fetched.items[q].Object? ::
             Less(CursorValue(f.fetched.items[q].fields, v.src.cursorField), was)
  {
    LessIsStrict(Position(rows, v.src.name));
    WritesExactly(v, rt, sem, f, s, rows);
    if Writes(v, rt, sem, f, s) {
      KeepsWatermarkIff(v, rt, sem, f, s, rows);
    }
  }

  /** It does happen: with the watermark at "b", a healthy poll that is sent the stored record "a" once
      more leaves it at "a". */
  lemma OverlapMovesWatermark(v: View, rt: Runtime, sem: Semantics, f: Faults, s: Tables, rows: Rows)
    requires v.src.cursorField == "id" && Position(rows, v.src.name) == "b" && Stored(v.src.name, s, "a")
    requires f.fetched == Fetched([Object(map["id" := Text("a")])])
    requires f.cancelAt > 2 && f.saved && f.world(0)(0).insert == NoFault
    ensures PollResult(v, rt, sem, f, s, rows) == (s, rows[v.src.name := "a"], None)
    ensures Less("a", Position(rows, v.src.name))
  {
    var item := f.fetched.items[0];
    var e := EventOf(v, item, f.id(0)).value;
    DuplicateIffTaken(rt, sem, f.world(0), s, e);
    assert Walk(v, rt, sem, f, [item], 1, s, true, e.sourceId) == Walked(s, true, e.sourceId, false);
  }

  lemma BatchVerdict(v: View, rt: Runtime, sem: Semantics, f: Faults, items: seq<Value>, s: Tables)
    ensures var w := Walk(v, rt, sem, f, items, 0, s, true, "");
      && Grows(s, w.tables)
      && (w.complete && !w.cancelled ==>
            AllKept(v, w.tables, items, 0) && IsGreatest(v, items, 0, |items|, "", w.newest))
  {
    WalkGrows(v, rt, sem, f, items, 0, s, true, "");
    var w := Walk(v, rt, sem, f, items, 0, s, true, "");
    if w.complete && !w.cancelled {
      CompleteBatchIsKept(v, rt, sem, f, items, 0, s, "");
    }
  }

  /** What one poll does to the watermark: nothing, or it becomes the string maximum of a batch whose
      every item is stored. */
  lemma WatermarkIsBatchMaximum(v: View, rt: Runtime, sem: Semantics, f: Faults, s: Tables, rows: Rows)
    ensures var (s', rows', error) := PollResult(v, rt, sem, f, s, rows);
      && Grows(s, s')
      && (rows' != rows ==>
            && f.fetched.Fetched? && rows' == rows[v.src.name := rows'[v.src.name]]
            && rows'[v.src.name] != ""
            && AllKept(v, s', f.fetched.items, 0)
            && IsGreatest(v, f.fetched.items, 0, |f.fetched.items|, "", rows'[v.src.name]))
      && (error.None? && f.fetched.Fetched? ==> AllKept(v, s', f.fetched.items, 0))
  {
    if f.fetched.Fetched? {
      BatchVerdict(v, rt, sem, f, f.fetched.items, s);
    }
  }

  /** Without a cursor field the watermark is never written. */
  lemma NoFieldNoWatermark(v: View, rt: Runtime, sem: Semantics, f: Faults, s: Tables, rows: Rows)
    requires v.src.cursorField == ""
    ensures PollResult(v, rt, sem, f, s, rows).1 == rows
  {
    WatermarkIsBatchMaximum(v, rt, sem, f, s, rows);
  }

  // ---- The whole life of a feed ----

  /** A poll under way: the batch it fetched, of which the items before next have been dealt with. */
  datatype Flight = Flight(view: View, items: seq<Value>, next: nat, complete: bool, newest: string)

  /** published is everything the server ever published, by identifier. */
  datatype Life = Life(published: map<string, Value>, rows: Rows, store: Tables, flight: Option<Flight>)

  /** Offer deals with the next item of the poll; where that ingests an event, store and response are what
      came of it, amid anything else. Abort is every way a poll can end early, death included. */
  datatype Step = Publish(id: string, item: Value)
                | Start(view: View, fetched: Fetched)
                | Offer(id: Id, store: Tables, response: Response)
                | Abort
                | Save(written: bool)
                | Elsewhere(store: Tables)

  /** A response may repeat, reorder and overlap, and may hold malformed items; it must hold every
      record past the watermark, and a well-formed item must be a published record. */
  ghost predicate Answers(life: Life, field: string, cursor: string, f: Fetched) {
    f.Fetched? ==>
      && (forall id | id in life.published && Less(cursor, id) :: life.published[id] in f.items)
      && (forall item | item in f.items && item.Object? && CursorValue(item.fields, field) != "" ::
            CursorValue(item.fields, field) in life.published)
  }

  predicate Offering(life: Life) {
    life.flight.Some? && life.flight.value.next < |life.flight.value.items|
  }

  /** The event the poll offers next, under the identifier issued for it. */
  function NextEvent(life: Life, id: Id): Option<Event>
    requires Offering(life)
  {
    EventOf(life.flight.value.view, life.flight.value.items[life.flight.value.next], id)
  }

  ghost predicate Legal(name: string, field: string, life: Life, a: Step) {
    match a
    case Publish(id, item) =>
      && id != "" && item.Object? && CursorValue(item.fields, field) == id
      && forall other | other in life.published :: Less(other, id)
    case Start(v, fetched) =>
      && v.src.name == name && v.src.cursorField == field
      && Answers(life, field, Position(life.rows, name), fetched)
    case Offer(id, s', response) =>
      Offering(life) && NextEvent(life, id).Some? ==> Offered(life.store, s', NextEvent(life, id).value, response)
    case Elsewhere(s') => Grows(life.store, s')
    case _ => true
  }

  function Landed(life: Life): Life { life.(flight := None) }

  /** The item at hand is dealt with: it became no event or failed, or its event was answered. */
  function Advanced(life: Life, answered: Option<Event>): Life
    requires life.flight.Some?
  {
    var fl := life.flight.value;
    life.(flight := Some(fl.(next := fl.next + 1, complete := fl.complete && answered.Some?,
                             newest := if answered.Some? then Later(fl.newest, answered.value.sourceId) else fl.newest)))
  }

  function Saved(name: string, life: Life): Life
    requires life.flight.Some?
  {
    life.(rows := life.rows[name := life.flight.value.newest], flight := None)
  }

  predicate Saves(life: Life) {
    && life.flight.Some? && life.flight.value.next == |life.flight.value.items|
    && life.flight.value.complete && life.flight.value.newest != ""
  }

  function Apply(name: string, life: Life, a: Step): Life {
    match a
    case Publish(id, item) => life.(published := life.published[id := item])
    case Start(v, fetched) =>
      if life.flight.Some? || fetched.FetchFails? then life
      else life.(flight := Some(Flight(v, fetched.items, 0, true, "")))
    case Offer(id, s', response) =>
      if !Offering(life) then life
      else if NextEvent(life, id).None? then Advanced(life, None)
      else Advanced(life.(store := s'), if response == IngestError then None else NextEvent(life, id))
    case Abort => Landed(life)
    case Save(written) => if written && Saves(life) then Saved(name, life) else Landed(life)
    case Elsewhere(s') => life.(store := s')
  }

  ghost predicate AllStored(name: string, life: Life) {
    forall id | id in life.published && AtMost(id, Position(life.rows, name)) :: Stored(name, life.store, id)
  }

  /** Published after the batch was fetched. */
  ghost predicate After(field: string, id: string, items: seq<Value>) {
    forall item | item in items && item.Object? && CursorValue(item.fields, field) != "" ::
      Less(CursorValue(item.fields, field), id)
  }

  /** A poll under way that is still complete has stored what it passed and holds the greatest identifier
      of it; and every record past the watermark is in its batch or came after it. */
  ghost predicate FlightOk(name: string, field: string, life: Life) {
    life.flight.Some? ==>
      var fl := life.flight.value;
      && fl.view.src.name == name && fl.view.src.cursorField == field && fl.next <= |fl.items|
      && (fl.complete ==> AllKept(fl.view, life.store, fl.items[..fl.next], 0)
                          && IsGreatest(fl.view, fl.items, 0, fl.next, "", fl.newest))
      && (forall id {:trigger After(field, id, fl.items)} {:trigger id in life.published}
            | id in life.published && Less(Position(life.rows, name), id) ::
            life.published[id] in fl.items || After(field, id, fl.items))
      && (forall item | item in fl.items && item.Object? && CursorValue(item.fields, field) != "" ::
            CursorValue(item.fields, field) in life.published)
  }

  /** The watermark is "" or a published identifier, and everything at or below it is stored. */
  ghost predicate LifeOk(name: string, field: string, life: Life) {
    && (Position(life.rows, name) == "" || Position(life.rows, name) in life.published)
    && (forall id | id in life.published ::
          id != "" && life.published[id].Object? && CursorValue(life.published[id].fields, field) == id)
    && AllStored(name, life) && FlightOk(name, field, life)
  }

  /** A life begins before anything was published. */
  lemma BirthIsOk(name: string, field: string, rows: Rows, store: Tables)
    requires Position(rows, name) == ""
    ensures LifeOk(name, field, Life(map[], rows, store, None))
  {
  }

  /** The watermark covers what it covered, and the poll under way has kept what it kept. */
  lemma StoreGrowsKeeps(name: string, field: string, life: Life, s': Tables)
    requires LifeOk(name, field, life) && Grows(life.store, s')
    ensures LifeOk(name, field, life.(store := s'))
  {
    if life.flight.Some? && life.flight.value.complete {
      var fl := life.flight.value;
      var passed := fl.items[..fl.next];
      forall q | 0 <= q < |passed| ensures Kept(fl.view, s', passed[q]) {
        KeptGrows(fl.view, life.store, s', passed[q]);
      }
    }
  }

  lemma PublishKeeps(name: string, field: string, life: Life, a: Step)
    requires LifeOk(name, field, life) && a.Publish? && Legal(name, field, life, a)
    ensures LifeOk(name, field, Apply(name, life, a))
  {
    LessIsStrict(a.id);
    if life.flight.Some? {
      assert After(field, a.id, life.flight.value.items);
    }
  }

  lemma StartKeeps(name: string, field: string, life: Life, a: Step)
    requires LifeOk(name, field, life) && a.Start? && Legal(name, field, life, a)
    ensures LifeOk(name, field, Apply(name, life, a))
  {
    LessIsStrict("");
  }

  lemma KeptSoFar(v: View, s: Tables, items: seq<Value>, k: nat)
    requires k < |items| && AllKept(v, s, items[..k], 0) && Kept(v, s, items[k])
    ensures AllKept(v, s, items[..k + 1], 0)
  {
    assert items[..k + 1] == items[..k] + [items[k]];
  }

  lemma AdvancedKeeps(name: string, field: string, life: Life, answered: Option<Event>)
    requires LifeOk(name, field, life) && Offering(life)
    requires answered.Some? ==>
      var (v, item) := (life.flight.value.view, life.flight.value.items[life.flight.value.next]);
      Kept(v, life.store, item) && answered.value.sourceId == CursorValue(item.fields, field)
    ensures LifeOk(name, field, Advanced(life, answered))
  {
    var fl := life.flight.value;
    if answered.Some? && fl.complete {
      GreatestSoFar(fl.view, fl.items, fl.next, fl.newest);
      KeptSoFar(fl.view, life.store, fl.items, fl.next);
    }
  }

  lemma AnsweredIsKept(v: View, s: Tables, s': Tables, item: Value, id: Id, response: Response)
    requires EventOf(v, item, id).Some? && Offered(s, s', EventOf(v, item, id).value, response)
    requires response != IngestError
    ensures Kept(v, s', item)
  {
  }

  lemma OfferKeepsLife(name: string, field: string, life: Life, a: Step)
    requires LifeOk(name, field, life) && a.Offer? && Legal(name, field, life, a)
    ensures LifeOk(name, field, Apply(name, life, a))
  {
    if Offering(life) {
      if NextEvent(life, a.id).None? {
        AdvancedKeeps(name, field, life, None);
      } else {
        var fl := life.flight.value;
        StoreGrowsKeeps(name, field, life, a.store);
        if a.response == IngestError {
          AdvancedKeeps(name, field, life.(store := a.store), None);
        } else {
          AnsweredIsKept(fl.view, life.store, a.store, fl.items[fl.next], a.id, a.response);
          AdvancedKeeps(name, field, life.(store := a.store), NextEvent(life, a.id));
        }
      }
    }
  }

  /** Nothing the batch lacks lies at or below its greatest identifier, unless the old watermark covers it. */
  lemma SavedKeeps(name: string, field: string, life: Life)
    requires LifeOk(name, field, life) && Saves(life)
    ensures LifeOk(name, field, Saved(name, life))
  {
    var fl := life.flight.value;
    assert fl.items[..fl.next] == fl.items;
    var life' := Saved(name, life);
    forall id | id in life.published && AtMost(id, fl.newest) ensures Stored(name, life.store, id) {
      if Less(Position(life.rows, name), id) && life.published[id] in fl.items {
        var q :| 0 <= q < |fl.items| && fl.items[q] == life.published[id];
        assert Kept(fl.view, life.store, fl.items[q]);
      }
    }
  }

  lemma StepKeeps(name: string, field: string, life: Life, a: Step)
    requires LifeOk(name, field, life) && Legal(name, field, life, a)
    ensures LifeOk(name, field, Apply(name, life, a))
  {
    match a {
      case Publish(_, _) => PublishKeeps(name, field, life, a);
      case Start(_, _) => StartKeeps(name, field, life, a);
      case Offer(_, _, _) => OfferKeepsLife(name, field, life, a);
      case Abort =>
      case Save(written) =>
        if written && Saves(life) {
          SavedKeeps(name, field, life);
        }
      case Elsewhere(s') => StoreGrowsKeeps(name, field, life, s');
    }
  }

  function Run(name: string, life: Life, steps: seq<Step>): Life
    decreases |steps|
  {
    if steps == [] then life else Run(name, Apply(name, life, steps[0]), steps[1..])
  }

  ghost predicate AllLegal(name: string, field: string, life: Life, steps: seq<Step>)
    decreases |steps|
  {
    steps != [] ==>
      Legal(name, field, life, steps[0]) && AllLegal(name, field, Apply(name, life, steps[0]), steps[1..])
  }

  /** Over every run of publications, polls with any faults, and other work in between: every record at
      or below the watermark is stored, so none the server will no longer send can have been missed. */
  lemma {:induction false} NoRecordIsSkipped(name: string, field: string, life: Life, steps: seq<Step>)
    requires LifeOk(name, field, life) && AllLegal(name, field, life, steps)
    ensures LifeOk(name, field, Run(name, life, steps))
    decreases |steps|
  {
    if steps != [] {
      StepKeeps(name, field, life, steps[0]);
      NoRecordIsSkipped(name, field, Apply(name, life, steps[0]), steps[1..]);
    }
  }

  // ---- The poller's own poll is such a run ----

  ghost predicate Reaches(name: string, field: string, life: Life, life': Life) {
    exists steps :: AllLegal(name, field, life, steps) && Run(name, life, steps) == life'
  }

  lemma ReachesItself(name: string, field: string, life: Life)
    ensures Reaches(name, field, life, life)
  {
    assert AllLegal(name, field, life, []) && Run(name, life, []) == life;
  }

  lemma ReachesAfter(name: string, field: string, life: Life, a: Step, life': Life)
    requires Legal(name, field, life, a) && Reaches(name, field, Apply(name, life, a), life')
    ensures Reaches(name, field, life, life')
  {
    var steps :| AllLegal(name, field, Apply(name, life, a), steps) && Run(name, Apply(name, life, a), steps) == life';
    var all := [a] + steps;
    assert all[1..] == steps;
    assert AllLegal(name, field, life, all) && Run(name, life, all) == life';
  }

  lemma LastStep(name: string, field: string, life: Life, a: Step)
    requires Legal(name, field, life, a)
    ensures Reaches(name, field, life, Apply(name, life, a))
  {
    ReachesItself(name, field, Apply(name, life, a));
    ReachesAfter(name, field, life, a, Apply(name, life, a));
  }

  /** What a poll comes to once its walk is over. */
  function Ended(name: string, life: Life, f: Faults, w: Walked): Life
    requires life.flight.Some?
  {
    var n := |life.flight.value.items|;
    var advance := !w.cancelled && w.complete && f.cancelAt > n && w.newest != "";
    life.(store := w.tables, flight := None,
          rows := if advance then Written(life.rows, name, w.newest, f.saved, f.landed) else life.rows)
  }

  /** Where an ingest by itself leaves the run. */
  function Ingested(life: Life, rt: Runtime, sem: Semantics, w: World, e: Event): Life
    requires life.flight.Some?
  {
    var (s', response) := IngestResult(rt, sem, w, life.store, e);
    Advanced(life.(store := s'), if response == IngestError then None else Some(e))
  }

  lemma OfferIsARun(name: string, field: string, life: Life, rt: Runtime, sem: Semantics, w: World, id: Id, life': Life)
    requires Offering(life) && NextEvent(life, id).Some?
    requires Reaches(name, field, Ingested(life, rt, sem, w, NextEvent(life, id).value), life')
    ensures Reaches(name, field, life, life')
  {
    var e := NextEvent(life, id).value;
    var (s', response) := IngestResult(rt, sem, w, life.store, e);
    IngestIsOffer(rt, sem, w, life.store, e);
    ReachesAfter(name, field, life, Offer(id, s', response), life');
  }

  /** Where the walk's next item leaves the run. */
  function Stepped(life: Life, rt: Runtime, sem: Semantics, f: Faults, k: nat): Life
    requires Offering(life)
  {
    var e := NextEvent(life, f.id(k));
    if e.None? then Advanced(life, None) else Ingested(life, rt, sem, f.world(k), e.value)
  }

  lemma ItemIsARun(name: string, field: string, life: Life, rt: Runtime, sem: Semantics, f: Faults, k: nat, life': Life)
    requires Offering(life) && Reaches(name, field, Stepped(life, rt, sem, f, k), life')
    ensures Reaches(name, field, life, life')
  {
    if NextEvent(life, f.id(k)).None? {
      ReachesAfter(name, field, life, Offer(f.id(k), life.store, IngestError), life');
    } else {
      OfferIsARun(name, field, life, rt, sem, f.world(k), f.id(k), life');
    }
  }

  lemma EndedLater(name: string, life: Life, next: Life, f: Faults, w: Walked)
    requires life.flight.Some? && next.flight.Some? && next.flight.value.items == life.flight.value.items
    requires next.rows == life.rows && next.published == life.published
    ensures Ended(name, next, f, w) == Ended(name, life, f, w)
  {
  }

  /** The walk is over: it was cancelled, or its watermark can be saved. */
  lemma EndIsARun(name: string, field: string, life: Life, f: Faults, w: Walked)
    requires life.flight.Some? && life.flight.value.next <= |life.flight.value.items| && w.tables == life.store
    requires var fl := life.flight.value;
      w.cancelled || (fl.next == |fl.items| && w.complete == fl.complete && w.newest == fl.newest)
    ensures Reaches(name, field, life, Ended(name, life, f, w))
  {
    LastStep(name, field, life, if w.cancelled then Abort else Save((f.saved || f.landed) && f.cancelAt > life.flight.value.next));
  }

  /** The poll has come to item k of its batch. */
  ghost predicate AtItem(life: Life, v: View, items: seq<Value>, k: nat) {
    life.flight.Some? && life.flight.value.view == v && life.flight.value.items == items && life.flight.value.next == k <= |items|
  }

  function WalkOn(v: View, rt: Runtime, sem: Semantics, f: Faults, life: Life): Walked
    requires life.flight.Some? && life.flight.value.next <= |life.flight.value.items|
  {
    var fl := life.flight.value;
    Walk(v, rt, sem, f, fl.items, fl.next, life.store, fl.complete, fl.newest)
  }

  /** A walk goes on as the run does, one item at a time. */
  lemma WalkUnfolds(v: View, rt: Runtime, sem: Semantics, f: Faults, items: seq<Value>, life: Life, k: nat)
    requires AtItem(life, v, items, k) && k < |items| && k < f.cancelAt
    ensures var next := Stepped(life, rt, sem, f, k);
      && AtItem(next, v, items, k + 1) && WalkOn(v, rt, sem, f, life) == WalkOn(v, rt, sem, f, next)
      && next.rows == life.rows && next.published == life.published
  {
  }

  lemma {:induction false} WalkIsARun(name: string, field: string, v: View, rt: Runtime, sem: Semantics, f: Faults,
                                      items: seq<Value>, life: Life, k: nat, w: Walked)
    requires AtItem(life, v, items, k) && w == WalkOn(v, rt, sem, f, life)
    ensures Reaches(name, field, life, Ended(name, life, f, w))
    decreases |items| - k
  {
    if k == |items| || f.cancelAt <= k {
      EndIsARun(name, field, life, f, w);
    } else {
      var next := Stepped(life, rt, sem, f, k);
      WalkUnfolds(v, rt, sem, f, items, life, k);
      WalkIsARun(name, field, v, rt, sem, f, items, next, k + 1, w);
      EndedLater(name, life, next, f, w);
      ItemIsARun(name, field, life, rt, sem, f, k, Ended(name, life, f, w));
    }
  }

  /** Each poll of the poller, whatever fails in it, is a run of these steps with nothing in between. */
  lemma PollIsARun(name: string, field: string, sem: Semantics, life: Life, v: View, rt: Runtime, f: Faults)
    requires life.flight.None? && Legal(name, field, life, Start(v, f.fetched))
    ensures var (s', rows', _) := PollResult(v, rt, sem, f, life.store, life.rows);
      Reaches(name, field, life, life.(store := s', rows := rows'))
  {
    if f.fetched.FetchFails? {
      ReachesItself(name, field, life);
    } else {
      var items := f.fetched.items;
      var started := life.(flight := Some(Flight(v, items, 0, true, "")));
      var w := Walk(v, rt, sem, f, items, 0, life.store, true, "");
      WalkIsARun(name, field, v, rt, sem, f, items, started, 0, w);
      ReachesAfter(name, field, life, Start(v, f.fetched), Ended(name, started, f, w));
    }
  }
}
