/** One poll of a journal source: what a walk over a batch stores and settles, and exactly when it
    succeeds. */
module JournalPolls {
  import opened Domain
  import opened PolicyRules
  import opened Configuration
  import opened Store
  import opened Pipeline
  import opened Invariants
  import opened Checkpoints
  import opened JournalRecords
  import opened Ingests
  import opened Offers
  import opened Journal

  // ---- What one walk over a batch achieves ----

  /** An event under this source's name. Where the name is one the process gives its own events, those
      are told apart by their depth. */
  ghost predicate Own(name: string, e: Event) { e.source == name && (e.depth == 0 || !Reserved(name)) }

  /** A record that has been dealt with: it can serve as checkpoint, and if it qualifies it is stored. */
  ghost predicate Done(item: Item, s: Tables) {
    item.valid && !item.form.BadRecord? && (item.form.Selected? ==> Taken(s, KeyOf(item.form.event)))
  }

  lemma DoneGrows(item: Item, s: Tables, s': Tables)
    requires Grows(s, s') && Done(item, s)
    ensures Done(item, s')
  {
  }

  /** Items of one source: what is selected comes from outside and is named by its cursor. */
  ghost predicate ItemsOf(name: string, items: seq<Item>) {
    forall k | 0 <= k < |items| && items[k].form.Selected? ::
      && Own(name, items[k].form.event) && items[k].form.event.depth == 0
      && items[k].form.event.sourceId == items[k].cursor
  }

  ghost predicate OwnFrom(name: string, before: Events, after: Events, items: seq<Item>, k: nat) {
    forall id | id in after && id !in before && Own(name, after[id]) ::
      exists q | k <= q < |items| :: items[q].form == Selected(after[id])
  }

  lemma OfferSettles(name: string, rt: Runtime, sem: Semantics, w: World, items: seq<Item>, k: nat, s: Tables)
    requires k < |items| && ItemsOf(name, items) && items[k].valid && items[k].form.Selected? && UniqueKeys(s)
    ensures var (s', response) := IngestResult(rt, sem, w, s, items[k].form.event);
      && UniqueKeys(s') && Grows(s, s')
      && (response != IngestError ==> Done(items[k], s'))
      && OwnFrom(name, s.events, s'.events, items, k)
  {
    IngestIsOffer(rt, sem, w, s, items[k].form.event);
  }

  lemma OwnFromLater(name: string, a: Events, b: Events, c: Events, items: seq<Item>, k: nat)
    requires OwnFrom(name, a, b, items, k) && OwnFrom(name, b, c, items, k + 1)
    requires forall id | id in b :: id in c && c[id] == b[id]
    ensures OwnFrom(name, a, c, items, k)
  {
  }

  lemma StoresMore(name: string, s: Tables, s1: Tables, s': Tables, items: seq<Item>, k: nat)
    requires Grows(s, s1) && OwnFrom(name, s.events, s1.events, items, k)
    requires Grows(s1, s') && OwnFrom(name, s1.events, s'.events, items, k + 1)
    ensures Grows(s, s') && OwnFrom(name, s.events, s'.events, items, k)
  {
    GrowsTwice(s, s1, s');
    OwnFromLater(name, s.events, s1.events, s'.events, items, k);
  }

  ghost predicate AllDone(items: seq<Item>, k: nat, s: Tables) {
    forall q {:trigger items[q]} | k <= q < |items| :: Done(items[q], s)
  }

  lemma AllDoneFrom(items: seq<Item>, k: nat, s: Tables)
    requires k < |items| && Done(items[k], s) && AllDone(items, k + 1, s)
    ensures AllDone(items, k, s)
  {
  }

  lemma SelectedUnfolds(rt: Runtime, sem: Semantics, f: Faults, items: seq<Item>, k: nat, s: Tables, cursor: string)
    requires k < |items| && k < f.cancelAt && items[k].valid && items[k].form.Selected?
    ensures var (s', response) := IngestResult(rt, sem, f.world(k), s, items[k].form.event);
      var w := Walk(rt, sem, f, items, k, s, cursor);
      if response == IngestError then w.error.Some? && w.tables == s'
      else w == Walk(rt, sem, f, items, k + 1, s', items[k].cursor)
  {
  }

  /** Even a failed walk stores, of this source, nothing but records it was given. */
  lemma {:induction false} WalkStores(name: string, rt: Runtime, sem: Semantics, f: Faults, items: seq<Item>, k: nat,
                                      s: Tables, cursor: string)
    requires k <= |items| && UniqueKeys(s) && ItemsOf(name, items)
    ensures var s' := Walk(rt, sem, f, items, k, s, cursor).tables;
      UniqueKeys(s') && Grows(s, s') && OwnFrom(name, s.events, s'.events, items, k)
    decreases |items| - k
  {
    if k < |items| && k < f.cancelAt && items[k].valid {
      if items[k].form.Skipped? {
        WalkStores(name, rt, sem, f, items, k + 1, s, items[k].cursor);
      } else if items[k].form.Selected? {
        OfferSettles(name, rt, sem, f.world(k), items, k, s);
        var (s1, response) := IngestResult(rt, sem, f.world(k), s, items[k].form.event);
        if response != IngestError {
          SelectedUnfolds(rt, sem, f, items, k, s, cursor);
          WalkStores(name, rt, sem, f, items, k + 1, s1, items[k].cursor);
          StoresMore(name, s, s1, Walk(rt, sem, f, items, k, s, cursor).tables, items, k);
        }
      }
    }
  }

  /** A walk that reports no error dealt with every record and stands at the last. */
  lemma {:induction false} WalkSettles(name: string, rt: Runtime, sem: Semantics, f: Faults, items: seq<Item>, k: nat,
                                       s: Tables, cursor: string)
    requires k <= |items| && UniqueKeys(s) && ItemsOf(name, items)
    requires Walk(rt, sem, f, items, k, s, cursor).error.None?
    ensures var w := Walk(rt, sem, f, items, k, s, cursor);
      AllDone(items, k, w.tables) && w.cursor == if k < |items| then items[|items| - 1].cursor else cursor
    decreases |items| - k
  {
    if k < |items| {
      var w := Walk(rt, sem, f, items, k, s, cursor);
      var s1 := s;
      if items[k].form.Selected? {
        OfferSettles(name, rt, sem, f.world(k), items, k, s);
        s1 := IngestResult(rt, sem, f.world(k), s, items[k].form.event).0;
      }
      WalkSettles(name, rt, sem, f, items, k + 1, s1, items[k].cursor);
      WalkStores(name, rt, sem, f, items, k + 1, s1, items[k].cursor);
      DoneGrows(items[k], s1, w.tables);
      AllDoneFrom(items, k, w.tables);
    }
  }

  /** The tables a walk over items[k..] has reached when it comes to item q, provided nothing before q
      fails. */
  function TablesAt(rt: Runtime, sem: Semantics, f: Faults, items: seq<Item>, k: nat, s: Tables, q: nat): Tables
    requires k <= q <= |items|
    decreases q - k
  {
    if k == q then s
    else
      TablesAt(rt, sem, f, items, k + 1,
               if items[k].form.Selected? then IngestResult(rt, sem, f.world(k), s, items[k].form.event).0 else s, q)
  }

  /** Item q does not fail the walk: its record is well formed and, if it is selected, no fault meets its
      ingest at the tables reached. */
  ghost predicate Succeeds(rt: Runtime, sem: Semantics, f: Faults, item: Item, q: nat, s: Tables) {
    && item.valid && !item.form.BadRecord?
    && (item.form.Selected? ==> !Fails(rt, sem, f.world(q)(item.form.event.depth), s, item.form.event))
  }

  ghost predicate SucceedsAt(rt: Runtime, sem: Semantics, f: Faults, items: seq<Item>, k: nat, s: Tables, q: int) {
    k <= q < |items| && Succeeds(rt, sem, f, items[q], q, TablesAt(rt, sem, f, items, k, s, q))
  }

  ghost predicate AllSucceed(rt: Runtime, sem: Semantics, f: Faults, items: seq<Item>, k: nat, s: Tables) {
    forall q {:trigger SucceedsAt(rt, sem, f, items, k, s, q)} | k <= q < |items| ::
      SucceedsAt(rt, sem, f, items, k, s, q)
  }

  /** A walk succeeds if and only if it is not cancelled and no item fails it. */
  lemma {:induction false} WalkSucceedsIff(rt: Runtime, sem: Semantics, f: Faults, items: seq<Item>, k: nat, s: Tables,
                                           cursor: string)
    requires k <= |items|
    ensures Walk(rt, sem, f, items, k, s, cursor).error.None? <==>
      f.cancelAt > |items| && AllSucceed(rt, sem, f, items, k, s)
    decreases |items| - k
  {
    if k < |items| {
      var s1 := s;
      if items[k].form.Selected? {
        IngestFailsIff(rt, sem, f.world(k), s, items[k].form.event);
        s1 := IngestResult(rt, sem, f.world(k), s, items[k].form.event).0;
      }
      WalkSucceedsIff(rt, sem, f, items, k + 1, s1, items[k].cursor);
      SucceedsSplits(rt, sem, f, items, k, s, s1);
    }
  }

  lemma SucceedsSplits(rt: Runtime, sem: Semantics, f: Faults, items: seq<Item>, k: nat, s: Tables, s1: Tables)
    requires k < |items|
    requires s1 == if items[k].form.Selected? then IngestResult(rt, sem, f.world(k), s, items[k].form.event).0 else s
    ensures AllSucceed(rt, sem, f, items, k, s)
       <==> Succeeds(rt, sem, f, items[k], k, s) && AllSucceed(rt, sem, f, items, k + 1, s1)
  {
    assert SucceedsAt(rt, sem, f, items, k, s, k) <==> Succeeds(rt, sem, f, items[k], k, s);
    var next := k + 1;
    if AllSucceed(rt, sem, f, items, k, s) {
      forall q | next <= q < |items| ensures SucceedsAt(rt, sem, f, items, next, s1, q) {
        assert SucceedsAt(rt, sem, f, items, k, s, q);
      }
    }
    if Succeeds(rt, sem, f, items[k], k, s) && AllSucceed(rt, sem, f, items, next, s1) {
      forall q | k <= q < |items| ensures SucceedsAt(rt, sem, f, items, k, s, q) {
        assert q > k ==> SucceedsAt(rt, sem, f, items, next, s1, q);
      }
    }
  }

  // ---- A fault-free walk ----

  /** What the q-th ingest would store is not in use. */
  ghost predicate Unused(f: Faults, s: Tables, q: nat) {
    && f.id(q) !in s.events && f.id(q) !in s.revisions
    && f.world(q)(0).decisionId !in s.decisions
  }

  /** No identifier is generated twice. */
  ghost predicate NeverRepeats(f: Faults, j: nat, q: nat) {
    && f.id(q) != f.id(j) && !GeneratesChild(f.world(j), f.id(q))
    && !GeneratesDecision(f.world(j), f.world(q)(0).decisionId)
  }

  ghost predicate FreshIds(f: Faults, s: Tables, n: nat) {
    && (forall q: nat {:trigger Unused(f, s, q)} | q < n :: Unused(f, s, q))
    && (forall j: nat, q: nat {:trigger NeverRepeats(f, j, q)} | j < q < n :: NeverRepeats(f, j, q))
  }

  ghost predicate HealthyWorld(c: Choice) {
    c.insert == c.revisionWrite == c.decisionWrite == NoFault
  }

  ghost predicate NoFaults(f: Faults, n: nat) {
    forall q: nat {:trigger f.world(q)} | q < n :: HealthyWorld(f.world(q)(0))
  }

  /** Every record is well formed, and what is selected carries the identifier issued for it. */
  ghost predicate WellFormed(f: Faults, items: seq<Item>) {
    forall q {:trigger items[q]} | 0 <= q < |items| ::
      && items[q].valid && !items[q].form.BadRecord?
      && (items[q].form.Selected? ==> items[q].form.event.id == f.id(q) && items[q].form.event.depth == 0)
  }

  lemma StillUnused(rt: Runtime, sem: Semantics, f: Faults, s: Tables, e: Event, k: nat, q: nat)
    requires Unused(f, s, q) && NeverRepeats(f, k, q) && e.id == f.id(k)
    ensures Unused(f, IngestResult(rt, sem, f.world(k), s, e).0, q)
  {
    IngestIssues(rt, sem, f.world(k), s, e);
  }

  ghost predicate AllUnused(f: Faults, s: Tables, from: nat, to: nat) {
    forall q: nat {:trigger Unused(f, s, q)} | from <= q < to :: Unused(f, s, q)
  }

  lemma AllStillUnused(rt: Runtime, sem: Semantics, f: Faults, items: seq<Item>, k: nat, s: Tables)
    requires k < |items| && WellFormed(f, items) && items[k].form.Selected?
    requires AllUnused(f, s, k, |items|)
    requires forall j: nat, q: nat | j < q < |items| :: NeverRepeats(f, j, q)
    ensures AllUnused(f, IngestResult(rt, sem, f.world(k), s, items[k].form.event).0, k + 1, |items|)
  {
    var s1 := IngestResult(rt, sem, f.world(k), s, items[k].form.event).0;
    forall q: nat | k < q < |items| ensures Unused(f, s1, q) {
      assert NeverRepeats(f, k, q) && Unused(f, s, q);
      StillUnused(rt, sem, f, s, items[k].form.event, k, q);
    }
  }

  lemma {:induction false} HealthyItemsSucceed(rt: Runtime, sem: Semantics, f: Faults, items: seq<Item>, k: nat,
          s: Tables)
    requires k <= |items| && WellFormed(f, items) && NoFaults(f, |items|)
    requires AllUnused(f, s, k, |items|)
    requires forall j: nat, q: nat | j < q < |items| :: NeverRepeats(f, j, q)
    ensures AllSucceed(rt, sem, f, items, k, s)
    decreases |items| - k
  {
    if k < |items| {
      var s1 := s;
      assert Unused(f, s, k) && HealthyWorld(f.world(k)(0));
      if items[k].form.Selected? {
        s1 := IngestResult(rt, sem, f.world(k), s, items[k].form.event).0;
        AllStillUnused(rt, sem, f, items, k, s);
      }
      HealthyItemsSucceed(rt, sem, f, items, k + 1, s1);
      SucceedsSplits(rt, sem, f, items, k, s, s1);
    }
  }

  /** Which fault an error names, at the very tables the walk had reached. */
  ghost predicate Cause(error: PollError, rt: Runtime, sem: Semantics, f: Faults, items: seq<Item>, k: nat, s: Tables) {
    match error
    case Cancelled => f.cancelAt <= |items|
    case BadCursor => exists q | k <= q < |items| :: !items[q].valid
    case BadTimestamp => exists q | k <= q < |items| :: items[q].form.BadRecord?
    case IngestFailed => exists q | k <= q < |items| :: FailsAt(rt, sem, f, items, k, s, q)
    case _ => false
  }

  ghost predicate FailsAt(rt: Runtime, sem: Semantics, f: Faults, items: seq<Item>, k: nat, s: Tables, q: int) {
    && k <= q < |items| && items[q].form.Selected?
    && var e := items[q].form.event;
       Fails(rt, sem, f.world(q)(e.depth), TablesAt(rt, sem, f, items, k, s, q), e)
  }

  lemma FailsHere(rt: Runtime, sem: Semantics, f: Faults, items: seq<Item>, k: nat, s: Tables)
    requires k < |items| && items[k].form.Selected?
    requires IngestResult(rt, sem, f.world(k), s, items[k].form.event).1 == IngestError
    ensures FailsAt(rt, sem, f, items, k, s, k)
  {
    IngestFailsIff(rt, sem, f.world(k), s, items[k].form.event);
  }

  lemma CauseEarlier(error: PollError, rt: Runtime, sem: Semantics, f: Faults, items: seq<Item>, k: nat, s: Tables,
                     s1: Tables)
    requires k < |items| && Cause(error, rt, sem, f, items, k + 1, s1)
    requires s1 == if items[k].form.Selected? then IngestResult(rt, sem, f.world(k), s, items[k].form.event).0 else s
    ensures Cause(error, rt, sem, f, items, k, s)
  {
    if error == IngestFailed {
      var q :| k + 1 <= q < |items| && FailsAt(rt, sem, f, items, k + 1, s1, q);
      assert TablesAt(rt, sem, f, items, k, s, q) == TablesAt(rt, sem, f, items, k + 1, s1, q);
      assert FailsAt(rt, sem, f, items, k, s, q);
    }
  }

  lemma {:induction false} WalkFailsForACause(rt: Runtime, sem: Semantics, f: Faults, items: seq<Item>, k: nat,
                                              s: Tables, cursor: string)
    requires k <= |items| && Walk(rt, sem, f, items, k, s, cursor).error.Some?
    ensures Cause(Walk(rt, sem, f, items, k, s, cursor).error.value, rt, sem, f, items, k, s)
    decreases |items| - k
  {
    if k < |items| && k < f.cancelAt && items[k].valid {
      var error := Walk(rt, sem, f, items, k, s, cursor).error.value;
      if items[k].form.Skipped? {
        WalkFailsForACause(rt, sem, f, items, k + 1, s, items[k].cursor);
        CauseEarlier(error, rt, sem, f, items, k, s, s);
      } else if items[k].form.Selected? {
        var (s', response) := IngestResult(rt, sem, f.world(k), s, items[k].form.event);
        if response != IngestError {
          WalkFailsForACause(rt, sem, f, items, k + 1, s', items[k].cursor);
          CauseEarlier(error, rt, sem, f, items, k, s, s');
        } else {
          FailsHere(rt, sem, f, items, k, s);
        }
      }
    }
  }

  lemma ItemsAreOwn(v: View, id: nat -> Id, records: seq<Record>)
    ensures ItemsOf(v.src.name, Items(v, id, records))
  {
    var items := Items(v, id, records);
    forall k | 0 <= k < |items| && items[k].form.Selected?
      ensures Own(v.src.name, items[k].form.event) && items[k].form.event.depth == 0
      ensures items[k].form.event.sourceId == items[k].cursor
    {
      assert items[k] == ItemOf(v, records[k], id(k));
      assert items[k].form.event == EventOf(v.src, v.host, records[k], id(k), v.utf8);
    }
  }

  // ---- One poll ----

  function RecordKey(name: string, r: Record): Key {
    Key(name, BySourceId(CursorOf(r)))
  }

  /** A record no poll needs to see again: it can serve as checkpoint, and if it qualifies its identity is
      stored. */
  ghost predicate Handled(v: View, r: Record, s: Tables) {
    ValidCursor(CursorOf(r)) && (Qualifies(v.src, v.host, r) ==> Taken(s, RecordKey(v.src.name, r)))
  }

  lemma HandledGrows(v: View, r: Record, s: Tables, s': Tables)
    requires Grows(s, s') && Handled(v, r, s)
    ensures Handled(v, r, s')
  {
  }

  lemma DoneIsHandled(v: View, r: Record, id: Id, s: Tables)
    requires Done(ItemOf(v, r, id), s)
    ensures Handled(v, r, s)
  {
  }

  /** e is what a poll makes of record r: named by its cursor, with its unit, priority and message. */
  ghost predicate Renders(e: Event, r: Record) {
    && e.depth == 0 && e.provenance == None && e.sourceId == CursorOf(r)
    && "unit" in e.data && e.data["unit"] == Text(e.subject)
    && "priority" in e.data && ParseInt(TextOf(r, "PRIORITY")).Some?
    && e.data["priority"] == Number(ParseInt(TextOf(r, "PRIORITY")).value as real)
    && "message" in e.data
    && (|TextOf(r, "MESSAGE")| <= 4096 ==> e.data["message"] == Text(TextOf(r, "MESSAGE")))
  }

  lemma EventRenders(v: View, r: Record, id: Id)
    requires Qualifies(v.src, v.host, r)
    ensures Renders(EventOf(v.src, v.host, r, id, v.utf8), r)
  {
    var data := DataOf(v.src, v.host, r, v.utf8);
    assert "unit" in data && "priority" in data && "message" in data;
  }

  /** Whatever holds key k is record r, rendered. */
  ghost predicate HoldersRender(s: Tables, k: Key, r: Record) {
    forall id {:trigger s.events[id]} | id in s.events && KeyOf(s.events[id]) == k :: Renders(s.events[id], r)
  }

  /** An offer that is answered leaves the record itself under its identity if and only if that identity
      was free or already held by the record: what an intruder stored there first is never replaced. */
  lemma AnsweredRendersIff(v: View, rt: Runtime, sem: Semantics, w: World, s: Tables, r: Record, id: Id)
    requires Qualifies(v.src, v.host, r) && UniqueKeys(s)
    requires IngestResult(rt, sem, w, s, EventOf(v.src, v.host, r, id, v.utf8)).1 != IngestError
    ensures var s' := IngestResult(rt, sem, w, s, EventOf(v.src, v.host, r, id, v.utf8)).0;
      var k := KeyOf(EventOf(v.src, v.host, r, id, v.utf8));
      Taken(s', k) && (HoldersRender(s', k, r) <==> HoldersRender(s, k, r))
  {
    var e := EventOf(v.src, v.host, r, id, v.utf8);
    DuplicateIffTaken(rt, sem, w, s, e);
    IngestIsOffer(rt, sem, w, s, e);
    if !Taken(s, KeyOf(e)) {
      AnsweredIsStored(rt, sem, w, s, e);
      EventRenders(v, r, id);
    }
  }

  const POSTED := Event("evt_1", "note", "logs", "", map[], "c1", 0, None)

  /** It does happen: an event posted as coming from "logs", with the cursor "c1" as its identity, is
      stored; the qualifying journal line at "c1" is then answered as a duplicate, and the line itself is
      stored nowhere. */
  lemma PostedEventTakesIdentity(rt: Runtime, sem: Semantics, w: World, host: Host, utf8: string -> bool, id: Id)
    requires w(0).insert == NoFault
    ensures var (s, e) := (EMPTY.(events := map["evt_1" := POSTED]), EventOf(LOGS, host, LINE, id, utf8));
      && NormalForm(LOGS, host, LINE, id, utf8) == Selected(e) && ValidCursor(CursorOf(LINE))
      && IngestResult(rt, sem, w, s, e) == (s, Duplicated)
      && forall k | k in s.events :: !Renders(s.events[k], LINE)
  {
    LineIsSelected(host, id, utf8);
    var (s, e) := (EMPTY.(events := map["evt_1" := POSTED]), EventOf(LOGS, host, LINE, id, utf8));
    assert KeyOf(s.events["evt_1"]) == KeyOf(e);
    DuplicateIffTaken(rt, sem, w, s, e);
  }

  ghost predicate OwnAmong(name: string, before: Events, after: Events, records: seq<Record>) {
    forall id | id in after && id !in before && Own(name, after[id]) ::
      exists q | 0 <= q < |records| :: Renders(after[id], records[q])
  }

  lemma ItemAt(v: View, id: nat -> Id, records: seq<Record>, k: nat)
    requires k < |records|
    ensures Items(v, id, records)[k] == ItemOf(v, records[k], id(k))
  {
  }

  lemma OwnFromIsAmong(v: View, id: nat -> Id, before: Events, after: Events, records: seq<Record>)
    requires OwnFrom(v.src.name, before, after, Items(v, id, records), 0)
    ensures OwnAmong(v.src.name, before, after, records)
  {
    var items, name := Items(v, id, records), v.src.name;
    ItemsAreOwn(v, id, records);
    forall e | e in after && e !in before && Own(name, after[e])
      ensures exists q | 0 <= q < |records| :: Renders(after[e], records[q])
    {
      var q :| 0 <= q < |items| && items[q].form == Selected(after[e]);
      ItemAt(v, id, records, q);
      EventRenders(v, records[q], id(q));
    }
  }

  ghost predicate AllHandled(v: View, records: seq<Record>, s: Tables) {
    forall q {:trigger records[q]} | 0 <= q < |records| :: Handled(v, records[q], s)
  }

  lemma AllDoneIsHandled(v: View, id: nat -> Id, records: seq<Record>, s: Tables)
    requires AllDone(Items(v, id, records), 0, s)
    ensures AllHandled(v, records, s)
  {
    var items := Items(v, id, records);
    forall q | 0 <= q < |records| ensures Handled(v, records[q], s) {
      assert Done(items[q], s);
      DoneIsHandled(v, records[q], id(q), s);
    }
  }

  lemma WindowIsHandled(v: View, rt: Runtime, sem: Semantics, f: Faults, records: seq<Record>, s: Tables,
          cursor: string)
    requires UniqueKeys(s)
    ensures var w := Walk(rt, sem, f, Items(v, f.id, records), 0, s, cursor);
      && UniqueKeys(w.tables) && Grows(s, w.tables)
      && OwnAmong(v.src.name, s.events, w.tables.events, records)
      && (w.error.None? ==> AllHandled(v, records, w.tables))
      && (w.error.None? && records != [] ==> w.cursor == CursorOf(records[|records| - 1]))
  {
    var items := Items(v, f.id, records);
    var w := Walk(rt, sem, f, items, 0, s, cursor);
    ItemsAreOwn(v, f.id, records);
    WalkStores(v.src.name, rt, sem, f, items, 0, s, cursor);
    OwnFromIsAmong(v, f.id, s.events, w.tables.events, records);
    if w.error.None? {
      WalkSettles(v.src.name, rt, sem, f, items, 0, s, cursor);
      AllDoneIsHandled(v, f.id, records, w.tables);
      if records != [] {
        ItemAt(v, f.id, records, |records| - 1);
      }
    }
  }
}
