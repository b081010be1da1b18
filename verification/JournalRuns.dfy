/** Every run of a journal source: appends, vacuums, activations, polls cut short anywhere or failing
    anyhow, restarts, and whatever the rest of the process stores meanwhile, between the records of one
    poll as well as between polls. */
module JournalRuns {
  import opened Domain
  import opened PolicyRules
  import opened Configuration
  import opened Store
  import opened Pipeline
  import opened Invariants
  import opened Checkpoints
  import opened JournalRecords
  import opened Ingests
  import opened Offers
  import opened Journal
  import opened JournalPolls

  /** A poll under way: the records it read, of which those before next have been dealt with. */
  datatype Flight = Flight(view: View, records: seq<Record>, next: nat)

  /** records is everything the journal ever held, oldest first; those before vacuumed can no longer be
      read. tail, at, judged and foreign are history: the position of the first checkpoint, of the
      current one, the process view under which each position in between was passed, and whether
      something other than this source stored events under its name. */
  datatype Life = Life(records: seq<Record>, vacuumed: nat, rows: Rows, store: Tables, flight: Option<Flight>,
                       tail: Option<nat>, at: nat, judged: seq<View>, foreign: bool)

  /** Offer deals with the next record of the poll; where that ingests an event, store and response are
      what came of it, amid anything else. Abort is every way a poll can end early, death included. */
  datatype Step = Append(record: Record)
                | Vacuum(upTo: nat)
                | Activate(view: View, newest: Reading, faults: Faults)
                | Start(view: View, reading: Reading)
                | Offer(id: Id, store: Tables, response: Response)
                | Abort
                | Save(written: bool)
                | Elsewhere(store: Tables)

  function Min(a: int, b: int): int { if a < b then a else b }

  /** journalctl's contract. A cursor that is still readable is found exactly and followed by the
      oldest next records; for one that is not, it may start anywhere else. */
  ghost predicate Faithful(life: Life, cursor: string, reading: Reading) {
    reading.Records? ==>
      && (forall p | life.vacuumed <= p < |life.records| && CursorOf(life.records[p]) == cursor ::
            reading.records == life.records[p..Min(p + BATCH + 1, |life.records|)])
      && ((forall p | life.vacuumed <= p < |life.records| :: CursorOf(life.records[p]) != cursor) ==>
            reading.records == [] || CursorOf(reading.records[0]) != cursor)
  }

  ghost predicate FaithfulTail(life: Life, reading: Reading) {
    reading.Records? ==>
      reading.records == if life.vacuumed < |life.records| then [life.records[|life.records| - 1]] else []
  }

  function Window(life: Life): seq<Record>
    requires life.at < |life.records|
  {
    life.records[life.at + 1..Min(life.at + 1 + BATCH, |life.records|)]
  }

  /** The event the poll offers next, under the identifier issued for it. */
  function NextEvent(life: Life, id: Id): Option<Event> {
    if life.flight.None? || life.flight.value.next >= |life.flight.value.records| then None
    else
      var (v, r) := (life.flight.value.view, life.flight.value.records[life.flight.value.next]);
      if !ValidCursor(CursorOf(r)) then None
      else
        match NormalForm(v.src, v.host, r, id, v.utf8)
        case Selected(e) => Some(e)
        case _ => None
  }

  /** What the environment may do: the journal reads faithfully and never repeats a cursor, an offer is
      answered as ingest answers it, and other work loses nothing. */
  ghost predicate Legal(name: string, life: Life, a: Step) {
    match a
    case Append(r) => forall q | 0 <= q < |life.records| && ValidCursor(CursorOf(r)) ::
      CursorOf(life.records[q]) != CursorOf(r)
    case Vacuum(n) => life.vacuumed <= n <= |life.records|
    case Activate(v, newest, f) =>
      && v.src.name == name && FaithfulTail(life, newest)
      && Faithful(life, if Position(life.rows, name) != "" then Position(life.rows, name)
                        else if newest.Records? && newest.records != [] then CursorOf(newest.records[0]) else "", f.reading)
    case Start(v, reading) => v.src.name == name && Faithful(life, Position(life.rows, name), reading)
    case Offer(id, s', response) =>
      NextEvent(life, id).Some? ==> Offered(life.store, s', NextEvent(life, id).value, response)
    case Elsewhere(s') => Grows(life.store, s') && UniqueKeys(s')
    case _ => true
  }

  /** Something besides this offer stored events under the source's name. */
  ghost predicate Intrudes(name: string, before: Events, after: Events, offered: Option<Event>) {
    exists id :: id in after && id !in before && Own(name, after[id]) && offered != Some(after[id])
  }

  function Landed(life: Life): Life { life.(flight := None) }

  /** The record at hand is dealt with. */
  function Advanced(life: Life): Life
    requires life.flight.Some?
  {
    life.(flight := Some(life.flight.value.(next := life.flight.value.next + 1)))
  }

  function Skips(life: Life): bool {
    && life.flight.Some? && life.flight.value.next < |life.flight.value.records|
    && var (v, r) := (life.flight.value.view, life.flight.value.records[life.flight.value.next]);
       ValidCursor(CursorOf(r)) && !Qualifies(v.src, v.host, r)
  }

  function Saved(name: string, life: Life): Life
    requires life.flight.Some?
  {
    var fl := life.flight.value;
    if fl.records == [] then Landed(life)
    else
      life.(rows := life.rows[name := CursorOf(fl.records[|fl.records| - 1])], flight := None,
            at := life.at + |fl.records|, judged := life.judged + seq(|fl.records|, _ => fl.view))
  }

  ghost function Apply(name: string, life: Life, a: Step): Life {
    match a
    case Append(r) => life.(records := life.records + [r])
    case Vacuum(n) => life.(vacuumed := n)
    case Activate(v, newest, f) =>
      var rows' := PrepareResult(v, newest, f, life.rows).0;
      if rows' == life.rows || life.records == [] then life.(rows := rows')
      else life.(rows := rows', tail := Some(|life.records| - 1), at := |life.records| - 1, judged := [])
    case Start(v, reading) =>
      var cursor := Position(life.rows, name);
      if life.flight.Some? || cursor == "" || Batch(reading, cursor).Failure? then life
      else life.(flight := Some(Flight(v, Batch(reading, cursor).records, 0)))
    case Offer(id, s', response) =>
      (match NextEvent(life, id)
       case Some(e) =>
         var stored := life.(store := s', foreign := life.foreign || Intrudes(name, life.store.events, s'.events, Some(e)));
         if response == IngestError then Landed(stored) else Advanced(stored)
       case None => if Skips(life) then Advanced(life) else Landed(life))
    case Abort => Landed(life)
    case Save(written) =>
      if life.flight.None? then life
      else if written && life.flight.value.next == |life.flight.value.records| then Saved(name, life)
      else Landed(life)
    case Elsewhere(s') =>
      life.(store := s', foreign := life.foreign || Intrudes(name, life.store.events, s'.events, None))
  }

  // ---- The promise ----

  ghost predicate Distinct(records: seq<Record>) {
    forall i, j | 0 <= i < j < |records| && ValidCursor(CursorOf(records[j])) ::
      CursorOf(records[i]) != CursorOf(records[j])
  }

  /** Position q was passed under a view of this source and is handled. */
  ghost predicate Passed(name: string, life: Life, t: nat, q: nat) {
    && t < q < |life.records| && q - t - 1 < |life.judged|
    && life.judged[q - t - 1].src.name == name
    && Handled(life.judged[q - t - 1], life.records[q], life.store)
  }

  /** The checkpoint row names position at, and every record after the tail up to it is handled. */
  ghost predicate Covered(name: string, life: Life) {
    match life.tail
    case None => Position(life.rows, name) == ""
    case Some(t) =>
      && t <= life.at < |life.records|
      && ValidCursor(CursorOf(life.records[life.at]))
      && Position(life.rows, name) == CursorOf(life.records[life.at])
      && |life.judged| == life.at - t
      && forall q {:trigger Passed(name, life, t, q)} | t < q <= life.at :: Passed(name, life, t, q)
  }

  /** Every event under the source's name is a record after the tail, rendered: nothing at or before it
      was ever offered, and nothing was made up. */
  ghost predicate OnlyRecords(name: string, life: Life) {
    !life.foreign ==>
      forall id {:trigger life.store.events[id]} | id in life.store.events && Own(name, life.store.events[id]) ::
        AfterTail(life, life.store.events[id])
  }

  ghost predicate AfterTail(life: Life, e: Event) {
    life.tail.Some? && exists q | life.tail.value < q < |life.records| :: Renders(e, life.records[q])
  }

  /** A poll under way holds exactly the records that follow the checkpoint, those before next handled. */
  ghost predicate FlightOk(name: string, life: Life) {
    life.flight.Some? ==>
      var fl := life.flight.value;
      && life.tail.Some? && fl.view.src.name == name && life.at + |fl.records| < |life.records|
      && fl.records == life.records[life.at + 1..life.at + 1 + |fl.records|]
      && fl.next <= |fl.records|
      && forall q {:trigger fl.records[q]} | 0 <= q < fl.next :: Handled(fl.view, fl.records[q], life.store)
  }

  ghost predicate LifeOk(name: string, life: Life) {
    && UniqueKeys(life.store) && life.vacuumed <= |life.records| && Distinct(life.records)
    && Covered(name, life) && OnlyRecords(name, life) && FlightOk(name, life)
  }

  /** A life begins without a checkpoint, over any journal and any store; events already stored under the
      source's name count as an intruder's. */
  ghost function Born(name: string, records: seq<Record>, rows: Rows, store: Tables): Life {
    Life(records, 0, rows, store, None, None, 0, [], exists id :: id in store.events && Own(name, store.events[id]))
  }

  lemma BirthIsOk(name: string, records: seq<Record>, rows: Rows, store: Tables)
    requires Distinct(records) && UniqueKeys(store) && Position(rows, name) == ""
    ensures LifeOk(name, Born(name, records, rows, store))
  {
    var life := Born(name, records, rows, store);
    if !life.foreign {
      forall id | id in store.events ensures !Own(name, store.events[id]) {
      }
    }
  }

  // ---- One poll by itself ----

  /** An exact checkpoint yields exactly the next window; a vacuumed one yields an error. */
  lemma BatchIsWindow(name: string, life: Life, reading: Reading)
    requires LifeOk(name, life) && life.tail.Some? && Faithful(life, Position(life.rows, name), reading)
    ensures var b := Batch(reading, Position(life.rows, name));
      match reading
      case ReadFails => b == Failure(BatchUnreadable)
      case Records(_) =>
        if life.vacuumed <= life.at then b == Success(Window(life)) else b == Failure(CheckpointUnavailable)
  {
  }

  /** What a poll that reached its walk, or could not, comes to. */
  ghost predicate FollowsWalk(life: Life, f: Faults, w: Walked, s': Tables, rows': Rows, error: Option<PollError>,
                              name: string) {
    && life.at < |life.records|
    && if life.vacuumed > life.at || f.reading.ReadFails? || !f.cursorReadable
       then s' == life.store && rows' == life.rows && error.Some?
       else
         && s' == w.tables
         && (w.error.Some? ==> rows' == life.rows && error == w.error)
         && (w.error.None? && Window(life) == [] ==> rows' == life.rows && error == None)
         && (w.error.None? && Window(life) != [] ==>
               && rows' == Written(life.rows, name, w.cursor, f.saved, f.landed)
               && error == if f.saved then None else Some(NotSaved))
  }

  lemma PollWalks(name: string, sem: Semantics, life: Life, v: View, rt: Runtime, f: Faults)
    requires LifeOk(name, life) && life.tail.Some? && v.src.name == name
    requires Faithful(life, Position(life.rows, name), f.reading)
    ensures var (s', rows', error) := PollResult(v, rt, sem, f, life.store, life.rows);
      var w := Walk(rt, sem, f, Items(v, f.id, Window(life)), 0, life.store, Position(life.rows, name));
      FollowsWalk(life, f, w, s', rows', error, name)
  {
    BatchIsWindow(name, life, f.reading);
    assert Position(life.rows, name) != "";
  }

  /** What any poll may do to the tables: add rows, of this source only records in its window. */
  ghost predicate Stores(name: string, life: Life, s': Tables) {
    && life.at < |life.records| && UniqueKeys(s') && Grows(life.store, s')
    && OwnAmong(name, life.store.events, s'.events, Window(life))
  }

  /** What a poll does to the checkpoint: it moves by exactly min(100, backlog) records, all handled and
      none of them behind a vacuumed gap, or not at all. Without an error it does move; with one it does
      only if the write landed that reported failure. */
  ghost predicate Moves(name: string, life: Life, v: View, s': Tables, rows': Rows, error: Option<PollError>) {
    var n := Min(100, |life.records| - 1 - life.at);
    && life.at < |life.records| && |Window(life)| == n
    && (error.None? || rows' != life.rows ==> life.vacuumed <= life.at && AllHandled(v, Window(life), s'))
    && (rows' == life.rows || (n > 0 && rows' == life.rows[name := CursorOf(life.records[life.at + n])]))
    && (error.None? && n > 0 ==> rows' == life.rows[name := CursorOf(life.records[life.at + n])])
  }

  lemma PollStores(name: string, sem: Semantics, life: Life, v: View, rt: Runtime, f: Faults)
    requires LifeOk(name, life) && life.tail.Some? && v.src.name == name
    requires Faithful(life, Position(life.rows, name), f.reading)
    ensures Stores(name, life, PollResult(v, rt, sem, f, life.store, life.rows).0)
    ensures life.vacuumed > life.at ==> PollResult(v, rt, sem, f, life.store, life.rows).0 == life.store
  {
    PollWalks(name, sem, life, v, rt, f);
    WindowIsHandled(v, rt, sem, f, Window(life), life.store, Position(life.rows, name));
  }

  lemma WalkMoves(name: string, life: Life, v: View, f: Faults, w: Walked, s': Tables, rows': Rows,
                  error: Option<PollError>)
    requires FollowsWalk(life, f, w, s', rows', error, name)
    requires w.error.None? ==> AllHandled(v, Window(life), w.tables)
    requires w.error.None? && Window(life) != [] ==> w.cursor == CursorOf(Window(life)[|Window(life)| - 1])
    ensures Moves(name, life, v, s', rows', error)
  {
  }

  lemma PollAdvancesOrStays(name: string, sem: Semantics, life: Life, v: View, rt: Runtime, f: Faults)
    requires LifeOk(name, life) && life.tail.Some? && v.src.name == name
    requires Faithful(life, Position(life.rows, name), f.reading)
    ensures var (s', rows', error) := PollResult(v, rt, sem, f, life.store, life.rows);
      Moves(name, life, v, s', rows', error)
  {
    var (s', rows', error) := PollResult(v, rt, sem, f, life.store, life.rows);
    var w := Walk(rt, sem, f, Items(v, f.id, Window(life)), 0, life.store, Position(life.rows, name));
    PollWalks(name, sem, life, v, rt, f);
    WindowIsHandled(v, rt, sem, f, Window(life), life.store, Position(life.rows, name));
    WalkMoves(name, life, v, f, w, s', rows', error);
  }

  /** A poll succeeds, and so advances by min(100, backlog), if and only if the checkpoint can be read and
      is still in the journal, journalctl answers, nothing cancels the poll, no record is malformed, no
      ingest meets a fault at the tables the poll had reached, and the new checkpoint is saved. */
  lemma PollSucceedsIff(name: string, sem: Semantics, life: Life, v: View, rt: Runtime, f: Faults)
    requires LifeOk(name, life) && life.tail.Some? && v.src.name == name
    requires Faithful(life, Position(life.rows, name), f.reading)
    ensures var window := Window(life);
      PollResult(v, rt, sem, f, life.store, life.rows).2.None? <==>
        && f.cursorReadable && f.reading.Records? && life.vacuumed <= life.at
        && f.cancelAt > |window|
        && AllSucceed(rt, sem, f, Items(v, f.id, window), 0, life.store)
        && (window != [] ==> f.saved)
  {
    PollWalks(name, sem, life, v, rt, f);
    WalkSucceedsIff(rt, sem, f, Items(v, f.id, Window(life)), 0, life.store, Position(life.rows, name));
  }

  lemma WindowWellFormed(v: View, f: Faults, window: seq<Record>)
    requires forall r | r in window :: ValidCursor(CursorOf(r)) && (Qualifies(v.src, v.host, r) ==> TimestampOk(r))
    ensures WellFormed(f, Items(v, f.id, window))
  {
    var items := Items(v, f.id, window);
    forall q | 0 <= q < |items|
      ensures items[q].valid && !items[q].form.BadRecord?
      ensures items[q].form.Selected? ==> items[q].form.event.id == f.id(q) && items[q].form.event.depth == 0
    {
      ItemAt(v, f.id, window, q);
      assert window[q] in window;
    }
  }

  lemma HealthyWindowSucceeds(v: View, rt: Runtime, sem: Semantics, f: Faults, window: seq<Record>, s: Tables)
    requires NoFaults(f, |window|) && FreshIds(f, s, |window|)
    requires forall r | r in window :: ValidCursor(CursorOf(r)) && (Qualifies(v.src, v.host, r) ==> TimestampOk(r))
    ensures AllSucceed(rt, sem, f, Items(v, f.id, window), 0, s)
  {
    WindowWellFormed(v, f, window);
    HealthyItemsSucceed(rt, sem, f, Items(v, f.id, window), 0, s);
  }

  /** Each fault-free poll advances by exactly min(100, backlog): with no cancellation, well-formed
      records, healthy storage and identifiers that were never used, the poll reports no error, and the
      checkpoint row names the record that far ahead. */
  lemma HealthyPollAdvances(name: string, sem: Semantics, life: Life, v: View, rt: Runtime, f: Faults)
    requires LifeOk(name, life) && life.tail.Some? && v.src.name == name
    requires Faithful(life, Position(life.rows, name), f.reading)
    requires life.vacuumed <= life.at && f.cursorReadable && f.reading.Records? && f.saved
    requires var n := |Window(life)|; f.cancelAt > n && NoFaults(f, n) && FreshIds(f, life.store, n)
    requires forall r | r in Window(life) ::
      ValidCursor(CursorOf(r)) && (Qualifies(v.src, v.host, r) ==> TimestampOk(r))
    ensures var n := Min(100, |life.records| - 1 - life.at);
      var (s', rows', error) := PollResult(v, rt, sem, f, life.store, life.rows);
      && error == None
      && rows' == (if n == 0 then life.rows else life.rows[name := CursorOf(life.records[life.at + n])])
      && Position(rows', name) == CursorOf(life.records[life.at + n])
      && AllHandled(v, Window(life), s')
  {
    HealthyWindowSucceeds(v, rt, sem, f, Window(life), life.store);
    PollSucceedsIff(name, sem, life, v, rt, f);
    PollAdvancesOrStays(name, sem, life, v, rt, f);
  }

  // ---- Every step keeps the promise ----

  lemma PassedGrows(name: string, life: Life, life': Life, t: nat, q: nat)
    requires Passed(name, life, t, q) && Grows(life.store, life'.store)
    requires life'.records == life.records && life'.judged == life.judged
    ensures Passed(name, life', t, q)
  {
    HandledGrows(life.judged[q - t - 1], life.records[q], life.store, life'.store);
  }

  /** Whatever is stored meanwhile, nothing that was handled becomes unhandled. */
  lemma CoveredGrows(name: string, life: Life, life': Life)
    requires Covered(name, life) && Grows(life.store, life'.store)
    requires life'.records == life.records && life'.rows == life.rows
    requires life'.tail == life.tail && life'.at == life.at && life'.judged == life.judged
    ensures Covered(name, life')
  {
    if life.tail.Some? {
      var t := life.tail.value;
      forall q | t < q <= life.at ensures Passed(name, life', t, q) {
        PassedGrows(name, life, life', t, q);
      }
    }
  }

  lemma FlightGrows(name: string, life: Life, s': Tables)
    requires FlightOk(name, life) && Grows(life.store, s')
    ensures FlightOk(name, life.(store := s'))
  {
    if life.flight.Some? {
      var fl := life.flight.value;
      forall q | 0 <= q < fl.next ensures Handled(fl.view, fl.records[q], s') {
        HandledGrows(fl.view, fl.records[q], life.store, s');
      }
    }
  }

  /** Other work under other names, and other work under this one, which is remembered. */
  lemma OthersKeepRecords(name: string, life: Life, s': Tables, foreign: bool)
    requires OnlyRecords(name, life) && Grows(life.store, s')
    requires foreign == (life.foreign || Intrudes(name, life.store.events, s'.events, None))
    ensures OnlyRecords(name, life.(store := s', foreign := foreign))
  {
    var life' := life.(store := s', foreign := foreign);
    if !foreign {
      forall id | id in s'.events && Own(name, s'.events[id]) ensures AfterTail(life', s'.events[id]) {
        assert id in life.store.events;
        assert AfterTail(life, life.store.events[id]);
      }
    }
  }

  lemma GrownKeeps(name: string, life: Life, s': Tables, foreign: bool)
    requires LifeOk(name, life) && Grows(life.store, s') && UniqueKeys(s')
    requires OnlyRecords(name, life.(store := s', foreign := foreign))
    ensures LifeOk(name, life.(store := s', foreign := foreign))
  {
    CoveredGrows(name, life, life.(store := s', foreign := foreign));
    FlightGrows(name, life, s');
  }

  lemma ElsewhereKeeps(name: string, life: Life, a: Step)
    requires LifeOk(name, life) && a.Elsewhere? && Legal(name, life, a)
    ensures LifeOk(name, Apply(name, life, a))
  {
    OthersKeepRecords(name, life, a.store, Apply(name, life, a).foreign);
    GrownKeeps(name, life, a.store, Apply(name, life, a).foreign);
  }

  /** Nothing stored, no record forgotten. */
  lemma RecordsStay(name: string, life: Life, life': Life)
    requires OnlyRecords(name, life) && life'.store == life.store && life'.foreign == life.foreign
    requires life'.tail == life.tail && life.records <= life'.records
    ensures OnlyRecords(name, life')
  {
    if !life.foreign {
      forall id | id in life.store.events && Own(name, life.store.events[id]) ensures AfterTail(life', life.store.events[id]) {
        assert AfterTail(life, life.store.events[id]);
        var q :| life.tail.value < q < |life.records| && Renders(life.store.events[id], life.records[q]);
        assert Renders(life.store.events[id], life'.records[q]);
      }
    }
  }

  lemma LandedKeeps(name: string, life: Life)
    requires LifeOk(name, life)
    ensures LifeOk(name, Landed(life))
  {
    CoveredGrows(name, life, Landed(life));
    RecordsStay(name, life, Landed(life));
  }

  /** The record just dealt with is handled. */
  lemma AdvancedKeeps(name: string, life: Life)
    requires LifeOk(name, life) && life.flight.Some? && life.flight.value.next < |life.flight.value.records|
    requires Handled(life.flight.value.view, life.flight.value.records[life.flight.value.next], life.store)
    ensures LifeOk(name, Advanced(life))
  {
    CoveredGrows(name, life, Advanced(life));
    RecordsStay(name, life, Advanced(life));
  }

  lemma OfferedEvent(life: Life, id: Id)
    requires NextEvent(life, id).Some?
    ensures life.flight.Some? && life.flight.value.next < |life.flight.value.records|
    ensures var (fl, e) := (life.flight.value, NextEvent(life, id).value);
      var r := fl.records[fl.next];
      && e == EventOf(fl.view.src, fl.view.host, r, id, fl.view.utf8)
      && ValidCursor(CursorOf(r)) && Qualifies(fl.view.src, fl.view.host, r)
  {
  }

  lemma OfferedPosition(name: string, life: Life)
    requires FlightOk(name, life) && life.flight.Some? && life.flight.value.next < |life.flight.value.records|
    ensures var fl := life.flight.value;
      && life.tail.Some? && fl.view.src.name == name
      && life.at + 1 + fl.next < |life.records| && fl.records[fl.next] == life.records[life.at + 1 + fl.next]
  {
  }

  lemma OfferedRecord(name: string, life: Life, id: Id)
    requires LifeOk(name, life) && NextEvent(life, id).Some?
    ensures var (fl, e) := (life.flight.value, NextEvent(life, id).value);
      && life.flight.Some? && fl.next < |fl.records| && life.tail.Some?
      && var r := fl.records[fl.next];
         && e == EventOf(fl.view.src, fl.view.host, r, id, fl.view.utf8)
         && ValidCursor(CursorOf(r)) && Qualifies(fl.view.src, fl.view.host, r) && Renders(e, r)
         && KeyOf(e) == RecordKey(name, r)
         && life.at + 1 + fl.next < |life.records| && r == life.records[life.at + 1 + fl.next]
  {
    OfferedEvent(life, id);
    OfferedPosition(name, life);
    var fl := life.flight.value;
    EventRenders(fl.view, fl.records[fl.next], id);
  }

  lemma OfferKeepsRecords(name: string, life: Life, id: Id, s': Tables, foreign: bool)
    requires LifeOk(name, life) && NextEvent(life, id).Some? && Grows(life.store, s')
    requires foreign == (life.foreign || Intrudes(name, life.store.events, s'.events, NextEvent(life, id)))
    ensures OnlyRecords(name, life.(store := s', foreign := foreign))
  {
    var life' := life.(store := s', foreign := foreign);
    OfferedRecord(name, life, id);
    if !foreign {
      forall k | k in s'.events && Own(name, s'.events[k]) ensures AfterTail(life', s'.events[k]) {
        if k in life.store.events {
          assert AfterTail(life, life.store.events[k]);
        } else {
          assert Renders(s'.events[k], life.records[life.at + 1 + life.flight.value.next]);
        }
      }
    }
  }

  lemma StoredKeeps(name: string, life: Life, id: Id, s': Tables, foreign: bool)
    requires LifeOk(name, life) && NextEvent(life, id).Some? && Grows(life.store, s') && UniqueKeys(s')
    requires foreign == (life.foreign || Intrudes(name, life.store.events, s'.events, NextEvent(life, id)))
    ensures LifeOk(name, life.(store := s', foreign := foreign))
  {
    OfferKeepsRecords(name, life, id, s', foreign);
    GrownKeeps(name, life, s', foreign);
  }

  lemma OfferKeeps(name: string, life: Life, a: Step)
    requires LifeOk(name, life) && a.Offer? && Legal(name, life, a)
    ensures LifeOk(name, Apply(name, life, a))
  {
    LandedKeeps(name, life);
    if NextEvent(life, a.id).Some? {
      var foreign := life.foreign || Intrudes(name, life.store.events, a.store.events, NextEvent(life, a.id));
      var stored := life.(store := a.store, foreign := foreign);
      OfferedRecord(name, life, a.id);
      StoredKeeps(name, life, a.id, a.store, foreign);
      if a.response == IngestError {
        LandedKeeps(name, stored);
      } else {
        AdvancedKeeps(name, stored);
      }
    } else if Skips(life) {
      AdvancedKeeps(name, life);
    }
  }

  lemma AppendKeeps(name: string, life: Life, a: Step)
    requires LifeOk(name, life) && a.Append? && Legal(name, life, a)
    ensures LifeOk(name, Apply(name, life, a))
  {
    var life' := Apply(name, life, a);
    assert forall q | 0 <= q < |life.records| :: life'.records[q] == life.records[q];
    if life.tail.Some? {
      forall q | life.tail.value < q <= life.at ensures Passed(name, life', life.tail.value, q) {
        assert Passed(name, life, life.tail.value, q);
      }
    }
    RecordsStay(name, life, life');
  }

  lemma VacuumKeeps(name: string, life: Life, a: Step)
    requires LifeOk(name, life) && a.Vacuum? && Legal(name, life, a)
    ensures LifeOk(name, Apply(name, life, a))
  {
    var life' := Apply(name, life, a);
    CoveredGrows(name, life, life');
    RecordsStay(name, life, life');
  }

  /** A prior checkpoint survives activation unchanged, whatever the probe finds. */
  lemma ReactivationChangesNothing(name: string, life: Life, a: Step)
    requires LifeOk(name, life) && a.Activate? && a.view.src.name == name && life.tail.Some?
    ensures Apply(name, life, a) == life
  {
    assert Position(life.rows, name) != "";
  }

  /** A first activation either leaves no checkpoint or starts at the newest readable record. */
  lemma FirstActivation(name: string, life: Life, v: View, newest: Reading, f: Faults)
    requires LifeOk(name, life) && life.tail.None? && v.src.name == name && FaithfulTail(life, newest)
    ensures var rows' := PrepareResult(v, newest, f, life.rows).0;
      || rows' == life.rows
      || (&& life.records != [] && life.vacuumed < |life.records|
          && ValidCursor(CursorOf(life.records[|life.records| - 1]))
          && rows' == life.rows[name := CursorOf(life.records[|life.records| - 1])])
  {
  }

  /** Preparing, fault by fault. Without a checkpoint it takes the position of the journal's one newest record,
      once that reads back, and reports success exactly when it was saved; with one it only probes it. */
  lemma PrepareExactly(v: View, newest: Reading, f: Faults, rows: Rows)
    ensures var (name, (rows', error)) := (v.src.name, PrepareResult(v, newest, f, rows));
      if !f.cursorReadable then rows' == rows && error == Some(CursorUnreadable)
      else if Position(rows, name) != ""
      then rows' == rows && (error == None <==> ReadsBack(f.reading, Position(rows, name)))
      else
        var takes := match newest
          case ReadFails => false
          case Records(records) =>
            && |records| == 1 && ValidCursor(CursorOf(records[0]))
            && ReadsBack(f.reading, CursorOf(records[0])) && f.cancelAt > 0;
        && (error == None <==> takes && f.saved)
        && rows' == if takes && (f.saved || f.landed) then rows[name := CursorOf(newest.records[0])] else rows
  {
  }

  /** What was read starts with the record at this position. */
  predicate ReadsBack(reading: Reading, cursor: string) {
    match reading case ReadFails => false case Records(records) => records != [] && TextOf(records[0], "__CURSOR") == cursor
  }

  /** Before the first activation nothing of this source was stored. */
  lemma NothingBeforeTail(name: string, life: Life)
    requires LifeOk(name, life) && life.tail.None? && !life.foreign
    ensures forall id | id in life.store.events :: !Own(name, life.store.events[id])
  {
    forall id | id in life.store.events ensures !Own(name, life.store.events[id]) {
      assert Own(name, life.store.events[id]) ==> AfterTail(life, life.store.events[id]);
    }
  }

  lemma ActivateKeeps(name: string, life: Life, a: Step)
    requires LifeOk(name, life) && a.Activate? && Legal(name, life, a)
    ensures LifeOk(name, Apply(name, life, a))
  {
    if life.tail.Some? {
      ReactivationChangesNothing(name, life, a);
    } else {
      FirstActivation(name, life, a.view, a.newest, a.faults);
      if !life.foreign {
        NothingBeforeTail(name, life);
      }
    }
  }

  /** A poll starts over exactly the window that follows the checkpoint. */
  lemma StartIsWindow(name: string, life: Life, a: Step)
    requires LifeOk(name, life) && a.Start? && Legal(name, life, a)
    ensures Apply(name, life, a) != life ==>
      life.tail.Some? && Apply(name, life, a) == life.(flight := Some(Flight(a.view, Window(life), 0)))
  {
    if life.tail.Some? {
      BatchIsWindow(name, life, a.reading);
    }
  }

  lemma StartKeeps(name: string, life: Life, a: Step)
    requires LifeOk(name, life) && a.Start? && Legal(name, life, a)
    ensures LifeOk(name, Apply(name, life, a))
    ensures Apply(name, life, a) != life ==>
      life.tail.Some? && Apply(name, life, a) == life.(flight := Some(Flight(a.view, Window(life), 0)))
  {
    StartIsWindow(name, life, a);
    if Apply(name, life, a) != life {
      FlightStarts(name, life, a.view);
    }
  }

  lemma FlightStarts(name: string, life: Life, v: View)
    requires LifeOk(name, life) && life.tail.Some? && v.src.name == name
    ensures LifeOk(name, life.(flight := Some(Flight(v, Window(life), 0))))
  {
    var life' := life.(flight := Some(Flight(v, Window(life), 0)));
    CoveredGrows(name, life, life');
    RecordsStay(name, life, life');
  }

  /** Moving the checkpoint over a batch that was handled throughout. */
  lemma SavedIsCovered(name: string, life: Life)
    requires LifeOk(name, life) && life.flight.Some? && life.flight.value.records != []
    requires life.flight.value.next == |life.flight.value.records|
    ensures Covered(name, Saved(name, life))
  {
    var t, fl, life' := life.tail.value, life.flight.value, Saved(name, life);
    var n := |fl.records|;
    forall q | t < q <= life'.at ensures Passed(name, life', t, q) {
      if q > life.at {
        assert fl.records[q - life.at - 1] == life.records[q];
      } else {
        assert Passed(name, life, t, q);
      }
    }
    assert Handled(fl.view, fl.records[n - 1], life.store);
  }

  lemma SaveKeeps(name: string, life: Life, a: Step)
    requires LifeOk(name, life) && a.Save? && Legal(name, life, a)
    ensures LifeOk(name, Apply(name, life, a))
  {
    LandedKeeps(name, life);
    if life.flight.Some? && life.flight.value.records != [] && a.written
       && life.flight.value.next == |life.flight.value.records| {
      SavedIsCovered(name, life);
      RecordsStay(name, life, Saved(name, life));
    }
  }

  lemma StepKeeps(name: string, life: Life, a: Step)
    requires LifeOk(name, life) && Legal(name, life, a)
    ensures LifeOk(name, Apply(name, life, a))
  {
    match a {
      case Append(_) => AppendKeeps(name, life, a);
      case Vacuum(_) => VacuumKeeps(name, life, a);
      case Activate(_, _, _) => ActivateKeeps(name, life, a);
      case Start(_, _) => StartKeeps(name, life, a);
      case Offer(_, _, _) => OfferKeeps(name, life, a);
      case Abort => LandedKeeps(name, life);
      case Save(_) => SaveKeeps(name, life, a);
      case Elsewhere(_) => ElsewhereKeeps(name, life, a);
    }
  }

  ghost function Run(name: string, life: Life, steps: seq<Step>): Life
    decreases |steps|
  {
    if steps == [] then life else Run(name, Apply(name, life, steps[0]), steps[1..])
  }

  ghost predicate AllLegal(name: string, life: Life, steps: seq<Step>)
    decreases |steps|
  {
    steps != [] ==> Legal(name, life, steps[0]) && AllLegal(name, Apply(name, life, steps[0]), steps[1..])
  }

  /** What was passed stays passed, and intruders are never forgotten. */
  ghost predicate Onward(life: Life, life': Life) {
    && Grows(life.store, life'.store) && life.records <= life'.records && (life.foreign ==> life'.foreign)
    && (life.tail.Some? ==> life'.tail == life.tail && life.at <= life'.at && life.judged <= life'.judged)
  }

  lemma OfferIsOnward(name: string, life: Life, a: Step)
    requires a.Offer? && Legal(name, life, a)
    ensures Onward(life, Apply(name, life, a))
  {
  }

  lemma SaveIsOnward(name: string, life: Life, a: Step)
    requires a.Save?
    ensures Onward(life, Apply(name, life, a))
  {
  }

  lemma ActivateIsOnward(name: string, life: Life, a: Step)
    requires LifeOk(name, life) && a.Activate? && Legal(name, life, a)
    ensures Onward(life, Apply(name, life, a))
  {
    if life.tail.Some? {
      ReactivationChangesNothing(name, life, a);
    }
  }

  lemma OthersAreOnward(name: string, life: Life, a: Step)
    requires !a.Offer? && !a.Save? && !a.Activate? && Legal(name, life, a)
    ensures Onward(life, Apply(name, life, a))
  {
  }

  lemma StepIsOnward(name: string, life: Life, a: Step)
    requires LifeOk(name, life) && Legal(name, life, a)
    ensures Onward(life, Apply(name, life, a))
  {
    if a.Offer? {
      OfferIsOnward(name, life, a);
    } else if a.Save? {
      SaveIsOnward(name, life, a);
    } else if a.Activate? {
      ActivateIsOnward(name, life, a);
    } else {
      OthersAreOnward(name, life, a);
    }
  }

  /** Over every run, however offers, failures, deaths and other work interleave: every record after the
      tail up to the checkpoint is handled, every event under the source's name is a record after the
      tail unless an intruder stored it, and neither the tail nor the checkpoint ever moves back. */
  lemma {:induction false} NoRecordIsLost(name: string, life: Life, steps: seq<Step>)
    requires LifeOk(name, life) && AllLegal(name, life, steps)
    ensures LifeOk(name, Run(name, life, steps)) && Onward(life, Run(name, life, steps))
    decreases |steps|
  {
    if steps != [] {
      var next := Apply(name, life, steps[0]);
      StepKeeps(name, life, steps[0]);
      StepIsOnward(name, life, steps[0]);
      NoRecordIsLost(name, next, steps[1..]);
      GrowsTwice(life.store, next.store, Run(name, life, steps).store);
    }
  }

  /** Spelled out for one record: after the tail, up to the checkpoint, qualifying when it was passed, it
      has exactly one stored event, and unless an intruder could have taken its identity that event is
      the record itself, rendered; under one of the names the process gives its own events it may also
      be such an event. */
  lemma ExactlyOneEventEach(name: string, life: Life, q: nat)
    requires LifeOk(name, life) && life.tail.Some? && life.tail.value < q <= life.at
    requires var v := life.judged[q - life.tail.value - 1]; Qualifies(v.src, v.host, life.records[q])
    ensures var k := RecordKey(name, life.records[q]);
      exists id :: id in life.store.events && KeyOf(life.store.events[id]) == k
                   && (forall other | other in life.store.events && KeyOf(life.store.events[other]) == k :: other == id)
                   && (!life.foreign ==>
                         || Renders(life.store.events[id], life.records[q])
                         || (Reserved(name) && life.store.events[id].depth != 0))
  {
    assert Passed(name, life, life.tail.value, q);
    var r := life.records[q];
    var id :| id in life.store.events && KeyOf(life.store.events[id]) == RecordKey(name, r);
    var e := life.store.events[id];
    if !life.foreign && Own(name, e) {
      assert AfterTail(life, e);
      var p :| life.tail.value < p < |life.records| && Renders(e, life.records[p]);
      OneRecordPerCursor(life.records, p, q);
    }
  }

  lemma OneRecordPerCursor(records: seq<Record>, p: nat, q: nat)
    requires Distinct(records) && p < |records| && q < |records|
    requires CursorOf(records[p]) == CursorOf(records[q]) && ValidCursor(CursorOf(records[q]))
    ensures p == q
  {
  }

  // ---- The reader's own poll is such a run ----

  ghost predicate Reaches(name: string, life: Life, life': Life) {
    exists steps :: AllLegal(name, life, steps) && Run(name, life, steps) == life'
  }

  lemma ReachesItself(name: string, life: Life)
    ensures Reaches(name, life, life)
  {
    assert AllLegal(name, life, []) && Run(name, life, []) == life;
  }

  lemma ReachesAfter(name: string, life: Life, a: Step, life': Life)
    requires Legal(name, life, a) && Reaches(name, Apply(name, life, a), life')
    ensures Reaches(name, life, life')
  {
    var steps :| AllLegal(name, Apply(name, life, a), steps) && Run(name, Apply(name, life, a), steps) == life';
    var all := [a] + steps;
    assert all[1..] == steps;
    assert AllLegal(name, life, all) && Run(name, life, all) == life';
  }

  lemma {:induction false} ReachesOn(name: string, life: Life, mid: Life, life': Life)
    requires Reaches(name, life, mid) && Reaches(name, mid, life')
    ensures Reaches(name, life, life')
  {
    var steps :| AllLegal(name, life, steps) && Run(name, life, steps) == mid;
    Continue(name, life, steps, life');
  }

  lemma {:induction false} Continue(name: string, life: Life, steps: seq<Step>, life': Life)
    requires AllLegal(name, life, steps) && Reaches(name, Run(name, life, steps), life')
    ensures Reaches(name, life, life')
    decreases |steps|
  {
    if steps != [] {
      Continue(name, Apply(name, life, steps[0]), steps[1..], life');
      ReachesAfter(name, life, steps[0], life');
    }
  }

  /** An ingest by itself intrudes on no source. */
  lemma IngestIsNoIntruder(name: string, before: Events, after: Events, e: Event)
    requires OnlyAdds(before, after, e) && e.depth == 0
    ensures !Intrudes(name, before, after, Some(e))
  {
  }

  /** Where a walk leaves the run: with its poll ready to save, or over. */
  function AfterWalk(life: Life, w: Walked): Life
    requires life.flight.Some?
  {
    var fl := life.flight.value;
    life.(store := w.tables, flight := if w.error.None? then Some(fl.(next := |fl.records|)) else None)
  }

  lemma AbortIsARun(name: string, life: Life)
    ensures Reaches(name, life, Landed(life))
  {
    ReachesItself(name, Landed(life));
    ReachesAfter(name, life, Abort, Landed(life));
  }

  /** The item a walk has come to is the event the run offers next. */
  lemma NextItem(life: Life, f: Faults, item: Item)
    requires life.flight.Some? && life.flight.value.next < |life.flight.value.records|
    requires var fl := life.flight.value; item == ItemOf(fl.view, fl.records[fl.next], f.id(fl.next))
    ensures item.valid && item.form.Skipped? ==> NextEvent(life, f.id(life.flight.value.next)).None? && Skips(life)
    ensures item.valid && item.form.Selected? ==>
      NextEvent(life, f.id(life.flight.value.next)) == Some(item.form.event) && item.form.event.depth == 0
  {
  }

  lemma SkipIsARun(name: string, life: Life, id: Id, life': Life)
    requires life.flight.Some? && NextEvent(life, id).None? && Skips(life)
    requires Reaches(name, Advanced(life), life')
    ensures Reaches(name, life, life')
  {
    ReachesAfter(name, life, Offer(id, life.store, IngestError), life');
  }

  lemma OfferIsLegal(name: string, life: Life, rt: Runtime, sem: Semantics, w: World, id: Id, e: Event)
    requires NextEvent(life, id) == Some(e) && e.depth == 0
    ensures var (s', response) := IngestResult(rt, sem, w, life.store, e);
      && Legal(name, life, Offer(id, s', response))
      && Apply(name, life, Offer(id, s', response))
           == (if response == IngestError then Landed(life.(store := s')) else Advanced(life.(store := s')))
  {
    var (s', response) := IngestResult(rt, sem, w, life.store, e);
    IngestIsOffer(rt, sem, w, life.store, e);
    IngestIsNoIntruder(name, life.store.events, s'.events, e);
  }

  lemma OfferIsARun(name: string, life: Life, rt: Runtime, sem: Semantics, w: World, id: Id, e: Event, life': Life)
    requires NextEvent(life, id) == Some(e) && e.depth == 0
    requires var (s', response) := IngestResult(rt, sem, w, life.store, e);
      if response == IngestError then life' == Landed(life.(store := s'))
      else Reaches(name, Advanced(life.(store := s')), life')
    ensures Reaches(name, life, life')
  {
    var (s', response) := IngestResult(rt, sem, w, life.store, e);
    OfferIsLegal(name, life, rt, sem, w, id, e);
    ReachesItself(name, life');
    ReachesAfter(name, life, Offer(id, s', response), life');
  }

  lemma AdvancedWalk(life: Life, s': Tables, w: Walked)
    requires life.flight.Some?
    ensures AfterWalk(Advanced(life.(store := s')), w) == AfterWalk(life, w)
  {
  }

  lemma {:induction false} WalkIsARun(name: string, rt: Runtime, sem: Semantics, f: Faults, items: seq<Item>, k: nat,
                                      life: Life, cursor: string, w: Walked)
    requires life.flight.Some? && life.flight.value.next == k <= |life.flight.value.records|
    requires items == Items(life.flight.value.view, f.id, life.flight.value.records)
    requires w == Walk(rt, sem, f, items, k, life.store, cursor)
    ensures Reaches(name, life, AfterWalk(life, w))
    decreases |items| - k
  {
    if f.cancelAt <= k {
      AbortIsARun(name, life);
    } else if k == |items| {
      ReachesItself(name, life);
    } else {
      ItemAt(life.flight.value.view, f.id, life.flight.value.records, k);
      NextItem(life, f, items[k]);
      if !items[k].valid || items[k].form.BadRecord? {
        AbortIsARun(name, life);
      } else if items[k].form.Skipped? {
        SkippedIsARun(name, rt, sem, f, items, k, life, cursor, w);
      } else {
        SelectedIsARun(name, rt, sem, f, items, k, life, cursor, w);
      }
    }
  }

  lemma {:induction false} SkippedIsARun(name: string, rt: Runtime, sem: Semantics, f: Faults, items: seq<Item>, k: nat,
                                         life: Life, cursor: string, w: Walked)
    requires life.flight.Some? && life.flight.value.next == k < |items| == |life.flight.value.records|
    requires items == Items(life.flight.value.view, f.id, life.flight.value.records)
    requires k < f.cancelAt && items[k].valid && items[k].form.Skipped?
    requires NextEvent(life, f.id(k)).None? && Skips(life)
    requires w == Walk(rt, sem, f, items, k, life.store, cursor)
    ensures Reaches(name, life, AfterWalk(life, w))
    decreases |items| - k, 0
  {
    WalkIsARun(name, rt, sem, f, items, k + 1, Advanced(life), items[k].cursor, w);
    AdvancedWalk(life, life.store, w);
    SkipIsARun(name, life, f.id(k), AfterWalk(life, w));
  }

  lemma FailedWalk(life: Life, s': Tables, w: Walked)
    requires life.flight.Some? && w.error.Some? && w.tables == s'
    ensures AfterWalk(life, w) == Landed(life.(store := s'))
  {
  }

  lemma {:induction false} SelectedIsARun(name: string, rt: Runtime, sem: Semantics, f: Faults, items: seq<Item>, k: nat,
                                          life: Life, cursor: string, w: Walked)
    requires life.flight.Some? && life.flight.value.next == k < |items| == |life.flight.value.records|
    requires items == Items(life.flight.value.view, f.id, life.flight.value.records)
    requires k < f.cancelAt && items[k].valid && items[k].form.Selected?
    requires NextEvent(life, f.id(k)) == Some(items[k].form.event) && items[k].form.event.depth == 0
    requires w == Walk(rt, sem, f, items, k, life.store, cursor)
    ensures Reaches(name, life, AfterWalk(life, w))
    decreases |items| - k, 0
  {
    var e := items[k].form.event;
    var (s', response) := IngestResult(rt, sem, f.world(k), life.store, e);
    SelectedUnfolds(rt, sem, f, items, k, life.store, cursor);
    if response == IngestError {
      FailedWalk(life, s', w);
    } else {
      WalkIsARun(name, rt, sem, f, items, k + 1, Advanced(life.(store := s')), items[k].cursor, w);
      AdvancedWalk(life, s', w);
    }
    OfferIsARun(name, life, rt, sem, f.world(k), f.id(k), e, AfterWalk(life, w));
  }

  /** Where one poll by itself leaves the run. */
  function Polled(life: Life, v: View, s': Tables, rows': Rows): Life {
    var passed := if rows' != life.rows && life.at < |life.records| then |Window(life)| else 0;
    life.(store := s', rows := rows', at := life.at + passed, judged := life.judged + seq(passed, _ => v))
  }

  lemma SaveIsARun(name: string, life: Life, ok: bool)
    requires life.flight.Some? && life.flight.value.next == |life.flight.value.records|
    ensures Reaches(name, life, if ok then Saved(name, life) else Landed(life))
  {
    var life' := if ok then Saved(name, life) else Landed(life);
    ReachesItself(name, life');
    ReachesAfter(name, life, Save(ok), life');
  }

  lemma StartIsARun(name: string, life: Life, v: View, reading: Reading, life': Life)
    requires LifeOk(name, life) && life.tail.Some? && life.flight.None? && v.src.name == name
    requires Faithful(life, Position(life.rows, name), reading) && reading.Records? && life.vacuumed <= life.at
    requires Reaches(name, life.(flight := Some(Flight(v, Window(life), 0))), life')
    ensures Reaches(name, life, life')
  {
    BatchIsWindow(name, life, reading);
    assert Position(life.rows, name) != "";
    ReachesAfter(name, life, Start(v, reading), life');
  }

  lemma NextIsAnother(name: string, life: Life)
    requires LifeOk(name, life) && life.tail.Some? && Window(life) != []
    ensures life.rows[name := CursorOf(Window(life)[|Window(life)| - 1])] != life.rows
  {
    var n := |Window(life)|;
    assert Window(life)[n - 1] == life.records[life.at + n];
    assert CursorOf(life.records[life.at]) != CursorOf(life.records[life.at + n]);
  }

  lemma WalkEnds(name: string, life: Life, v: View, f: Faults, w: Walked, s': Tables, rows': Rows,
          error: Option<PollError>)
    requires FollowsWalk(life, f, w, s', rows', error, name) && life.flight.None?
    requires life.vacuumed <= life.at && f.reading.Records? && f.cursorReadable
    requires w.error.None? && Window(life) != [] ==>
      w.cursor == CursorOf(Window(life)[|Window(life)| - 1]) && life.rows[name := w.cursor] != life.rows
    ensures var mid := AfterWalk(life.(flight := Some(Flight(v, Window(life), 0))), w);
      var life' := Polled(life, v, s', rows');
      life' == if w.error.Some? then mid else if f.saved || f.landed then Saved(name, mid) else Landed(mid)
  {
  }

  /** Each poll of the reader, whatever fails in it, is a run of these steps with nothing in between. */
  lemma PollIsARun(name: string, sem: Semantics, life: Life, v: View, rt: Runtime, f: Faults)
    requires LifeOk(name, life) && life.tail.Some? && life.flight.None? && v.src.name == name
    requires Faithful(life, Position(life.rows, name), f.reading)
    ensures var (s', rows', error) := PollResult(v, rt, sem, f, life.store, life.rows);
      Reaches(name, life, Polled(life, v, s', rows'))
  {
    var (s', rows', error) := PollResult(v, rt, sem, f, life.store, life.rows);
    var (cursor, items) := (Position(life.rows, name), Items(v, f.id, Window(life)));
    var w := Walk(rt, sem, f, items, 0, life.store, cursor);
    PollWalks(name, sem, life, v, rt, f);
    if life.vacuumed > life.at || f.reading.ReadFails? || !f.cursorReadable {
      ReachesItself(name, life);
    } else {
      var started := life.(flight := Some(Flight(v, Window(life), 0)));
      WindowIsHandled(v, rt, sem, f, Window(life), life.store, cursor);
      WalkIsARun(name, rt, sem, f, items, 0, started, cursor, w);
      if w.error.None? && Window(life) != [] {
        NextIsAnother(name, life);
      }
      WalkEnds(name, life, v, f, w, s', rows', error);
      if w.error.None? {
        SaveIsARun(name, AfterWalk(started, w), f.saved || f.landed);
        ReachesOn(name, started, AfterWalk(started, w), Polled(life, v, s', rows'));
      }
      StartIsARun(name, life, v, f.reading, Polled(life, v, s', rows'));
    }
  }
}
