/** Reading the system journal from an exact checkpoint (internal/source/journal.go): first activation,
    one bounded poll, and the guarantee over every run of polls, faults, cancellations, restarts and
    vacuums that no selected record is lost and none from before activation is offered. */
module Journal {
  import opened Domain
  import opened PolicyRules
  import opened Configuration
  import opened Store
  import opened Pipeline
  import opened Invariants
  import opened Checkpoints
  import opened JournalRecords
  import opened Ingests

  const BATCH: nat := 100

  datatype Reading = ReadFails | Records(records: seq<Record>)

  /** What one poll meets: whether the checkpoint can be read and written, whether a write that reports
      failure landed, what journalctl returns, the index of the first cancellation check that finds the
      context done (beyond the last check: never), and the world of each ingest. A process that dies in
      mid-poll is covered: it leaves the tables as they are in a world whose later writes all fail, and
      the checkpoint as it was. */
  datatype Faults = Faults(cursorReadable: bool, reading: Reading, cancelAt: nat, world: nat -> World,
                           id: nat -> Id, saved: bool, landed: bool)

  datatype PollError = CursorUnreadable | CheckpointMissing | BatchUnreadable | CheckpointUnavailable
                     | Cancelled | BadCursor | BadTimestamp | IngestFailed | NotSaved

  /** A source as one process sees it. */
  datatype View = View(src: Source, host: Host, utf8: string -> bool)

  // ---- Specification of one poll ----

  /** The records after the checkpoint, provided the checkpoint itself came first. */
  function Batch(reading: Reading, cursor: string): Result {
    match reading
    case ReadFails => Failure(BatchUnreadable)
    case Records(records) =>
      if records == [] || CursorOf(records[0]) != cursor then Failure(CheckpointUnavailable)
      else Success(records[1..])
  }

  datatype Result = Success(records: seq<Record>) | Failure(error: PollError)

  datatype Walked = Walked(tables: Tables, cursor: string, error: Option<PollError>)

  /** What a record comes to before anything is stored. */
  datatype Item = Item(cursor: string, valid: bool, form: Normalized)

  function ItemOf(v: View, r: Record, id: Id): Item {
    Item(CursorOf(r), ValidCursor(CursorOf(r)), NormalForm(v.src, v.host, r, id, v.utf8))
  }

  function Items(v: View, id: nat -> Id, records: seq<Record>): (items: seq<Item>)
    ensures |items| == |records|
  {
    seq(|records|, k requires 0 <= k < |records| => ItemOf(v, records[k], id(k)))
  }

  /** Offering items[k..] to ingest, in order, up to the first failure. */
  function Walk(rt: Runtime, sem: Semantics, f: Faults, items: seq<Item>, k: nat, s: Tables, cursor: string): Walked
    requires k <= |items|
    decreases |items| - k
  {
    if f.cancelAt <= k then Walked(s, cursor, Some(Cancelled))
    else if k == |items| then Walked(s, cursor, None)
    else if !items[k].valid then Walked(s, cursor, Some(BadCursor))
    else
      match items[k].form
      case Skipped => Walk(rt, sem, f, items, k + 1, s, items[k].cursor)
      case BadRecord => Walked(s, items[k].cursor, Some(BadTimestamp))
      case Selected(e) =>
        var (s', response) := IngestResult(rt, sem, f.world(k), s, e);
        if response == IngestError then Walked(s', items[k].cursor, Some(IngestFailed))
        else Walk(rt, sem, f, items, k + 1, s', items[k].cursor)
  }

  function PollResult(v: View, rt: Runtime, sem: Semantics, f: Faults, s: Tables, rows: Rows): (Tables, Rows,
                      Option<PollError>) {
    var cursor := Position(rows, v.src.name);
    if !f.cursorReadable then (s, rows, Some(CursorUnreadable))
    else if cursor == "" then (s, rows, Some(CheckpointMissing))
    else
      match Batch(f.reading, cursor)
      case Failure(error) => (s, rows, Some(error))
      case Success(records) =>
        var w := Walk(rt, sem, f, Items(v, f.id, records), 0, s, cursor);
        if w.error.Some? then (w.tables, rows, w.error)
        else if records == [] then (w.tables, rows, None)
        else (w.tables, Written(rows, v.src.name, w.cursor, f.saved, f.landed), if f.saved then None else Some(NotSaved))
  }

  /** First activation takes the current tail as its checkpoint; later ones only probe the old one. */
  function PrepareResult(v: View, tail: Reading, f: Faults, rows: Rows): (Rows, Option<PollError>) {
    var cursor := Position(rows, v.src.name);
    if !f.cursorReadable then (rows, Some(CursorUnreadable))
    else if cursor != "" then (rows, if Batch(f.reading, cursor).Failure? then Some(Batch(f.reading, cursor).error) else None)
    else if tail.ReadFails? || |tail.records| != 1 then (rows, Some(BatchUnreadable))
    else if !ValidCursor(CursorOf(tail.records[0])) then (rows, Some(BadCursor))
    else if Batch(f.reading, CursorOf(tail.records[0])).Failure? then (rows, Some(Batch(f.reading, CursorOf(tail.records[0])).error))
    else if f.cancelAt == 0 then (rows, Some(Cancelled))
    else
      (Written(rows, v.src.name, CursorOf(tail.records[0]), f.saved, f.landed), if f.saved then None else Some(NotSaved))
  }

  // ---- The reader as written ----

  class Reader {
    const view: View
    const cursors: Cursors

    constructor (view: View, cursors: Cursors)
      ensures this.view == view && this.cursors == cursors
    {
      this.view, this.cursors := view, cursors;
    }

    method ReadBatch(cursor: string, reading: Reading) returns (batch: Result)
      ensures batch == Batch(reading, cursor)
    {
      if reading.ReadFails? {
        return Failure(BatchUnreadable);
      }
      if |reading.records| == 0 || CursorOf(reading.records[0]) != cursor {
        return Failure(CheckpointUnavailable);
      }
      return Success(reading.records[1..]);
    }

    method Prepare(tail: Reading, f: Faults) returns (err: Option<PollError>)
      modifies cursors
      ensures (cursors.rows, err) == PrepareResult(view, tail, f, old(cursors.rows))
    {
      if !f.cursorReadable {
        return Some(CursorUnreadable);
      }
      var cursor := Position(cursors.rows, view.src.name);
      if cursor != "" {
        var probe := ReadBatch(cursor, f.reading);
        return if probe.Failure? then Some(probe.error) else None;
      }
      if tail.ReadFails? || |tail.records| != 1 {
        return Some(BatchUnreadable);
      }
      cursor := CursorOf(tail.records[0]);
      if !ValidCursor(cursor) {
        return Some(BadCursor);
      }
      var probe := ReadBatch(cursor, f.reading);
      if probe.Failure? {
        return Some(probe.error);
      }
      if f.cancelAt == 0 {
        return Some(Cancelled);
      }
      var saved := cursors.Save(view.src.name, cursor, f.saved, f.landed);
      err := if saved then None else Some(NotSaved);
    }

    method Poll(engine: Engine, f: Faults) returns (err: Option<PollError>)
      modifies engine.db, cursors
      ensures (engine.db.Contents(), cursors.rows, err)
           == PollResult(view, engine.rt, engine.sem, f, old(engine.db.Contents()), old(cursors.rows))
    {
      if !f.cursorReadable {
        return Some(CursorUnreadable);
      }
      var cursor := Position(cursors.rows, view.src.name);
      if cursor == "" {
        return Some(CheckpointMissing);
      }
      var batch := ReadBatch(cursor, f.reading);
      if batch.Failure? {
        return Some(batch.error);
      }
      var records := batch.records;
      ghost var items := Items(view, f.id, records);
      ghost var whole := Walk(engine.rt, engine.sem, f, items, 0, engine.db.Contents(), cursor);
      for k := 0 to |records|
        invariant cursors.rows == old(cursors.rows)
        invariant Walk(engine.rt, engine.sem, f, items, k, engine.db.Contents(), cursor) == whole
      {
        assert items[k] == ItemOf(view, records[k], f.id(k));
        if f.cancelAt <= k {
          return Some(Cancelled);
        }
        if !ValidCursor(CursorOf(records[k])) {
          return Some(BadCursor);
        }
        cursor := CursorOf(records[k]);
        var normalized := Normalize(view.src, view.host, records[k], f.id(k), view.utf8);
        if normalized.BadRecord? {
          return Some(BadTimestamp);
        }
        if normalized.Selected? {
          var response := engine.Ingest(normalized.event, f.world(k));
          if response == IngestError {
            return Some(IngestFailed);
          }
        }
      }
      if f.cancelAt <= |records| {
        return Some(Cancelled);
      }
      if |records| == 0 {
        return None;
      }
      var saved := cursors.Save(view.src.name, cursor, f.saved, f.landed);
      err := if saved then None else Some(NotSaved);
    }
  }
}
