/** Polling an HTTP feed up to a string watermark (internal/source/poller.go). */
module Poller {
  import opened Domain
  import opened PolicyRules
  import opened Configuration
  import opened Store
  import opened Pipeline
  import opened Checkpoints

  // ---- The order of identifiers ----

  /** Go's string comparison: bytewise, a proper prefix first. */
  predicate Less(a: string, b: string) {
    b != "" && (a == "" || a[0] < b[0] || (a[0] == b[0] && Less(a[1..], b[1..])))
  }

  /** Up to the first difference the two agree, and there the smaller byte, or the shorter string, is less. */
  lemma {:induction false} LessIff(a: string, b: string)
    ensures Less(a, b) <==>
      exists k: nat :: k <= |a| && k < |b| && a[..k] == b[..k] && (k == |a| || (a[k] as int) < (b[k] as int))
  {
    if a != "" && b != "" && a[0] == b[0] {
      LessIff(a[1..], b[1..]);
      if k: nat :| k <= |a| - 1 && k < |b| - 1 && a[1..][..k] == b[1..][..k] && (k == |a| - 1 || a[1..][k] < b[1..][k]) {
        assert a[..k + 1] == [a[0]] + a[1..][..k] && b[..k + 1] == [b[0]] + b[1..][..k];
      }
      if k: nat :| k <= |a| && k < |b| && a[..k] == b[..k] && (k == |a| || a[k] < b[k]) {
        assert k > 0;
        assert a[1..][..k - 1] == a[..k][1..] && b[1..][..k - 1] == b[..k][1..];
      }
    } else if a == "" && b != "" {
      assert a[..0] == b[..0];
    } else if a != "" && b != "" && a[0] < b[0] {
      assert a[..0] == b[..0];
    } else if a != "" && b != "" {
      assert forall k: nat | 0 < k <= |a| && k < |b| && a[..k] == b[..k] :: a[..k][0] == b[..k][0];
    }
  }

  predicate AtMost(a: string, b: string) { !Less(b, a) }

  lemma {:induction false} LessIsStrict(a: string)
    ensures !Less(a, a)
  {
    if a != "" {
      LessIsStrict(a[1..]);
    }
  }

  lemma {:induction false} LessIsTransitive(a: string, b: string, c: string)
    ensures Less(a, b) && Less(b, c) ==> Less(a, c)
  {
    if a != "" && b != "" && c != "" {
      LessIsTransitive(a[1..], b[1..], c[1..]);
    }
  }

  lemma {:induction false} LessIsTotal(a: string, b: string)
    ensures Less(a, b) || a == b || Less(b, a)
  {
    if a != "" && b != "" {
      LessIsTotal(a[1..], b[1..]);
      assert a[0] == b[0] && a[1..] == b[1..] ==> a == [a[0]] + a[1..] == b;
    }
  }

  // ---- Specification of one poll ----

  datatype Fetched = FetchFails | Fetched(items: seq<Value>)

  /** The index of the first cancellation check that finds the context done: one check before each
      item, one before the watermark is written, one at the end. */
  datatype Faults = Faults(fetched: Fetched, cancelAt: nat, world: nat -> World, id: nat -> Id,
                           saved: bool, landed: bool)

  datatype PollError = FetchError | Cancelled | Incomplete

  /** show renders a subject field, whatever its JSON type. */
  datatype View = View(src: Source, show: Value -> string)

  function CursorValue(fields: Fields, field: string): string {
    if field == "" || field !in fields then "" else SourceEventId(fields[field])
  }

  /** An item becomes an event unless it is not an object or lacks a usable cursor field. */
  function EventOf(v: View, item: Value, id: Id): (e: Option<Event>)
    ensures e.Some? ==> item.Object? && e.value.source == v.src.name && e.value.depth == 0
    ensures e.Some? ==> e.value.sourceId == CursorValue(item.fields, v.src.cursorField)
  {
    if !item.Object? || (v.src.cursorField != "" && CursorValue(item.fields, v.src.cursorField) == "") then None
    else
      var subject := if v.src.subjectField != "" && v.src.subjectField in item.fields
                     then v.show(item.fields[v.src.subjectField]) else "";
      Some(Event(id, v.src.eventType, v.src.name, subject, item.fields,
                 CursorValue(item.fields, v.src.cursorField), 0, None))
  }

  /** The event keeps the whole record as its data, and reads its subject and its identity from the fields
      the source names; an identity must be a string or an exact number, and one that is absent or empty
      costs the record its event. */
  lemma RecordIsKeptWhole(v: View, item: Value, id: Id)
    requires item.Object?
    ensures var (fields, src) := (item.fields, v.src);
      var identity := if src.cursorField == "" || src.cursorField !in fields then ""
                      else match fields[src.cursorField] case Text(s) => s case Literal(text) => text case _ => "";
      EventOf(v, item, id)
      == if src.cursorField != "" && identity == "" then None
         else Some(Event(id, src.eventType, src.name,
                         if src.subjectField != "" && src.subjectField in fields then v.show(fields[src.subjectField]) else "",
                         fields, identity, 0, None))
  {
  }

  function Later(a: string, b: string): string { if Less(a, b) then b else a }

  datatype Walked = Walked(tables: Tables, complete: bool, newest: string, cancelled: bool)

  function Walk(v: View, rt: Runtime, sem: Semantics, f: Faults, items: seq<Value>, k: nat, s: Tables, complete: bool,
                newest: string): Walked
    requires k <= |items|
    decreases |items| - k
  {
    if k == |items| then Walked(s, complete, newest, false)
    else if f.cancelAt <= k then Walked(s, complete, newest, true)
    else
      match EventOf(v, items[k], f.id(k))
      case None => Walk(v, rt, sem, f, items, k + 1, s, false, newest)
      case Some(e) =>
        var (s', response) := IngestResult(rt, sem, f.world(k), s, e);
        if response == IngestError then Walk(v, rt, sem, f, items, k + 1, s', false, newest)
        else Walk(v, rt, sem, f, items, k + 1, s', complete, Later(newest, e.sourceId))
  }

  function PollResult(v: View, rt: Runtime, sem: Semantics, f: Faults, s: Tables, rows: Rows): (Tables, Rows,
                      Option<PollError>) {
    match f.fetched
    case FetchFails => (s, rows, Some(FetchError))
    case Fetched(items) =>
      var w := Walk(v, rt, sem, f, items, 0, s, true, "");
      if w.cancelled then (w.tables, rows, Some(Cancelled))
      else
        var advance := w.complete && f.cancelAt > |items| && w.newest != "";
        var rows' := if advance then Written(rows, v.src.name, w.newest, f.saved, f.landed) else rows;
        (w.tables, rows',
         if f.cancelAt <= |items| + 1 then Some(Cancelled)
         else if !w.complete || (advance && !f.saved) then Some(Incomplete)
         else None)
  }

  // ---- The poller as written ----

  class HttpPoller {
    const view: View
    const cursors: Cursors

    constructor (view: View, cursors: Cursors)
      ensures this.view == view && this.cursors == cursors
    {
      this.view, this.cursors := view, cursors;
    }

    method Normalize(fields: Fields, id: Id) returns (e: Option<Event>)
      ensures e == EventOf(view, Object(fields), id)
    {
      var subject := "";
      if view.src.subjectField != "" && view.src.subjectField in fields {
        subject := view.show(fields[view.src.subjectField]);
      }
      var cursor := "";
      if view.src.cursorField != "" {
        cursor := CursorValue(fields, view.src.cursorField);
        if cursor == "" {
          return None;
        }
      }
      return Some(Event(id, view.src.eventType, view.src.name, subject, fields, cursor, 0, None));
    }

    method Poll(engine: Engine, f: Faults) returns (err: Option<PollError>)
      modifies engine.db, cursors
      ensures (engine.db.Contents(), cursors.rows, err)
           == PollResult(view, engine.rt, engine.sem, f, old(engine.db.Contents()), old(cursors.rows))
    {
      if f.fetched.FetchFails? {
        return Some(FetchError);
      }
      var items := f.fetched.items;
      var complete, newest := true, "";
      ghost var whole := Walk(view, engine.rt, engine.sem, f, items, 0, engine.db.Contents(), true, "");
      for k := 0 to |items|
        invariant cursors.rows == old(cursors.rows)
        invariant Walk(view, engine.rt, engine.sem, f, items, k, engine.db.Contents(), complete, newest) == whole
      {
        if f.cancelAt <= k {
          return Some(Cancelled);
        }
        if !items[k].Object? {
          complete := false;
        } else {
          var e := Normalize(items[k].fields, f.id(k));
          if e.None? {
            complete := false;
          } else {
            var response := engine.Ingest(e.value, f.world(k));
            if response == IngestError {
              complete := false;
            } else {
              var c := CursorValue(items[k].fields, view.src.cursorField);
              if Less(newest, c) {
                newest := c;
              }
            }
          }
        }
      }
      if complete && f.cancelAt > |items| && newest != "" {
        var saved := cursors.Save(view.src.name, newest, f.saved, f.landed);
        if !saved {
          complete := false;
        }
      }
      if f.cancelAt <= |items| + 1 {
        return Some(Cancelled);
      }
      err := if complete then None else Some(Incomplete);
    }
  }
}
