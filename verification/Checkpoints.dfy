/** The source_cursors table (internal/storage/storage.go): one durable position for each source name.
    Reading a name without a row gives "". */
module Checkpoints {
  type Rows = map<string, string>

  function Position(rows: Rows, name: string): string {
    if name in rows then rows[name] else ""
  }

  /** A write that reports failure may have landed. */
  function Written(rows: Rows, name: string, cursor: string, ok: bool, landed: bool): Rows {
    if ok || landed then rows[name := cursor] else rows
  }

  class Cursors {
    var rows: Rows

    constructor ()
      ensures rows == map[]
    {
      rows := map[];
    }

    method Save(name: string, cursor: string, ok: bool, landed: bool) returns (done: bool)
      modifies this
      ensures rows == Written(old(rows), name, cursor, ok, landed)
      ensures done == ok
    {
      if ok || landed {
        rows := rows[name := cursor];
      }
      done := ok;
    }
  }
}
