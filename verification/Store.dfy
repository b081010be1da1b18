/** Durable state (internal/storage/storage.go): the event, decision, execution and revision tables
    with their key constraints, plus two logs of the outside world that no table records, the adapter
    dispatches and the model consultations. Every write may fail, with or without effect. */
module Store {
  import opened Domain
  import opened PolicyRules
  import opened Configuration

  datatype ExecutionStatus = Pending | Succeeded | Failed | Shadowed | Filtered

  /** Which policy line selected an execution; absent on rows written without judgment. */
  datatype Selection = Selection(rule: RuleRef, policy: Policy)

  datatype Execution = Execution(id: Id, event: Id, decision: Option<Id>, outcome: OutcomeName,
                                 adapter: Adapter, status: ExecutionStatus, chosenBy: Option<Selection>)

  /** One adapter invocation: the outside world may have seen it. */
  datatype Dispatch = Dispatch(event: Id, decision: Id, execution: Id, performed: Then)

  datatype Tables = Tables(events: map<Id, Event>, decisions: map<Id, Decision>,
                           executions: map<Id, Execution>, revisions: map<Id, string>,
                           dispatched: seq<Dispatch>, asked: seq<Id>)

  const EMPTY := Tables(map[], map[], map[], map[], [], [])

  /** What goes wrong with a write: nothing, the statement, or only its acknowledgement. */
  datatype WriteFault = NoFault | StatementFails | AckLost
  datatype InsertResult = Inserted | Duplicate | InsertFailed

  predicate Taken(s: Tables, k: Key) {
    exists id | id in s.events :: KeyOf(s.events[id]) == k
  }

  function InsertEvent(s: Tables, e: Event, fault: WriteFault): (Tables, InsertResult) {
    if fault == StatementFails then (s, InsertFailed)
    else if Taken(s, KeyOf(e)) then (s, if fault == AckLost then InsertFailed else Duplicate)
    else if e.id in s.events then (s, InsertFailed)
    else (s.(events := s.events[e.id := e]), if fault == AckLost then InsertFailed else Inserted)
  }

  /** The second component is whether the caller sees success. revision "" records nothing and cannot
      fail. */
  function RecordRevision(s: Tables, event: Id, revision: string, fault: WriteFault): (Tables, bool) {
    if revision == "" then (s, true)
    else if fault == StatementFails || event !in s.events || event in s.revisions then (s, false)
    else (s.(revisions := s.revisions[event := revision]), fault == NoFault)
  }

  function InsertDecision(s: Tables, d: Decision, fault: WriteFault): (Tables, bool) {
    if fault == StatementFails || d.id in s.decisions || d.event !in s.events then (s, false)
    else (s.(decisions := s.decisions[d.id := d]), fault == NoFault)
  }

  function BeginExecution(s: Tables, x: Execution, fault: WriteFault): (Tables, bool) {
    if fault == StatementFails || x.id in s.executions || x.event !in s.events
       || (x.decision.Some? && x.decision.value !in s.decisions) then (s, false)
    else (s.(executions := s.executions[x.id := x]), fault == NoFault)
  }

  function FinishExecution(s: Tables, id: Id, status: ExecutionStatus, fault: WriteFault): Tables {
    if fault == StatementFails || id !in s.executions then s
    else s.(executions := s.executions[id := s.executions[id].(status := status)])
  }

  function Ask(s: Tables, event: Id): Tables {
    s.(asked := s.asked + [event])
  }

  function LogDispatch(s: Tables, d: Dispatch): Tables {
    s.(dispatched := s.dispatched + [d])
  }

  /** The database handle. Each method is one transaction; fault decides whether it takes effect and
      whether the caller learns of it. */
  class Database {
    var events: map<Id, Event>
    var decisions: map<Id, Decision>
    var executions: map<Id, Execution>
    var revisions: map<Id, string>
    ghost var dispatched: seq<Dispatch>
    ghost var asked: seq<Id>

    ghost function Contents(): Tables
      reads this
    {
      Tables(events, decisions, executions, revisions, dispatched, asked)
    }

    constructor ()
      ensures Contents() == EMPTY
    {
      events, decisions, executions, revisions := map[], map[], map[], map[];
      dispatched, asked := [], [];
    }

    method Insert(e: Event, fault: WriteFault) returns (r: InsertResult)
      modifies this
      ensures (Contents(), r) == InsertEvent(old(Contents()), e, fault)
    {
      if fault == StatementFails {
        return InsertFailed;
      }
      if exists id | id in events :: KeyOf(events[id]) == KeyOf(e) {
        return if fault == AckLost then InsertFailed else Duplicate;
      }
      if e.id in events {
        return InsertFailed;
      }
      events := events[e.id := e];
      r := if fault == AckLost then InsertFailed else Inserted;
    }

    method AddRevision(event: Id, revision: string, fault: WriteFault) returns (done: bool)
      requires revision != ""
      modifies this
      ensures (Contents(), done) == RecordRevision(old(Contents()), event, revision, fault)
    {
      if fault == StatementFails || event !in events || event in revisions {
        return false;
      }
      revisions := revisions[event := revision];
      done := fault == NoFault;
    }

    method AddDecision(d: Decision, fault: WriteFault) returns (done: bool)
      modifies this
      ensures (Contents(), done) == InsertDecision(old(Contents()), d, fault)
    {
      if fault == StatementFails || d.id in decisions || d.event !in events {
        return false;
      }
      decisions := decisions[d.id := d];
      done := fault == NoFault;
    }

    method Begin(x: Execution, fault: WriteFault) returns (done: bool)
      modifies this
      ensures (Contents(), done) == BeginExecution(old(Contents()), x, fault)
    {
      if fault == StatementFails || x.id in executions || x.event !in events
         || (x.decision.Some? && x.decision.value !in decisions) {
        return false;
      }
      executions := executions[x.id := x];
      done := fault == NoFault;
    }

    method Finish(id: Id, status: ExecutionStatus, fault: WriteFault)
      modifies this
      ensures Contents() == FinishExecution(old(Contents()), id, status, fault)
    {
      if fault != StatementFails && id in executions {
        executions := executions[id := executions[id].(status := status)];
      }
    }

    ghost method NoteAsked(event: Id)
      modifies this
      ensures Contents() == Ask(old(Contents()), event)
    {
      asked := asked + [event];
    }

    ghost method NoteDispatch(d: Dispatch)
      modifies this
      ensures Contents() == LogDispatch(old(Contents()), d)
    {
      dispatched := dispatched + [d];
    }
  }
}
