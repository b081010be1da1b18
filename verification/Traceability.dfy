/** No event is judged before the configuration revision it was ingested under is on record
    (internal/runtime/runtime.go:136-140). */
module Traceability {
  import opened Domain
  import opened PolicyRules
  import opened Configuration
  import opened Store
  import opened Pipeline
  import opened Steps
  import opened Runs
  import opened Confinement

  /** The event's revision row names the revision of the runtime that ingested it; an unmanaged runtime
      has none to record. */
  ghost predicate OnRecord(s: Tables, hist: History, id: Id) {
    id in hist && (hist[id].revision == "" || (id in s.revisions && s.revisions[id] == hist[id].revision))
  }

  ghost predicate TaskTraced(s: Tables, hist: History, task: Task) {
    Owns(task.pc) && !task.pc.Stored? ==> OnRecord(s, hist, task.event.id)
  }

  ghost predicate Traced(sys: Sys) {
    && (forall i {:trigger TaskTraced(sys.store, sys.ingestedBy, sys.tasks[i])} | 0 <= i < |sys.tasks| ::
          TaskTraced(sys.store, sys.ingestedBy, sys.tasks[i]))
    && (forall d {:trigger sys.store.decisions[d]} | d in sys.store.decisions ::
          OnRecord(sys.store, sys.ingestedBy, sys.store.decisions[d].event))
  }

  /** Revision rows stay; a new decision is the stepping ingest's own, made once it was past recording. */
  ghost predicate Records(sys: Sys, sys': Sys, i: nat) {
    && i < |sys.tasks| <= |sys'.tasks|
    && (forall r | r in sys.store.revisions ::
      r in sys'.store.revisions && sys'.store.revisions[r] == sys.store.revisions[r])
    && (forall d | d in sys'.store.decisions ::
          || (d in sys.store.decisions && sys'.store.decisions[d] == sys.store.decisions[d])
          || (sys.tasks[i].pc.Answering? && sys'.store.decisions[d] == sys.tasks[i].pc.decision))
    && (forall j | |sys.tasks| <= j < |sys'.tasks| :: sys'.tasks[j].pc.Receive?)
  }

  /** Only recording the revision leads out of Stored, and only the insert leads into it. */
  ghost predicate MovesInOrder(sys: Sys, sys': Sys, i: nat) {
    && i < |sys.tasks| && i < |sys'.tasks|
    && var (task, pc') := (sys.tasks[i], sys'.tasks[i].pc);
    && (task.pc.Receive? ==> !Owns(pc') || pc'.Stored?)
    && (task.pc.Stored? && Owns(pc') ==>
          pc'.Stored? || task.rt.revision == ""
          || (task.event.id in sys'.store.revisions && sys'.store.revisions[task.event.id] == task.rt.revision))
    && (task.pc.Finished? ==> pc'.Finished?)
  }

  lemma ReceiveRecords(sem: Semantics, sys: Sys, i: nat, c: Choice)
    requires i < |sys.tasks| && sys.tasks[i].pc.Receive?
    ensures Records(sys, RunTask(sem, sys, i, c), i) && MovesInOrder(sys, RunTask(sem, sys, i, c), i)
  {
    Received(sem, sys, i, c);
  }

  lemma StoredRecords(sem: Semantics, sys: Sys, i: nat, c: Choice)
    requires i < |sys.tasks| && sys.tasks[i].pc.Stored?
    ensures Records(sys, RunTask(sem, sys, i, c), i) && MovesInOrder(sys, RunTask(sem, sys, i, c), i)
  {
  }

  lemma RecordedRecords(sem: Semantics, sys: Sys, i: nat, c: Choice)
    requires i < |sys.tasks| && sys.tasks[i].pc.Recorded?
    ensures Records(sys, RunTask(sem, sys, i, c), i)
  {
  }

  lemma AnsweringRecords(sem: Semantics, sys: Sys, i: nat, c: Choice)
    requires i < |sys.tasks| && sys.tasks[i].pc.Answering?
    ensures Records(sys, RunTask(sem, sys, i, c), i)
  {
  }

  lemma LaterRecords(sem: Semantics, sys: Sys, i: nat, c: Choice)
    requires i < |sys.tasks| && var pc := sys.tasks[i].pc; pc.Ready? || pc.Waiting? || pc.Finishing? || pc.Finished?
    ensures Records(sys, RunTask(sem, sys, i, c), i) && MovesInOrder(sys, RunTask(sem, sys, i, c), i)
  {
  }

  lemma DecidedRecords(sem: Semantics, sys: Sys, i: nat, c: Choice)
    requires i < |sys.tasks| && sys.tasks[i].pc.Decided?
    ensures Records(sys, RunTask(sem, sys, i, c), i)
  {
  }

  lemma PerformingRecords(sem: Semantics, sys: Sys, i: nat, c: Choice)
    requires i < |sys.tasks| && sys.tasks[i].pc.Performing?
    ensures Records(sys, RunTask(sem, sys, i, c), i)
  {
    var (task, pc) := (sys.tasks[i], sys.tasks[i].pc);
    if pc.execution.decision.Some? && pc.execution.chosenBy.Some? {
      var p := Perform(task.rt, c, sys.store, task.event, pc.decision, pc.then_, pc.execution);
      PerformWrites(task.rt, c, sys.store, task.event, pc.decision, pc.then_, pc.execution);
      if p.Settled? {
        EffectSettled(sem, sys, i, c, p);
      } else {
        Spawned(sem, sys, i, c, p, Waiting(pc.decision, pc.then_, pc.execution, |sys.tasks|));
      }
    }
  }

  lemma RunRecords(sem: Semantics, sys: Sys, i: nat, c: Choice)
    requires i < |sys.tasks|
    ensures Records(sys, RunTask(sem, sys, i, c), i) && MovesInOrder(sys, RunTask(sem, sys, i, c), i)
  {
    match sys.tasks[i].pc {
      case Receive => ReceiveRecords(sem, sys, i, c);
      case Stored => StoredRecords(sem, sys, i, c);
      case Recorded => RecordedRecords(sem, sys, i, c);
      case Answering(_) => AnsweringRecords(sem, sys, i, c);
      case Decided(_) => DecidedRecords(sem, sys, i, c);
      case Performing(_, _, _) => PerformingRecords(sem, sys, i, c);
      case _ => LaterRecords(sem, sys, i, c);
    }
  }

  lemma OnRecordStays(s: Tables, hist: History, s': Tables, hist': History, id: Id)
    requires OnRecord(s, hist, id) && Extends(hist, hist')
    requires forall r | r in s.revisions :: r in s'.revisions && s'.revisions[r] == s.revisions[r]
    ensures OnRecord(s', hist', id)
  {
  }

  lemma HistoryStays(sys: Sys, sys': Sys, i: nat)
    requires Framed(sys, sys', i) && sys.ingestedBy.Keys == sys.store.events.Keys
    ensures Extends(sys.ingestedBy, sys'.ingestedBy)
  {
  }

  lemma StepperTraced(sem: Semantics, sys: Sys, sys': Sys, i: nat)
    requires SysOk(sys, sem) && Traced(sys) && Framed(sys, sys', i) && Records(sys, sys', i) && MovesInOrder(sys, sys', i)
    requires Extends(sys.ingestedBy, sys'.ingestedBy)
    ensures TaskTraced(sys'.store, sys'.ingestedBy, sys'.tasks[i])
  {
    var task := sys.tasks[i];
    assert TaskOk(sys.store, sys.ingestedBy, task, sem) && TaskTraced(sys.store, sys.ingestedBy, task);
    if Owns(task.pc) && !task.pc.Stored? {
      OnRecordStays(sys.store, sys.ingestedBy, sys'.store, sys'.ingestedBy, task.event.id);
    }
  }

  lemma DecisionsTraced(sem: Semantics, sys: Sys, sys': Sys, i: nat)
    requires SysOk(sys, sem) && Traced(sys) && Records(sys, sys', i) && Extends(sys.ingestedBy, sys'.ingestedBy)
    ensures forall d | d in sys'.store.decisions :: OnRecord(sys'.store, sys'.ingestedBy, sys'.store.decisions[d].event)
  {
    forall d | d in sys'.store.decisions ensures OnRecord(sys'.store, sys'.ingestedBy, sys'.store.decisions[d].event) {
      var task := sys.tasks[i];
      assert TaskOk(sys.store, sys.ingestedBy, task, sem) && TaskTraced(sys.store, sys.ingestedBy, task);
      assert d in sys.store.decisions ==> OnRecord(sys.store, sys.ingestedBy, sys.store.decisions[d].event);
      OnRecordStays(sys.store, sys.ingestedBy, sys'.store, sys'.ingestedBy, sys'.store.decisions[d].event);
    }
  }

  lemma RunStaysTraced(sem: Semantics, sys: Sys, i: nat, c: Choice)
    requires SysOk(sys, sem) && Traced(sys) && i < |sys.tasks|
    ensures Traced(RunTask(sem, sys, i, c))
  {
    var sys' := RunTask(sem, sys, i, c);
    RunIsFramed(sem, sys, i, c);
    RunRecords(sem, sys, i, c);
    HistoryStays(sys, sys', i);
    DecisionsTraced(sem, sys, sys', i);
    forall j | 0 <= j < |sys'.tasks| ensures TaskTraced(sys'.store, sys'.ingestedBy, sys'.tasks[j]) {
      if j == i {
        StepperTraced(sem, sys, sys', i);
      } else if j < |sys.tasks| {
        var task := sys.tasks[j];
        assert TaskTraced(sys.store, sys.ingestedBy, task);
        if Owns(task.pc) && !task.pc.Stored? {
          OnRecordStays(sys.store, sys.ingestedBy, sys'.store, sys'.ingestedBy, task.event.id);
        }
      }
    }
  }

  lemma StepStaysTraced(sem: Semantics, sys: Sys, a: Step)
    requires SysOk(sys, sem) && Traced(sys)
    ensures Traced(Apply(sem, sys, a))
  {
    var sys' := Apply(sem, sys, a);
    if a.Run? && a.task < |sys.tasks| {
      RunStaysTraced(sem, sys, a.task, a.choice);
    } else {
      forall j | 0 <= j < |sys'.tasks| ensures TaskTraced(sys'.store, sys'.ingestedBy, sys'.tasks[j]) {
        if j < |sys.tasks| {
          assert TaskTraced(sys.store, sys.ingestedBy, sys.tasks[j]);
        }
      }
    }
  }

  lemma {:induction false} RunsStayTraced(sem: Semantics, sys: Sys, schedule: seq<Step>)
    requires SysOk(sys, sem) && Traced(sys)
    ensures Traced(Execute(sem, sys, schedule))
    decreases |schedule|
  {
    if schedule != [] {
      ApplyKeeps(sem, sys, schedule[0]);
      StepStaysTraced(sem, sys, schedule[0]);
      RunsStayTraced(sem, Apply(sem, sys, schedule[0]), schedule[1..]);
    }
  }

  /** In every run every decision's event has on record the revision of the runtime that ingested it. */
  lemma JudgedEventsAreTraced(sem: Semantics, schedule: seq<Step>, d: Id)
    requires d in Execute(sem, START, schedule).store.decisions
    ensures var sys := Execute(sem, START, schedule);
      OnRecord(sys.store, sys.ingestedBy, sys.store.decisions[d].event)
  {
    StartIsSafe(sem);
    RunsStayTraced(sem, START, schedule);
  }
}
