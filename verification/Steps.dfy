/** The pipeline one statement at a time: any number of ingests in flight, under any revisions,
    interleaved at every durable write and external action, with crashes between any two of them and
    an operator who may close the effect gate at any moment. */
module Steps {
  import opened Domain
  import opened PolicyRules
  import opened Configuration
  import opened Store
  import opened Pipeline
  import opened Invariants

  /** Where an ingest stands; each constructor is a point at which the process can die. */
  datatype Pc =
    | Receive
    | Stored
    | Recorded
    | Answering(decision: Decision)
    | Decided(decision: Decision)
    | Ready(decision: Decision, then_: Then, execution: Execution)
    | Performing(decision: Decision, then_: Then, execution: Execution)
    | Waiting(decision: Decision, then_: Then, execution: Execution, child: nat)
    | Finishing(decision: Decision, then_: Then, execution: Execution, status: ExecutionStatus)
    | Finished(response: Response)

  datatype Task = Task(rt: Runtime, event: Event, pc: Pc)

  /** blocked is the in-memory gate, gate its durable copy. ingestedBy and passed are history: the
      runtime that stored each event, and the executions whose gate check let a live outcome through. */
  datatype Sys = Sys(store: Tables, tasks: seq<Task>, blocked: bool, gate: bool,
                     ingestedBy: map<Id, Runtime>, passed: seq<Id>)

  datatype Step = Submit(rt: Runtime, event: Event)
                | Run(task: nat, choice: Choice)
                | CloseGate
                | PersistGate
                | Crash

  function At(sys: Sys, i: nat, pc: Pc): seq<Task>
    requires i < |sys.tasks|
  {
    sys.tasks[i := sys.tasks[i].(pc := pc)]
  }

  function Moved(sys: Sys, i: nat, s: Tables, pc: Pc): Sys
    requires i < |sys.tasks|
  {
    sys.(store := s, tasks := At(sys, i, pc))
  }

  function Joined(sys: Sys, task: Task): Sys {
    sys.(tasks := sys.tasks + [task])
  }

  function AfterInsert(r: InsertResult): Pc {
    match r
    case Inserted => Stored
    case Duplicate => Finished(Duplicated)
    case InsertFailed => Finished(IngestError)
  }

  function AfterAnswer(dec: Decision, ok: bool): Pc {
    if ok then Decided(dec) else Finished(IngestError)
  }

  function AfterIntent(dec: Decision, t: Then, x: Execution, ok: bool): Pc {
    if ok then Ready(dec, t, x) else Finished(Answered(Some(dec), Outcome(t)))
  }

  function RunTask(sem: Semantics, sys: Sys, i: nat, c: Choice): Sys
    requires i < |sys.tasks|
  {
    var task, s := sys.tasks[i], sys.store;
    var e := task.event;
    match task.pc
    case Receive =>
      var (s', r) := InsertEvent(s, e, c.insert);
      var next := Moved(sys, i, s', AfterInsert(r));
      if e.id in s'.events && e.id !in s.events
      then next.(ingestedBy := sys.ingestedBy[e.id := task.rt])
      else next
    case Stored =>
      var (s', ok) := RecordRevision(s, e.id, task.rt.revision, c.revisionWrite);
      Moved(sys, i, s', if ok then Recorded else Finished(IngestError))
    case Recorded =>
      (match Refusal(e, sem)
       case Some(status) =>
         Moved(sys, i, BeginExecution(s, RefusalFor(e, c.executionId, status), c.intentWrite).0,
               Finished(Answered(None, Ignores)))
       case None => Moved(sys, i, Ask(s, e.id), Answering(DecisionOf(e, SelectRoute(task.rt, e), c))))
    case Answering(dec) =>
      var (s', ok) := InsertDecision(s, dec, c.decisionWrite);
      Moved(sys, i, s', AfterAnswer(dec, ok))
    case Decided(dec) =>
      var policy := SelectRoute(task.rt, e).policy;
      var (t, rule) := Select(policy, dec, e, sem);
      var x := IntentFor(e, dec, t, rule, policy, c.executionId);
      var (s', ok) := BeginExecution(s, x, c.intentWrite);
      Moved(sys, i, s', AfterIntent(dec, t, x, ok))
    case Ready(dec, t, x) =>
      if Suppressed(t, sys.blocked) then Moved(sys, i, s, Finishing(dec, t, x, Shadowed))
      else Moved(sys, i, s, Performing(dec, t, x)).(passed := sys.passed + if Outcome(t) == Ignores then [] else [x.id])
    case Performing(dec, t, x) =>
      if x.decision.None? || x.chosenBy.None? then sys
      else
        (match Perform(task.rt, c, s, e, dec, t, x)
         case Settled(s', ok) => Moved(sys, i, s', Finishing(dec, t, x, Closing(ok)))
         case Spawns(s', child) =>
           Joined(Moved(sys, i, s', Waiting(dec, t, x, |sys.tasks|)), Task(task.rt, child, Receive)))
    case Waiting(dec, t, x, k) =>
      if k < |sys.tasks| && sys.tasks[k].pc.Finished?
      then Moved(sys, i, s, Finishing(dec, t, x, Closing(sys.tasks[k].pc.response != IngestError)))
      else sys
    case Finishing(dec, t, x, status) =>
      Moved(sys, i, FinishExecution(s, x.id, status, c.finishWrite), Finished(Answered(Some(dec), Outcome(t))))
    case Finished(_) => sys
  }

  /** A crash loses every ingest in flight; the restarted process reads the durable gate. */
  function Apply(sem: Semantics, sys: Sys, a: Step): Sys {
    match a
    case Submit(rt, e) =>
      if e.depth == 0 && e.provenance.None? then Joined(sys, Task(rt, e, Receive)) else sys
    case Run(i, c) => if i < |sys.tasks| then RunTask(sem, sys, i, c) else sys
    case CloseGate => sys.(blocked := true)
    case PersistGate => if sys.blocked then sys.(gate := true) else sys
    case Crash => sys.(tasks := [], blocked := sys.gate)
  }

  function Execute(sem: Semantics, sys: Sys, schedule: seq<Step>): Sys
    decreases |schedule|
  {
    if schedule == [] then sys else Execute(sem, Apply(sem, sys, schedule[0]), schedule[1..])
  }

  const START := Sys(EMPTY, [], false, false, map[], [])

  // ---- The invariant ----

  ghost predicate Owns(pc: Pc) { !pc.Receive? && !pc.Finished? }

  /** The execution an owner is carrying out, exactly as its durable intent says. */
  ghost predicate Carries(s: Tables, task: Task, dec: Decision, t: Then, x: Execution, sem: Semantics) {
    var e, policy := task.event, SelectRoute(task.rt, task.event).policy;
    && e.depth <= MAX_DEPTH
    && dec.event == e.id && dec.id in s.decisions && s.decisions[dec.id] == dec
    && x.id in s.executions && s.executions[x.id] == x
    && (t, Select(policy, dec, e, sem).1) == Select(policy, dec, e, sem)
    && x == IntentFor(e, dec, t, Select(policy, dec, e, sem).1, policy, x.id)
  }

  ghost predicate PcOk(s: Tables, task: Task, sem: Semantics) {
    var e := task.event;
    match task.pc
    case Receive => WellBorn(s, e)
    case Stored => Untouched(s, e.id) && e.id !in s.revisions
    case Recorded => Untouched(s, e.id)
    case Answering(dec) =>
      NoDecision(s, e.id) && NoExecution(s, e.id) && NoDispatch(s, e.id) && dec.event == e.id && e.depth <= MAX_DEPTH
    case Decided(dec) =>
      && NoExecution(s, e.id) && NoDispatch(s, e.id) && e.depth <= MAX_DEPTH
      && dec.event == e.id && dec.id in s.decisions && s.decisions[dec.id] == dec
    case Ready(dec, t, x) => Carries(s, task, dec, t, x, sem) && NoDispatch(s, e.id)
    case Performing(dec, t, x) => Carries(s, task, dec, t, x, sem) && NoDispatch(s, e.id) && !t.shadow
    case Waiting(dec, t, x, _) => Carries(s, task, dec, t, x, sem)
    case Finishing(dec, t, x, status) =>
      && Carries(s, task, dec, t, x, sem)
      && status != Filtered && status != Pending && (status == Shadowed ==> NoDispatch(s, e.id))
    case Finished(_) => true
  }

  type History = map<Id, Runtime>

  ghost predicate TaskOk(s: Tables, hist: History, task: Task, sem: Semantics) {
    && (Owns(task.pc) ==>
          && task.event.id in s.events && s.events[task.event.id] == task.event
          && task.event.id in hist && hist[task.event.id] == task.rt)
    && PcOk(s, task, sem)
  }

  ghost predicate Separate(tasks: seq<Task>) {
    forall i, j | 0 <= i < j < |tasks| && Owns(tasks[i].pc) && Owns(tasks[j].pc) ::
      tasks[i].event.id != tasks[j].event.id
  }

  /** Every stored event is attributed, its revision row is the ingesting runtime's, and every judged
      row was selected by the policy that runtime routes the event to. */
  ghost predicate Attributed(s: Tables, hist: History) {
    && hist.Keys == s.events.Keys
    && (forall r | r in s.revisions :: r in hist && s.revisions[r] == hist[r].revision)
    && (forall x {:trigger AttributedRow(s, hist, s.executions[x])} | x in s.executions ::
          AttributedRow(s, hist, s.executions[x]))
  }

  ghost predicate AttributedRow(s: Tables, hist: History, x: Execution) {
    x.chosenBy.Some? ==>
      && x.event in hist && x.event in s.events
      && x.chosenBy.value.policy == SelectRoute(hist[x.event], s.events[x.event]).policy
  }

  ghost predicate TasksOk(s: Tables, hist: History, tasks: seq<Task>, sem: Semantics) {
    forall i {:trigger TaskOk(s, hist, tasks[i], sem)} | 0 <= i < |tasks| :: TaskOk(s, hist, tasks[i], sem)
  }

  ghost predicate SysOk(sys: Sys, sem: Semantics) {
    && StoreOk(sys.store, sem)
    && Attributed(sys.store, sys.ingestedBy)
    && Separate(sys.tasks)
    && TasksOk(sys.store, sys.ingestedBy, sys.tasks, sem)
  }

  // ---- Other ingests are undisturbed by one ingest's writes ----

  lemma OtherKeeps(s: Tables, hist: History, s': Tables, hist': History, id: Id, task: Task, sem: Semantics)
    requires TaskOk(s, hist, task, sem) && Touches(s, s', id)
    requires forall k | k in hist :: k in hist' && hist'[k] == hist[k]
    requires Owns(task.pc) ==> task.event.id != id
    ensures TaskOk(s', hist', task, sem)
  {
    if task.pc.Receive? {
      WellBornGrows(s, s', task.event);
    } else if Owns(task.pc) {
      TouchesKeepsAbsence(s, s', id, task.event.id);
    }
  }

  ghost predicate Extends(hist: History, hist': History) {
    forall k | k in hist :: k in hist' && hist'[k] == hist[k]
  }

  /** It is enough to establish the stepping task's own new state. */
  lemma TaskKept(s: Tables, hist: History, tasks: seq<Task>, s': Tables, hist': History, i: nat, j: nat, sem: Semantics)
    requires i < |tasks| && j < |tasks| && j != i && TasksOk(s, hist, tasks, sem) && Separate(tasks)
    requires Touches(s, s', tasks[i].event.id) && Extends(hist, hist')
    requires Owns(tasks[i].pc) || tasks[i].event.id !in s.events || s' == s
    ensures TaskOk(s', hist', tasks[j], sem)
  {
    assert TaskOk(s, hist, tasks[j], sem);
    if Owns(tasks[j].pc) && tasks[j].event.id == tasks[i].event.id {
      assert s' == s;
    } else {
      OtherKeeps(s, hist, s', hist', tasks[i].event.id, tasks[j], sem);
    }
  }

  lemma TasksKept(s: Tables, hist: History, tasks: seq<Task>, s': Tables, hist': History, i: nat, pc: Pc,
                  sem: Semantics)
    requires i < |tasks| && TasksOk(s, hist, tasks, sem) && Separate(tasks)
    requires Touches(s, s', tasks[i].event.id) && Extends(hist, hist')
    requires TaskOk(s', hist', tasks[i].(pc := pc), sem)
    requires Owns(tasks[i].pc) || tasks[i].event.id !in s.events || s' == s
    ensures TasksOk(s', hist', tasks[i := tasks[i].(pc := pc)], sem)
  {
    var tasks' := tasks[i := tasks[i].(pc := pc)];
    forall j | 0 <= j < |tasks'| ensures TaskOk(s', hist', tasks'[j], sem) {
      if j != i {
        TaskKept(s, hist, tasks, s', hist', i, j, sem);
      }
    }
  }

  lemma SeparateKept(s: Tables, hist: History, tasks: seq<Task>, i: nat, pc: Pc, sem: Semantics)
    requires i < |tasks| && TasksOk(s, hist, tasks, sem) && Separate(tasks)
    requires Owns(pc) ==> Owns(tasks[i].pc) || tasks[i].event.id !in s.events
    ensures Separate(tasks[i := tasks[i].(pc := pc)])
  {
    var tasks' := tasks[i := tasks[i].(pc := pc)];
    forall j, k | 0 <= j < k < |tasks'| && Owns(tasks'[j].pc) && Owns(tasks'[k].pc)
      ensures tasks'[j].event.id != tasks'[k].event.id
    {
      assert TaskOk(s, hist, tasks[j], sem) && TaskOk(s, hist, tasks[k], sem);
    }
  }

  lemma StepKeeps(sys: Sys, s': Tables, hist': History, i: nat, pc: Pc, sem: Semantics)
    requires SysOk(sys, sem) && i < |sys.tasks|
    requires StoreOk(s', sem) && Attributed(s', hist') && Extends(sys.ingestedBy, hist')
    requires var task := sys.tasks[i];
      && Touches(sys.store, s', task.event.id) && TaskOk(s', hist', task.(pc := pc), sem)
      && (Owns(pc) ==> Owns(task.pc) || task.event.id !in sys.store.events)
      && (Owns(task.pc) || task.event.id !in sys.store.events || s' == sys.store)
    ensures SysOk(Moved(sys, i, s', pc).(ingestedBy := hist'), sem)
  {
    TasksKept(sys.store, sys.ingestedBy, sys.tasks, s', hist', i, pc, sem);
    SeparateKept(sys.store, sys.ingestedBy, sys.tasks, i, pc, sem);
  }

  lemma AttributedGrows(s: Tables, s': Tables, hist: History)
    requires Attributed(s, hist) && Grows(s, s') && s'.events == s.events
    requires forall r | r in s'.revisions && r !in s.revisions :: r in hist && s'.revisions[r] == hist[r].revision
    requires forall x | x in s'.executions && x !in s.executions :: AttributedRow(s, hist, s'.executions[x])
    ensures Attributed(s', hist)
  {
    forall x | x in s'.executions ensures AttributedRow(s', hist, s'.executions[x]) {
      if x in s.executions {
        assert AttributedRow(s, hist, s.executions[x]) && SameRow(s.executions[x], s'.executions[x]);
      }
    }
  }

  // ---- Each statement keeps the invariant ----

  lemma ReceiveAttributes(s: Tables, s': Tables, hist: History, e: Event, rt: Runtime)
    requires Attributed(s, hist) && e.id !in s.events && s' == s.(events := s.events[e.id := e])
    ensures Attributed(s', hist[e.id := rt]) && Extends(hist, hist[e.id := rt])
  {
    forall x | x in s'.executions ensures AttributedRow(s', hist[e.id := rt], s'.executions[x]) {
      assert AttributedRow(s, hist, s.executions[x]);
    }
  }

  /** A stored event's revision row is written by the ingest that stored it. */
  lemma NoEarlyRevision(s: Tables, hist: History, id: Id)
    requires Attributed(s, hist) && id !in s.events
    ensures id !in s.revisions
  {
  }

  lemma InsertedIsUntouched(s: Tables, e: Event, fault: WriteFault, sem: Semantics)
    requires StoreOk(s, sem) && WellBorn(s, e)
    ensures var (s', r) := InsertEvent(s, e, fault);
      r == Inserted ==>
        e.id !in s.events && e.id in s'.events && s'.events[e.id] == e && Untouched(s', e.id) && s'.revisions == s.revisions
  {
    InsertKeeps(s, e, fault, sem);
  }

  lemma ReceivingOk(s: Tables, hist: History, task: Task, fault: WriteFault, sem: Semantics)
    requires StoreOk(s, sem) && Attributed(s, hist) && TaskOk(s, hist, task, sem) && task.pc.Receive?
    ensures var (s', r) := InsertEvent(s, task.event, fault);
      r == Inserted ==> TaskOk(s', hist[task.event.id := task.rt], task.(pc := Stored), sem)
  {
    InsertedIsUntouched(s, task.event, fault, sem);
    if InsertEvent(s, task.event, fault).1 == Inserted {
      NoEarlyRevision(s, hist, task.event.id);
    }
  }

  /** What the insert comes to: nothing stored, a clean insert, or one whose acknowledgement was lost. */
  lemma Received(sem: Semantics, sys: Sys, i: nat, c: Choice)
    requires i < |sys.tasks| && sys.tasks[i].pc.Receive?
    ensures var e := sys.tasks[i].event;
      var (s', r) := InsertEvent(sys.store, e, c.insert);
      var moved := Moved(sys, i, s', AfterInsert(r));
      if s' == sys.store then RunTask(sem, sys, i, c) == moved && r != Inserted
      else
        && e.id !in sys.store.events && s' == sys.store.(events := sys.store.events[e.id := e]) && r != Duplicate
        && RunTask(sem, sys, i, c) == moved.(ingestedBy := sys.ingestedBy[e.id := sys.tasks[i].rt])
  {
  }

  lemma KeepInserted(sys: Sys, i: nat, s': Tables, hist': History, next: Pc, sem: Semantics)
    requires SysOk(sys, sem) && i < |sys.tasks| && sys.tasks[i].event.id !in sys.store.events
    requires s' == sys.store.(events := sys.store.events[sys.tasks[i].event.id := sys.tasks[i].event])
    requires hist' == sys.ingestedBy[sys.tasks[i].event.id := sys.tasks[i].rt]
    requires StoreOk(s', sem) && Touches(sys.store, s', sys.tasks[i].event.id)
    requires TaskOk(s', hist', sys.tasks[i].(pc := next), sem)
    ensures SysOk(Moved(sys, i, s', next).(ingestedBy := hist'), sem)
  {
    ReceiveAttributes(sys.store, s', sys.ingestedBy, sys.tasks[i].event, sys.tasks[i].rt);
    StepKeeps(sys, s', hist', i, next, sem);
  }

  lemma KeepReceive(sem: Semantics, sys: Sys, i: nat, c: Choice)
    requires SysOk(sys, sem) && i < |sys.tasks| && sys.tasks[i].pc.Receive?
    ensures SysOk(RunTask(sem, sys, i, c), sem)
  {
    var task, s, e := sys.tasks[i], sys.store, sys.tasks[i].event;
    assert TaskOk(s, sys.ingestedBy, task, sem);
    Received(sem, sys, i, c);
    ReceivingOk(s, sys.ingestedBy, task, c.insert, sem);
    var next := AfterInsert(InsertEvent(s, e, c.insert).1);
    if InsertEvent(s, e, c.insert).0 == s {
      KeepQuiet(sys, i, next, sem);
    } else {
      InsertKeeps(s, e, c.insert, sem);
      KeepInserted(sys, i, InsertEvent(s, e, c.insert).0, sys.ingestedBy[e.id := task.rt], next, sem);
    }
  }

  /** A step that writes rows of its own event and moves on. */
  lemma KeepWrite(sys: Sys, i: nat, s': Tables, next: Pc, sem: Semantics)
    requires SysOk(sys, sem) && i < |sys.tasks| && Owns(sys.tasks[i].pc)
    requires StoreOk(s', sem) && Touches(sys.store, s', sys.tasks[i].event.id) && s'.events == sys.store.events
    requires forall r | r in s'.revisions && r !in sys.store.revisions ::
      r in sys.ingestedBy && s'.revisions[r] == sys.ingestedBy[r].revision
    requires forall x | x in s'.executions && x !in sys.store.executions ::
      AttributedRow(sys.store, sys.ingestedBy, s'.executions[x])
    requires TaskOk(s', sys.ingestedBy, sys.tasks[i].(pc := next), sem)
    ensures SysOk(Moved(sys, i, s', next), sem)
  {
    AttributedGrows(sys.store, s', sys.ingestedBy);
    StepKeeps(sys, s', sys.ingestedBy, i, next, sem);
  }

  lemma RevisionWritten(sem: Semantics, sys: Sys, i: nat, c: Choice)
    requires i < |sys.tasks| && sys.tasks[i].pc.Stored?
    ensures var (s', ok) := RecordRevision(sys.store, sys.tasks[i].event.id, sys.tasks[i].rt.revision, c.revisionWrite);
      RunTask(sem, sys, i, c) == Moved(sys, i, s', if ok then Recorded else Finished(IngestError))
  {
  }

  lemma RevisionOk(s: Tables, hist: History, task: Task, fault: WriteFault, sem: Semantics)
    requires Attributed(s, hist) && TaskOk(s, hist, task, sem) && task.pc.Stored?
    ensures var (s', done) := RecordRevision(s, task.event.id, task.rt.revision, fault);
      && (forall r | r in s'.revisions && r !in s.revisions :: r in hist && s'.revisions[r] == hist[r].revision)
      && s'.events == s.events && s'.executions == s.executions
      && TaskOk(s', hist, task.(pc := if done then Recorded else Finished(IngestError)), sem)
  {
  }

  lemma KeepStored(sem: Semantics, sys: Sys, i: nat, c: Choice)
    requires SysOk(sys, sem) && i < |sys.tasks| && sys.tasks[i].pc.Stored?
    ensures SysOk(RunTask(sem, sys, i, c), sem)
  {
    var task := sys.tasks[i];
    assert TaskOk(sys.store, sys.ingestedBy, task, sem);
    var (s', done) := RecordRevision(sys.store, task.event.id, task.rt.revision, c.revisionWrite);
    RevisionWritten(sem, sys, i, c);
    RevisionKeeps(sys.store, task.event.id, task.rt.revision, c.revisionWrite, sem);
    RevisionOk(sys.store, sys.ingestedBy, task, c.revisionWrite, sem);
    KeepWrite(sys, i, s', if done then Recorded else Finished(IngestError), sem);
  }

  lemma Refused(sem: Semantics, sys: Sys, i: nat, c: Choice, x: Execution)
    requires i < |sys.tasks| && sys.tasks[i].pc.Recorded? && Refusal(sys.tasks[i].event, sem).Some?
    requires x == RefusalFor(sys.tasks[i].event, c.executionId, Refusal(sys.tasks[i].event, sem).value)
    ensures RunTask(sem, sys, i, c)
         == Moved(sys, i, BeginExecution(sys.store, x, c.intentWrite).0, Finished(Answered(None, Ignores)))
  {
  }

  /** An intent row changes nothing but the executions, which it extends by itself. */
  lemma BeginFrame(s: Tables, x: Execution, fault: WriteFault)
    ensures var s' := BeginExecution(s, x, fault).0;
      && s'.events == s.events && s'.revisions == s.revisions
      && forall y | y in s'.executions && y !in s.executions :: s'.executions[y] == x
  {
  }

  lemma KeepBegin(sys: Sys, i: nat, x: Execution, fault: WriteFault, next: Pc, sem: Semantics)
    requires SysOk(sys, sem) && i < |sys.tasks| && Owns(sys.tasks[i].pc) && x.event == sys.tasks[i].event.id
    requires NoExecution(sys.store, x.event) && RowOk(sys.store, x, sem) && AttributedRow(sys.store, sys.ingestedBy, x)
    requires TaskOk(BeginExecution(sys.store, x, fault).0, sys.ingestedBy, sys.tasks[i].(pc := next), sem)
    ensures SysOk(Moved(sys, i, BeginExecution(sys.store, x, fault).0, next), sem)
  {
    BeginKeeps(sys.store, x, fault, sem);
    BeginFrame(sys.store, x, fault);
    KeepWrite(sys, i, BeginExecution(sys.store, x, fault).0, next, sem);
  }

  lemma RefusalRowOk(s: Tables, hist: History, task: Task, x: Execution, id: Id, sem: Semantics)
    requires TaskOk(s, hist, task, sem) && task.pc.Recorded? && Refusal(task.event, sem).Some?
    requires x == RefusalFor(task.event, id, Refusal(task.event, sem).value)
    ensures RowOk(s, x, sem) && AttributedRow(s, hist, x) && x.event == task.event.id && NoExecution(s, x.event)
  {
  }

  lemma KeepRefused(sem: Semantics, sys: Sys, i: nat, c: Choice)
    requires SysOk(sys, sem) && i < |sys.tasks| && sys.tasks[i].pc.Recorded?
    requires Refusal(sys.tasks[i].event, sem).Some?
    ensures SysOk(RunTask(sem, sys, i, c), sem)
  {
    var task := sys.tasks[i];
    assert TaskOk(sys.store, sys.ingestedBy, task, sem);
    var x := RefusalFor(task.event, c.executionId, Refusal(task.event, sem).value);
    Refused(sem, sys, i, c, x);
    RefusalRowOk(sys.store, sys.ingestedBy, task, x, c.executionId, sem);
    KeepBegin(sys, i, x, c.intentWrite, Finished(Answered(None, Ignores)), sem);
  }

  lemma AskingOk(s: Tables, hist: History, task: Task, c: Choice, sem: Semantics)
    requires TaskOk(s, hist, task, sem) && task.pc.Recorded? && Refusal(task.event, sem).None?
    ensures TaskOk(Ask(s, task.event.id), hist,
                   task.(pc := Answering(DecisionOf(task.event, SelectRoute(task.rt, task.event), c))), sem)
  {
  }

  lemma KeepAsked(sem: Semantics, sys: Sys, i: nat, c: Choice)
    requires SysOk(sys, sem) && i < |sys.tasks| && sys.tasks[i].pc.Recorded?
    requires Refusal(sys.tasks[i].event, sem).None?
    ensures SysOk(RunTask(sem, sys, i, c), sem)
  {
    var task := sys.tasks[i];
    assert TaskOk(sys.store, sys.ingestedBy, task, sem);
    AskKeeps(sys.store, task.event.id, sem);
    AskingOk(sys.store, sys.ingestedBy, task, c, sem);
    KeepWrite(sys, i, Ask(sys.store, task.event.id),
              Answering(DecisionOf(task.event, SelectRoute(task.rt, task.event), c)), sem);
  }

  lemma AnswerWritten(sem: Semantics, sys: Sys, i: nat, c: Choice)
    requires i < |sys.tasks| && sys.tasks[i].pc.Answering?
    ensures var dec := sys.tasks[i].pc.decision;
      var (s', ok) := InsertDecision(sys.store, dec, c.decisionWrite);
      RunTask(sem, sys, i, c) == Moved(sys, i, s', AfterAnswer(dec, ok))
  {
  }

  lemma AnswerOk(s: Tables, hist: History, task: Task, fault: WriteFault, sem: Semantics)
    requires TaskOk(s, hist, task, sem) && task.pc.Answering?
    ensures var (s', done) := InsertDecision(s, task.pc.decision, fault);
      TaskOk(s', hist, task.(pc := AfterAnswer(task.pc.decision, done)), sem)
  {
  }

  lemma KeepAnswering(sem: Semantics, sys: Sys, i: nat, c: Choice)
    requires SysOk(sys, sem) && i < |sys.tasks| && sys.tasks[i].pc.Answering?
    ensures SysOk(RunTask(sem, sys, i, c), sem)
  {
    var task := sys.tasks[i];
    assert TaskOk(sys.store, sys.ingestedBy, task, sem);
    var (s', done) := InsertDecision(sys.store, task.pc.decision, c.decisionWrite);
    AnswerWritten(sem, sys, i, c);
    DecisionKeeps(sys.store, task.pc.decision, c.decisionWrite, sem);
    AnswerOk(sys.store, sys.ingestedBy, task, c.decisionWrite, sem);
    KeepWrite(sys, i, s', AfterAnswer(task.pc.decision, done), sem);
  }

  lemma IntentWritten(sem: Semantics, sys: Sys, i: nat, c: Choice, t: Then, rule: RuleRef, x: Execution)
    requires i < |sys.tasks| && sys.tasks[i].pc.Decided?
    requires var (task, dec) := (sys.tasks[i], sys.tasks[i].pc.decision);
      var policy := SelectRoute(task.rt, task.event).policy;
      (t, rule) == Select(policy, dec, task.event, sem)
      && x == IntentFor(task.event, dec, t, rule, policy, c.executionId)
    ensures var dec := sys.tasks[i].pc.decision;
      var (s', ok) := BeginExecution(sys.store, x, c.intentWrite);
      RunTask(sem, sys, i, c) == Moved(sys, i, s', AfterIntent(dec, t, x, ok))
  {
  }

  lemma IntentOk(s: Tables, hist: History, task: Task, t: Then, rule: RuleRef, x: Execution, fault: WriteFault,
                 sem: Semantics)
    requires StoreOk(s, sem) && TaskOk(s, hist, task, sem) && task.pc.Decided?
    requires var (dec, policy) := (task.pc.decision, SelectRoute(task.rt, task.event).policy);
      (t, rule) == Select(policy, dec, task.event, sem) && x == IntentFor(task.event, dec, t, rule, policy, x.id)
    ensures RowOk(s, x, sem) && AttributedRow(s, hist, x)
    ensures var (s', done) := BeginExecution(s, x, fault);
      TaskOk(s', hist, task.(pc := AfterIntent(task.pc.decision, t, x, done)), sem)
  {
    IntentRowOk(s, task, t, rule, x, sem);
    IntentAttributed(s, hist, task, t, rule, x, sem);
    IntentTaskOk(s, hist, task, t, rule, x, fault, sem);
  }

  lemma IntentRowOk(s: Tables, task: Task, t: Then, rule: RuleRef, x: Execution, sem: Semantics)
    requires PcOk(s, task, sem) && task.pc.Decided? && task.event.id in s.events && s.events[task.event.id] == task.event
    requires var (dec, policy) := (task.pc.decision, SelectRoute(task.rt, task.event).policy);
      (t, rule) == Select(policy, dec, task.event, sem) && x == IntentFor(task.event, dec, t, rule, policy, x.id)
    ensures RowOk(s, x, sem)
  {
  }

  lemma IntentAttributed(s: Tables, hist: History, task: Task, t: Then, rule: RuleRef, x: Execution, sem: Semantics)
    requires TaskOk(s, hist, task, sem) && task.pc.Decided?
    requires var (dec, policy) := (task.pc.decision, SelectRoute(task.rt, task.event).policy);
      x == IntentFor(task.event, dec, t, rule, policy, x.id)
    ensures AttributedRow(s, hist, x)
  {
  }

  lemma IntentTaskOk(s: Tables, hist: History, task: Task, t: Then, rule: RuleRef, x: Execution, fault: WriteFault,
                     sem: Semantics)
    requires TaskOk(s, hist, task, sem) && task.pc.Decided?
    requires var (dec, policy) := (task.pc.decision, SelectRoute(task.rt, task.event).policy);
      (t, rule) == Select(policy, dec, task.event, sem) && x == IntentFor(task.event, dec, t, rule, policy, x.id)
    ensures var (s', done) := BeginExecution(s, x, fault);
      TaskOk(s', hist, task.(pc := AfterIntent(task.pc.decision, t, x, done)), sem)
  {
  }

  lemma KeepDecided(sem: Semantics, sys: Sys, i: nat, c: Choice)
    requires SysOk(sys, sem) && i < |sys.tasks| && sys.tasks[i].pc.Decided?
    ensures SysOk(RunTask(sem, sys, i, c), sem)
  {
    var task := sys.tasks[i];
    assert TaskOk(sys.store, sys.ingestedBy, task, sem);
    var policy, dec := SelectRoute(task.rt, task.event).policy, task.pc.decision;
    var (t, rule) := Select(policy, dec, task.event, sem);
    var x := IntentFor(task.event, dec, t, rule, policy, c.executionId);
    var (s', ok) := BeginExecution(sys.store, x, c.intentWrite);
    IntentWritten(sem, sys, i, c, t, rule, x);
    IntentOk(sys.store, sys.ingestedBy, task, t, rule, x, c.intentWrite, sem);
    KeepBegin(sys, i, x, c.intentWrite, AfterIntent(dec, t, x, ok), sem);
  }

  lemma GateReadingOk(s: Tables, hist: History, task: Task, blocked: bool, sem: Semantics)
    requires TaskOk(s, hist, task, sem) && task.pc.Ready?
    ensures var (dec, t, x) := (task.pc.decision, task.pc.then_, task.pc.execution);
      if Suppressed(t, blocked) then TaskOk(s, hist, task.(pc := Finishing(dec, t, x, Shadowed)), sem)
      else TaskOk(s, hist, task.(pc := Performing(dec, t, x)), sem)
  {
  }

  lemma GateRead(sem: Semantics, sys: Sys, i: nat, c: Choice, next: Pc)
    requires i < |sys.tasks| && sys.tasks[i].pc.Ready?
    requires var pc := sys.tasks[i].pc;
      next == if Suppressed(pc.then_, sys.blocked) then Finishing(pc.decision, pc.then_, pc.execution, Shadowed)
              else Performing(pc.decision, pc.then_, pc.execution)
    ensures RunTask(sem, sys, i, c) == Moved(sys, i, sys.store, next).(passed := RunTask(sem, sys, i, c).passed)
  {
  }

  lemma KeepReady(sem: Semantics, sys: Sys, i: nat, c: Choice)
    requires SysOk(sys, sem) && i < |sys.tasks| && sys.tasks[i].pc.Ready?
    ensures SysOk(RunTask(sem, sys, i, c), sem)
  {
    var task := sys.tasks[i];
    var (dec, t, x) := (task.pc.decision, task.pc.then_, task.pc.execution);
    var next := if Suppressed(t, sys.blocked) then Finishing(dec, t, x, Shadowed) else Performing(dec, t, x);
    assert TaskOk(sys.store, sys.ingestedBy, task, sem);
    GateReadingOk(sys.store, sys.ingestedBy, task, sys.blocked, sem);
    GateRead(sem, sys, i, c, next);
    KeepQuiet(sys, i, next, sem);
    GateIsIrrelevant(sem, Moved(sys, i, sys.store, next), RunTask(sem, sys, i, c));
  }

  /** A step that writes nothing. */
  lemma KeepQuiet(sys: Sys, i: nat, pc: Pc, sem: Semantics)
    requires SysOk(sys, sem) && i < |sys.tasks|
    requires Owns(pc) ==> Owns(sys.tasks[i].pc)
    requires TaskOk(sys.store, sys.ingestedBy, sys.tasks[i].(pc := pc), sem)
    ensures SysOk(Moved(sys, i, sys.store, pc), sem)
  {
  }

  /** A dispatch happens only while its own row is pending, and only for a live, ok selection. */
  lemma PerformIsJustified(sys: Sys, task: Task, sem: Semantics)
    requires StoreOk(sys.store, sem) && TaskOk(sys.store, sys.ingestedBy, task, sem) && task.pc.Performing?
    requires ExecutedBranch(task.pc.then_) != NoBranch
    ensures var x := task.pc.execution;
      && sys.store.executions[x.id].status == Pending
      && DispatchOk(sys.store, Dispatch(task.event.id, task.pc.decision.id, x.id, task.pc.then_), sem)
  {
  }

  lemma LineageIsWellBorn(s: Tables, e: Event, x: Execution, agent: string, child: Event)
    requires x.decision.Some? && x.chosenBy.Some?
    requires e.id in s.events && s.events[e.id] == e && 0 <= e.depth <= MAX_DEPTH
    requires x.id in s.executions && s.executions[x.id] == x && x.event == e.id
    requires x.decision.value in s.decisions && s.decisions[x.decision.value].event == e.id
    requires child.provenance == Some(LineageOf(e, x, agent)) && child.depth == e.depth + 1
    requires Identified(child, child.provenance.value)
    requires Inherits(child, e, s.decisions[x.decision.value], child.provenance.value)
    ensures WellBorn(s, child)
  {
  }

  /** An emitted or completion event carries its parent's lineage and one more level of depth. */
  lemma ChildrenCarryLineage(rt: Runtime, c: Choice, s: Tables, e: Event, dec: Decision, t: Then, x: Execution)
    requires x.decision.Some? && x.chosenBy.Some? && Perform(rt, c, s, e, dec, t, x).Spawns?
    ensures var child := Perform(rt, c, s, e, dec, t, x).child;
      child.depth == e.depth + 1 && child.provenance.Some?
      && child.provenance == Some(LineageOf(e, x, child.provenance.value.agent))
      && Identified(child, child.provenance.value) && Inherits(child, e, dec, child.provenance.value)
  {
  }

  lemma ChildrenWellBorn(s: Tables, hist: History, task: Task, c: Choice, sem: Semantics)
    requires StoreOk(s, sem) && TaskOk(s, hist, task, sem) && task.pc.Performing?
    requires task.pc.execution.decision.Some? && task.pc.execution.chosenBy.Some?
    requires Perform(task.rt, c, s, task.event, task.pc.decision, task.pc.then_, task.pc.execution).Spawns?
    ensures WellBorn(s, Perform(task.rt, c, s, task.event, task.pc.decision, task.pc.then_, task.pc.execution).child)
  {
    var (dec, t, x) := (task.pc.decision, task.pc.then_, task.pc.execution);
    assert Carries(s, task, dec, t, x, sem);
    DepthLeadsToOrigin(s, task.event.id);
    ChildrenCarryLineage(task.rt, c, s, task.event, dec, t, x);
    var child := Perform(task.rt, c, s, task.event, dec, t, x).child;
    LineageIsWellBorn(s, task.event, x, child.provenance.value.agent, child);
  }

  lemma PerformWrites(rt: Runtime, c: Choice, s: Tables, e: Event, dec: Decision, t: Then, x: Execution)
    requires x.decision.Some? && x.chosenBy.Some?
    ensures var p := Perform(rt, c, s, e, dec, t, x);
      || p.tables == s
      || (p.tables == LogDispatch(s, Dispatch(e.id, dec.id, x.id, t)) && ExecutedBranch(t) != NoBranch)
  {
  }

  lemma CarriedIsJudged(s: Tables, hist: History, task: Task, sem: Semantics)
    requires TaskOk(s, hist, task, sem) && (task.pc.Performing? || task.pc.Ready? || task.pc.Waiting?)
    ensures task.pc.execution.decision.Some? && task.pc.execution.chosenBy.Some?
    ensures task.pc.Performing? ==> NoDispatch(s, task.event.id)
  {
  }

  lemma PerformTouches(c: Choice, sys: Sys, task: Task, sem: Semantics)
    requires StoreOk(sys.store, sem) && TaskOk(sys.store, sys.ingestedBy, task, sem) && task.pc.Performing?
    requires task.pc.execution.decision.Some? && task.pc.execution.chosenBy.Some?
    ensures var p := Perform(task.rt, c, sys.store, task.event, task.pc.decision, task.pc.then_, task.pc.execution);
         && StoreOk(p.tables, sem) && Touches(sys.store, p.tables, task.event.id)
         && p.tables.(dispatched := sys.store.dispatched) == sys.store
  {
    var (dec, t, x) := (task.pc.decision, task.pc.then_, task.pc.execution);
    var s, e := sys.store, task.event;
    CarriedIsJudged(s, sys.ingestedBy, task, sem);
    PerformWrites(task.rt, c, s, e, dec, t, x);
    TouchesSelf(s, e.id);
    if Perform(task.rt, c, s, e, dec, t, x).tables != s {
      PerformIsJustified(sys, task, sem);
      DispatchKeeps(s, Dispatch(e.id, dec.id, x.id, t), sem);
    }
  }

  lemma SpawnIsWellBorn(c: Choice, sys: Sys, task: Task, sem: Semantics)
    requires StoreOk(sys.store, sem) && TaskOk(sys.store, sys.ingestedBy, task, sem) && task.pc.Performing?
    requires task.pc.execution.decision.Some? && task.pc.execution.chosenBy.Some?
    requires Perform(task.rt, c, sys.store, task.event, task.pc.decision, task.pc.then_, task.pc.execution).Spawns?
    ensures var p := Perform(task.rt, c, sys.store, task.event, task.pc.decision, task.pc.then_, task.pc.execution);
      WellBorn(p.tables, p.child)
  {
    var p := Perform(task.rt, c, sys.store, task.event, task.pc.decision, task.pc.then_, task.pc.execution);
    ChildrenWellBorn(sys.store, sys.ingestedBy, task, c, sem);
    PerformTouches(c, sys, task, sem);
    WellBornGrows(sys.store, p.tables, p.child);
  }

  lemma CarryThrough(s: Tables, s': Tables, hist: History, task: Task, next: Pc, sem: Semantics)
    requires TaskOk(s, hist, task, sem) && (task.pc.Performing? || task.pc.Waiting?)
    requires s'.(dispatched := s.dispatched) == s
    requires var (dec, t, x) := (task.pc.decision, task.pc.then_, task.pc.execution);
      || (exists k :: next == Waiting(dec, t, x, k))
      || (exists ok :: next == Finishing(dec, t, x, Closing(ok)))
    ensures TaskOk(s', hist, task.(pc := next), sem)
  {
  }

  lemma EffectSettled(sem: Semantics, sys: Sys, i: nat, c: Choice, p: Effect)
    requires i < |sys.tasks| && sys.tasks[i].pc.Performing? && p.Settled?
    requires var task := sys.tasks[i]; var x := task.pc.execution;
      x.decision.Some? && x.chosenBy.Some?
      && p == Perform(task.rt, c, sys.store, task.event, task.pc.decision, task.pc.then_, x)
    ensures var pc := sys.tasks[i].pc;
      RunTask(sem, sys, i, c) == Moved(sys, i, p.tables, Finishing(pc.decision, pc.then_, pc.execution, Closing(p.ok)))
  {
  }

  lemma KeepSettled(sem: Semantics, sys: Sys, i: nat, c: Choice)
    requires SysOk(sys, sem) && i < |sys.tasks| && sys.tasks[i].pc.Performing?
    requires var task := sys.tasks[i]; var x := task.pc.execution;
      x.decision.Some? && x.chosenBy.Some?
      && Perform(task.rt, c, sys.store, task.event, task.pc.decision, task.pc.then_, x).Settled?
    ensures SysOk(RunTask(sem, sys, i, c), sem)
  {
    var task := sys.tasks[i];
    var (dec, t, x) := (task.pc.decision, task.pc.then_, task.pc.execution);
    assert TaskOk(sys.store, sys.ingestedBy, task, sem);
    var p := Perform(task.rt, c, sys.store, task.event, dec, t, x);
    var next := Finishing(dec, t, x, Closing(p.ok));
    EffectSettled(sem, sys, i, c, p);
    PerformTouches(c, sys, task, sem);
    CarryThrough(sys.store, p.tables, sys.ingestedBy, task, next, sem);
    KeepWrite(sys, i, p.tables, next, sem);
  }

  /** A new ingest joins with nothing owned yet. */
  lemma JoinKeeps(sem: Semantics, sys: Sys, task: Task)
    requires SysOk(sys, sem) && task.pc.Receive? && WellBorn(sys.store, task.event)
    ensures SysOk(Joined(sys, task), sem)
  {
  }

  lemma Spawned(sem: Semantics, sys: Sys, i: nat, c: Choice, p: Effect, next: Pc)
    requires i < |sys.tasks| && sys.tasks[i].pc.Performing? && p.Spawns?
    requires var task := sys.tasks[i]; var x := task.pc.execution;
      x.decision.Some? && x.chosenBy.Some?
      && p == Perform(task.rt, c, sys.store, task.event, task.pc.decision, task.pc.then_, x)
      && next == Waiting(task.pc.decision, task.pc.then_, x, |sys.tasks|)
    ensures RunTask(sem, sys, i, c)
         == Joined(Moved(sys, i, p.tables, next), Task(sys.tasks[i].rt, p.child, Receive))
  {
  }

  lemma KeepSpawned(sem: Semantics, sys: Sys, i: nat, c: Choice)
    requires SysOk(sys, sem) && i < |sys.tasks| && sys.tasks[i].pc.Performing?
    requires var task := sys.tasks[i]; var x := task.pc.execution;
      x.decision.Some? && x.chosenBy.Some?
      && Perform(task.rt, c, sys.store, task.event, task.pc.decision, task.pc.then_, x).Spawns?
    ensures SysOk(RunTask(sem, sys, i, c), sem)
  {
    var task := sys.tasks[i];
    var (dec, t, x) := (task.pc.decision, task.pc.then_, task.pc.execution);
    assert TaskOk(sys.store, sys.ingestedBy, task, sem);
    PerformTouches(c, sys, task, sem);
    SpawnIsWellBorn(c, sys, task, sem);
    var p := Perform(task.rt, c, sys.store, task.event, dec, t, x);
    var next := Waiting(dec, t, x, |sys.tasks|);
    CarryThrough(sys.store, p.tables, sys.ingestedBy, task, next, sem);
    KeepWrite(sys, i, p.tables, next, sem);
    JoinKeeps(sem, Moved(sys, i, p.tables, next), Task(task.rt, p.child, Receive));
    Spawned(sem, sys, i, c, p, next);
  }

  lemma ChildAnswered(sem: Semantics, sys: Sys, i: nat, c: Choice)
    requires i < |sys.tasks| && sys.tasks[i].pc.Waiting?
    ensures var (pc, k) := (sys.tasks[i].pc, sys.tasks[i].pc.child);
      RunTask(sem, sys, i, c)
      == if k < |sys.tasks| && sys.tasks[k].pc.Finished?
         then Moved(sys, i, sys.store,
                    Finishing(pc.decision, pc.then_, pc.execution, Closing(sys.tasks[k].pc.response != IngestError)))
         else sys
  {
  }

  lemma KeepWaiting(sem: Semantics, sys: Sys, i: nat, c: Choice)
    requires SysOk(sys, sem) && i < |sys.tasks| && sys.tasks[i].pc.Waiting?
    ensures SysOk(RunTask(sem, sys, i, c), sem)
  {
    assert TaskOk(sys.store, sys.ingestedBy, sys.tasks[i], sem);
    ChildAnswered(sem, sys, i, c);
    var (pc, k) := (sys.tasks[i].pc, sys.tasks[i].pc.child);
    if k < |sys.tasks| && sys.tasks[k].pc.Finished? {
      var next := Finishing(pc.decision, pc.then_, pc.execution, Closing(sys.tasks[k].pc.response != IngestError));
      CarryThrough(sys.store, sys.store, sys.ingestedBy, sys.tasks[i], next, sem);
      KeepQuiet(sys, i, next, sem);
    }
  }

  lemma OutcomeWritten(sem: Semantics, sys: Sys, i: nat, c: Choice)
    requires i < |sys.tasks| && sys.tasks[i].pc.Finishing?
    ensures var pc := sys.tasks[i].pc;
      RunTask(sem, sys, i, c)
      == Moved(sys, i, FinishExecution(sys.store, pc.execution.id, pc.status, c.finishWrite),
               Finished(Answered(Some(pc.decision), Outcome(pc.then_))))
  {
  }

  lemma FinishFrame(s: Tables, id: Id, status: ExecutionStatus, fault: WriteFault)
    ensures var s' := FinishExecution(s, id, status, fault);
      s'.events == s.events && s'.revisions == s.revisions && s'.executions.Keys == s.executions.Keys
  {
  }

  lemma FinishingWrites(s: Tables, task: Task, fault: WriteFault, sem: Semantics)
    requires StoreOk(s, sem) && task.pc.Finishing? && PcOk(s, task, sem)
    ensures var s' := FinishExecution(s, task.pc.execution.id, task.pc.status, fault);
      StoreOk(s', sem) && Touches(s, s', task.event.id)
  {
    FinishKeeps(s, task.pc.execution.id, task.pc.status, fault, sem);
  }

  lemma KeepFinishing(sem: Semantics, sys: Sys, i: nat, c: Choice)
    requires SysOk(sys, sem) && i < |sys.tasks| && sys.tasks[i].pc.Finishing?
    ensures SysOk(RunTask(sem, sys, i, c), sem)
  {
    var task := sys.tasks[i];
    assert TaskOk(sys.store, sys.ingestedBy, task, sem);
    OutcomeWritten(sem, sys, i, c);
    FinishingWrites(sys.store, task, c.finishWrite, sem);
    FinishFrame(sys.store, task.pc.execution.id, task.pc.status, c.finishWrite);
    KeepWrite(sys, i, FinishExecution(sys.store, task.pc.execution.id, task.pc.status, c.finishWrite),
              Finished(Answered(Some(task.pc.decision), Outcome(task.pc.then_))), sem);
  }

  lemma RunKeeps(sem: Semantics, sys: Sys, i: nat, c: Choice)
    requires SysOk(sys, sem) && i < |sys.tasks|
    ensures SysOk(RunTask(sem, sys, i, c), sem)
  {
    var task := sys.tasks[i];
    match task.pc {
      case Receive => KeepReceive(sem, sys, i, c);
      case Stored => KeepStored(sem, sys, i, c);
      case Recorded =>
        if Refusal(task.event, sem).Some? {
          KeepRefused(sem, sys, i, c);
        } else {
          KeepAsked(sem, sys, i, c);
        }
      case Answering(_) => KeepAnswering(sem, sys, i, c);
      case Decided(_) => KeepDecided(sem, sys, i, c);
      case Ready(_, _, _) => KeepReady(sem, sys, i, c);
      case Performing(dec, t, x) =>
        if x.decision.Some? && x.chosenBy.Some? {
          if Perform(task.rt, c, sys.store, task.event, dec, t, x).Settled? {
            KeepSettled(sem, sys, i, c);
          } else {
            KeepSpawned(sem, sys, i, c);
          }
        }
      case Waiting(_, _, _, _) => KeepWaiting(sem, sys, i, c);
      case Finishing(_, _, _, _) => KeepFinishing(sem, sys, i, c);
      case Finished(_) =>
    }
  }

  lemma ApplyKeeps(sem: Semantics, sys: Sys, a: Step)
    requires SysOk(sys, sem)
    ensures SysOk(Apply(sem, sys, a), sem)
  {
    match a {
      case Submit(rt, e) =>
        if e.depth == 0 && e.provenance.None? {
          JoinKeeps(sem, sys, Task(rt, e, Receive));
        }
      case Run(i, c) =>
        if i < |sys.tasks| {
          RunKeeps(sem, sys, i, c);
        }
      case _ =>
        GateIsIrrelevant(sem, sys, Apply(sem, sys, a));
    }
  }

  /** The invariant does not mention the gate, and fewer tasks cannot break it. */
  lemma GateIsIrrelevant(sem: Semantics, sys: Sys, sys': Sys)
    requires SysOk(sys, sem) && sys'.store == sys.store && sys'.ingestedBy == sys.ingestedBy
    requires sys'.tasks == sys.tasks || sys'.tasks == []
    ensures SysOk(sys', sem)
  {
  }

  /** Safety over every run: any schedule of submissions, statements, failures, gate operations and
      crashes, from an empty database. */
  lemma {:induction false} EveryRunIsSafe(sem: Semantics, sys: Sys, schedule: seq<Step>)
    requires SysOk(sys, sem)
    ensures SysOk(Execute(sem, sys, schedule), sem)
    decreases |schedule|
  {
    if schedule != [] {
      ApplyKeeps(sem, sys, schedule[0]);
      EveryRunIsSafe(sem, Apply(sem, sys, schedule[0]), schedule[1..]);
    }
  }

  lemma StartIsSafe(sem: Semantics)
    ensures SysOk(START, sem)
  {
  }
}
