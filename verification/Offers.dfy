/** What a source may rely on when it offers an event to ingest, whether nothing else moves meanwhile or
    any number of other ingests interleave with it statement by statement. */
module Offers {
  import opened Domain
  import opened PolicyRules
  import opened Configuration
  import opened Store
  import opened Pipeline
  import opened Invariants
  import opened Steps
  import opened Runs
  import opened Ingests
  import opened Confinement

  /** From s to s' an event was offered and answered: nothing stored was lost, delivery identities stayed
      unique, and any answer but an error means that the event's own identity is now stored. */
  ghost predicate Offered(s: Tables, s': Tables, e: Event, response: Response) {
    && Grows(s, s')
    && (UniqueKeys(s) ==> UniqueKeys(s'))
    && (response != IngestError ==> Taken(s', KeyOf(e)))
  }

  // ---- What one ingest adds ----

  lemma JudgeAddsNoEvent(rt: Runtime, sem: Semantics, c: Choice, s: Tables, e: Event)
    ensures Judge(rt, sem, c, s, e).tables.events == s.events
  {
  }

  lemma PrepareAdds(rt: Runtime, sem: Semantics, c: Choice, s: Tables, e: Event)
    ensures Prepare(rt, sem, c, s, e).tables.events == InsertEvent(s, e, c.insert).0.events
  {
    PrepareStops(rt, sem, c, s, e);
    var s1 := InsertEvent(s, e, c.insert).0;
    JudgeAddsNoEvent(rt, sem, c, Ask(RecordRevision(s1, e.id, rt.revision, c.revisionWrite).0, e.id), e);
  }

  type Events = map<Id, Event>

  /** The sources of events the process itself creates. */
  predicate Reserved(source: string) { source == "mrmr" || source == "mrmr.agent" }

  ghost predicate OnlyAdds(before: Events, after: Events, e: Event) {
    forall id | id in after && id !in before ::
      after[id] == e || (after[id].depth > e.depth && Reserved(after[id].source))
  }

  lemma InsertAddsOne(s: Tables, e: Event, fault: WriteFault)
    ensures var after := InsertEvent(s, e, fault).0.events; after == s.events || after == s.events[e.id := e]
  {
  }

  lemma AddsTwice(a: Events, b: Events, c: Events, e: Event)
    requires (b == a || b == a[e.id := e]) && OnlyDeeper(b, c, e) && forall id | id in b :: id in c && c[id] == b[id]
    ensures OnlyAdds(a, c, e)
  {
  }

  /** Besides the event itself, an ingest stores only deeper ones. */
  lemma {:induction false} IngestAdds(rt: Runtime, sem: Semantics, w: World, s: Tables, e: Event)
    ensures OnlyAdds(s.events, IngestResult(rt, sem, w, s, e).0.events, e)
    decreases Remaining(e), 1
  {
    PrepareAdds(rt, sem, w(e.depth), s, e);
    InsertAddsOne(s, e, w(e.depth).insert);
    var g := Prepare(rt, sem, w(e.depth), s, e);
    if g.Intended? {
      ConcludeAdds(rt, sem, w, g.tables, e, g.decision, g.then_, g.execution);
      ConcludeGrows(rt, sem, w, g.tables, e, g.decision, g.then_, g.execution);
      AddsTwice(s.events, g.tables.events, IngestResult(rt, sem, w, s, e).0.events, e);
    }
  }

  ghost predicate OnlyDeeper(before: Events, after: Events, e: Event) {
    forall id | id in after && id !in before :: after[id].depth > e.depth && Reserved(after[id].source)
  }

  lemma SpawnIsReserved(rt: Runtime, c: Choice, s: Tables, e: Event, dec: Decision, t: Then, x: Execution)
    requires x.decision.Some? && x.chosenBy.Some? && Perform(rt, c, s, e, dec, t, x).Spawns?
    ensures Reserved(Perform(rt, c, s, e, dec, t, x).child.source)
  {
  }

  lemma {:induction false} ConcludeAdds(rt: Runtime, sem: Semantics, w: World, s: Tables, e: Event, dec: Decision,
                                        t: Then, x: Execution)
    requires e.depth <= MAX_DEPTH && x.decision.Some? && x.chosenBy.Some?
    ensures OnlyDeeper(s.events, Conclude(rt, sem, w, s, e, dec, t, x).events, e)
    decreases Remaining(e), 0
  {
    PerformFootprint(rt, w(e.depth), s, e, dec, t, x);
    var p := Perform(rt, w(e.depth), s, e, dec, t, x);
    if p.Spawns? {
      SpawnIsReserved(rt, w(e.depth), s, e, dec, t, x);
      IngestAdds(rt, sem, w, p.tables, p.child);
    }
  }

  /** An event whose identity was free and that was answered without error is stored. */
  lemma AnsweredIsStored(rt: Runtime, sem: Semantics, w: World, s: Tables, e: Event)
    requires !Taken(s, KeyOf(e)) && IngestResult(rt, sem, w, s, e).1 != IngestError
    ensures var s' := IngestResult(rt, sem, w, s, e).0; e.id in s'.events && s'.events[e.id] == e
  {
    PrepareAdds(rt, sem, w(e.depth), s, e);
    var g := Prepare(rt, sem, w(e.depth), s, e);
    if g.Intended? {
      ConcludeGrows(rt, sem, w, g.tables, e, g.decision, g.then_, g.execution);
    }
  }

  lemma InsertKeepsKeys(s: Tables, e: Event, fault: WriteFault)
    requires UniqueKeys(s)
    ensures UniqueKeys(InsertEvent(s, e, fault).0)
  {
  }

  lemma SameEventsSameKeys(s: Tables, s': Tables)
    requires UniqueKeys(s) && s'.events == s.events
    ensures UniqueKeys(s')
  {
  }

  lemma {:induction false} IngestKeepsKeys(rt: Runtime, sem: Semantics, w: World, s: Tables, e: Event)
    requires UniqueKeys(s)
    ensures UniqueKeys(IngestResult(rt, sem, w, s, e).0)
    decreases Remaining(e), 1
  {
    PrepareAdds(rt, sem, w(e.depth), s, e);
    InsertKeepsKeys(s, e, w(e.depth).insert);
    var g := Prepare(rt, sem, w(e.depth), s, e);
    SameEventsSameKeys(InsertEvent(s, e, w(e.depth).insert).0, g.tables);
    if g.Intended? {
      ConcludeKeepsKeys(rt, sem, w, g.tables, e, g.decision, g.then_, g.execution);
    }
  }

  lemma {:induction false} ConcludeKeepsKeys(rt: Runtime, sem: Semantics, w: World, s: Tables, e: Event, dec: Decision,
                                             t: Then, x: Execution)
    requires e.depth <= MAX_DEPTH && x.decision.Some? && x.chosenBy.Some? && UniqueKeys(s)
    ensures UniqueKeys(Conclude(rt, sem, w, s, e, dec, t, x))
    decreases Remaining(e), 0
  {
    PerformFootprint(rt, w(e.depth), s, e, dec, t, x);
    var p := Perform(rt, w(e.depth), s, e, dec, t, x);
    SameEventsSameKeys(s, p.tables);
    var before := p.tables;
    if p.Spawns? && !Suppressed(t, w(e.depth).blocked) {
      IngestKeepsKeys(rt, sem, w, p.tables, p.child);
      before := IngestResult(rt, sem, w, p.tables, p.child).0;
    }
    SameEventsSameKeys(before, Conclude(rt, sem, w, s, e, dec, t, x));
  }

  /** Where the identifiers an ingest stores come from: the event's own, or the world that generates them. */
  ghost predicate Issues(before: Tables, after: Tables, e: Event, w: World) {
    && (forall id | id in after.events && id !in before.events :: id == e.id || GeneratesChild(w, id))
    && (forall r | r in after.revisions && r !in before.revisions :: r == e.id || GeneratesChild(w, r))
    && (forall d | d in after.decisions && d !in before.decisions :: GeneratesDecision(w, d))
  }

  ghost predicate GeneratesChild(w: World, id: Id) { exists depth: int :: w(depth).childId == id }

  ghost predicate GeneratesDecision(w: World, id: Id) { exists depth: int :: w(depth).decisionId == id }

  lemma JudgeIssues(rt: Runtime, sem: Semantics, w: World, s: Tables, e: Event)
    ensures var s' := Judge(rt, sem, w(e.depth), s, e).tables;
      forall d | d in s'.decisions && d !in s.decisions :: GeneratesDecision(w, d)
  {
    var c := w(e.depth);
    var route := SelectRoute(rt, e);
    var dec := DecisionOf(e, route, c);
    var (t, rule) := Select(route.policy, dec, e, sem);
    var x := IntentFor(e, dec, t, rule, route.policy, c.executionId);
    JudgeStops(rt, sem, c, s, e, x);
    BeginOwn(InsertDecision(s, dec, c.decisionWrite).0, x, c.intentWrite);
    assert dec.id == w(e.depth).decisionId;
  }

  lemma PrepareIssues(rt: Runtime, sem: Semantics, w: World, s: Tables, e: Event)
    ensures Issues(s, Prepare(rt, sem, w(e.depth), s, e).tables, e, w)
  {
    var c := w(e.depth);
    var s2 := RecordRevision(InsertEvent(s, e, c.insert).0, e.id, rt.revision, c.revisionWrite).0;
    PrepareStops(rt, sem, c, s, e);
    PrepareOwn(rt, sem, c, s, e);
    PrepareAdds(rt, sem, c, s, e);
    RecordOwn(s, e, c.insert, rt.revision, c.revisionWrite);
    JudgeIssues(rt, sem, w, Ask(s2, e.id), e);
    if Refusal(e, sem).Some? {
      BeginOwn(s2, RefusalFor(e, c.executionId, Refusal(e, sem).value), c.intentWrite);
    }
  }

  lemma SpawnIsGenerated(rt: Runtime, w: World, s: Tables, e: Event, dec: Decision, t: Then, x: Execution)
    requires x.decision.Some? && x.chosenBy.Some? && Perform(rt, w(e.depth), s, e, dec, t, x).Spawns?
    ensures Perform(rt, w(e.depth), s, e, dec, t, x).child.id == w(e.depth).childId
  {
  }

  lemma {:induction false} IngestIssues(rt: Runtime, sem: Semantics, w: World, s: Tables, e: Event)
    ensures Issues(s, IngestResult(rt, sem, w, s, e).0, e, w)
    decreases Remaining(e), 1
  {
    var g := Prepare(rt, sem, w(e.depth), s, e);
    PrepareIssues(rt, sem, w, s, e);
    if g.Intended? {
      ConcludeIssues(rt, sem, w, g.tables, e, g.decision, g.then_, g.execution);
    }
  }

  lemma ChildIssues(s: Tables, s1: Tables, s2: Tables, s': Tables, e: Event, child: Event, w: World)
    requires s1.events == s.events && s1.decisions == s.decisions && s1.revisions == s.revisions
    requires s'.events == s2.events && s'.decisions == s2.decisions && s'.revisions == s2.revisions
    requires Issues(s1, s2, child, w) && GeneratesChild(w, child.id)
    ensures Issues(s, s', e, w)
  {
  }

  lemma FinishFootprint(s: Tables, id: Id, status: ExecutionStatus, fault: WriteFault)
    ensures var s' := FinishExecution(s, id, status, fault);
      s'.events == s.events && s'.decisions == s.decisions && s'.revisions == s.revisions
  {
  }

  lemma {:induction false} ConcludeIssues(rt: Runtime, sem: Semantics, w: World, s: Tables, e: Event, dec: Decision,
                                          t: Then, x: Execution)
    requires e.depth <= MAX_DEPTH && x.decision.Some? && x.chosenBy.Some?
    ensures Issues(s, Conclude(rt, sem, w, s, e, dec, t, x), e, w)
    decreases Remaining(e), 0
  {
    var c := w(e.depth);
    PerformWrites(rt, c, s, e, dec, t, x);
    PerformFootprint(rt, c, s, e, dec, t, x);
    var p := Perform(rt, c, s, e, dec, t, x);
    if Suppressed(t, c.blocked) {
      FinishFootprint(s, x.id, Shadowed, c.finishWrite);
    } else if p.Settled? {
      FinishFootprint(p.tables, x.id, Closing(p.ok), c.finishWrite);
    } else {
      SpawnIsGenerated(rt, w, s, e, dec, t, x);
      IngestIssues(rt, sem, w, p.tables, p.child);
      var (s2, response) := IngestResult(rt, sem, w, p.tables, p.child);
      FinishFootprint(s2, x.id, Closing(response != IngestError), c.finishWrite);
      ChildIssues(s, p.tables, s2, Conclude(rt, sem, w, s, e, dec, t, x), e, p.child, w);
    }
  }

  /** An ingest by itself is such an offer, and stores besides the event only its own descendants. */
  lemma IngestIsOffer(rt: Runtime, sem: Semantics, w: World, s: Tables, e: Event)
    ensures var (s', r) := IngestResult(rt, sem, w, s, e); Offered(s, s', e, r) && OnlyAdds(s.events, s'.events, e)
  {
    IngestAdds(rt, sem, w, s, e);
    IngestGrows(rt, sem, w, s, e);
    DuplicateIffTaken(rt, sem, w, s, e);
    if UniqueKeys(s) {
      IngestKeepsKeys(rt, sem, w, s, e);
    }
  }

  // ---- The same amid other ingests ----

  lemma TakenGrows(s: Tables, s': Tables, k: Key)
    requires Grows(s, s') && Taken(s, k)
    ensures Taken(s', k)
  {
    var id :| id in s.events && KeyOf(s.events[id]) == k;
    assert s'.events[id] == s.events[id];
  }

  lemma EarlyStepsGrow(sem: Semantics, sys: Sys, i: nat, c: Choice)
    requires i < |sys.tasks| && (sys.tasks[i].pc.Receive? || sys.tasks[i].pc.Stored? || sys.tasks[i].pc.Recorded?)
    ensures Grows(sys.store, RunTask(sem, sys, i, c).store)
  {
    var task, s := sys.tasks[i], sys.store;
    match task.pc {
      case Receive =>
        RunsReceive(sem, sys, i, c);
        InsertGrows(s, task.event, c.insert);
      case Stored =>
        RevisionWritten(sem, sys, i, c);
        RevisionGrows(s, task.event.id, task.rt.revision, c.revisionWrite);
      case Recorded =>
        RunsRecorded(sem, sys, i, c);
        if Refusal(task.event, sem).Some? {
          BeginGrows(s, RefusalFor(task.event, c.executionId, Refusal(task.event, sem).value), c.intentWrite);
        }
    }
  }

  lemma JudgingStepsGrow(sem: Semantics, sys: Sys, i: nat, c: Choice)
    requires i < |sys.tasks| && (sys.tasks[i].pc.Answering? || sys.tasks[i].pc.Decided?)
    ensures Grows(sys.store, RunTask(sem, sys, i, c).store)
  {
    var task, dec := sys.tasks[i], sys.tasks[i].pc.decision;
    if task.pc.Answering? {
      AnswerWritten(sem, sys, i, c);
      DecisionGrows(sys.store, dec, c.decisionWrite);
    } else {
      var policy := SelectRoute(task.rt, task.event).policy;
      var (t, rule) := Select(policy, dec, task.event, sem);
      var x := IntentFor(task.event, dec, t, rule, policy, c.executionId);
      IntentWritten(sem, sys, i, c, t, rule, x);
      BeginGrows(sys.store, x, c.intentWrite);
    }
  }

  lemma PerformingGrows(sem: Semantics, sys: Sys, i: nat, c: Choice)
    requires i < |sys.tasks| && sys.tasks[i].pc.Performing?
    ensures Grows(sys.store, RunTask(sem, sys, i, c).store)
  {
    var (task, pc) := (sys.tasks[i], sys.tasks[i].pc);
    if pc.execution.decision.Some? && pc.execution.chosenBy.Some? {
      var p := Perform(task.rt, c, sys.store, task.event, pc.decision, pc.then_, pc.execution);
      PerformGrows(task.rt, c, sys.store, task.event, pc.decision, pc.then_, pc.execution);
      if p.Settled? {
        EffectSettled(sem, sys, i, c, p);
      } else {
        Spawned(sem, sys, i, c, p, Waiting(pc.decision, pc.then_, pc.execution, |sys.tasks|));
      }
    }
  }

  lemma QuietStepsStay(sem: Semantics, sys: Sys, i: nat, c: Choice)
    requires i < |sys.tasks| && var pc := sys.tasks[i].pc; pc.Ready? || pc.Waiting? || pc.Finished?
    ensures RunTask(sem, sys, i, c).store == sys.store
  {
  }

  lemma ClosingStepsGrow(sem: Semantics, sys: Sys, i: nat, c: Choice)
    requires i < |sys.tasks| && var pc := sys.tasks[i].pc; pc.Ready? || pc.Waiting? || pc.Finishing? || pc.Finished?
    ensures Grows(sys.store, RunTask(sem, sys, i, c).store)
  {
    if sys.tasks[i].pc.Finishing? {
      OutcomeWritten(sem, sys, i, c);
      FinishGrows(sys.store, sys.tasks[i].pc.execution.id, sys.tasks[i].pc.status, c.finishWrite);
    } else {
      QuietStepsStay(sem, sys, i, c);
    }
  }

  /** No step of any run loses or rewrites a row, statuses aside. */
  lemma StepGrows(sem: Semantics, sys: Sys, a: Step)
    ensures Grows(sys.store, Apply(sem, sys, a).store)
  {
    if a.Run? && a.task < |sys.tasks| {
      var pc := sys.tasks[a.task].pc;
      if pc.Receive? || pc.Stored? || pc.Recorded? {
        EarlyStepsGrow(sem, sys, a.task, a.choice);
      } else if pc.Answering? || pc.Decided? {
        JudgingStepsGrow(sem, sys, a.task, a.choice);
      } else if pc.Performing? {
        PerformingGrows(sem, sys, a.task, a.choice);
      } else {
        ClosingStepsGrow(sem, sys, a.task, a.choice);
      }
    }
  }

  /** A task that answered without error has its event's identity stored. */
  ghost predicate Answers(s: Tables, task: Task) {
    task.pc.Finished? && task.pc.response != IngestError ==> Taken(s, KeyOf(task.event))
  }

  lemma ReceiveAnswers(sem: Semantics, sys: Sys, i: nat, c: Choice)
    requires i < |sys.tasks| && sys.tasks[i].pc.Receive?
    ensures var sys' := RunTask(sem, sys, i, c); i < |sys'.tasks| && Answers(sys'.store, sys'.tasks[i])
  {
    RunsReceive(sem, sys, i, c);
  }

  lemma OwnedIsTaken(sem: Semantics, sys: Sys, i: nat)
    requires SysOk(sys, sem) && i < |sys.tasks| && Owns(sys.tasks[i].pc)
    ensures Taken(sys.store, KeyOf(sys.tasks[i].event))
  {
    assert TaskOk(sys.store, sys.ingestedBy, sys.tasks[i], sem);
  }

  lemma OwnStepAnswers(sem: Semantics, sys: Sys, i: nat, c: Choice)
    requires i < |sys.tasks| && Answers(sys.store, sys.tasks[i])
    requires Owns(sys.tasks[i].pc) ==> Taken(sys.store, KeyOf(sys.tasks[i].event))
    ensures var sys' := RunTask(sem, sys, i, c);
      i < |sys'.tasks| && sys'.tasks[i].event == sys.tasks[i].event && Answers(sys'.store, sys'.tasks[i])
  {
    RunIsFramed(sem, sys, i, c);
    if sys.tasks[i].pc.Receive? {
      ReceiveAnswers(sem, sys, i, c);
    } else if Owns(sys.tasks[i].pc) {
      StepGrows(sem, sys, Run(i, c));
      TakenGrows(sys.store, RunTask(sem, sys, i, c).store, KeyOf(sys.tasks[i].event));
    }
  }

  lemma AnyStepAnswers(sem: Semantics, sys: Sys, a: Step, i: nat)
    requires SysOk(sys, sem) && i < |sys.tasks| && Answers(sys.store, sys.tasks[i]) && !a.Crash?
    ensures var sys' := Apply(sem, sys, a);
      i < |sys'.tasks| && sys'.tasks[i].event == sys.tasks[i].event && Answers(sys'.store, sys'.tasks[i])
  {
    if a.Run? && a.task < |sys.tasks| {
      if a.task == i {
        if Owns(sys.tasks[i].pc) {
          OwnedIsTaken(sem, sys, i);
        }
        OwnStepAnswers(sem, sys, i, a.choice);
      } else {
        RunIsFramed(sem, sys, a.task, a.choice);
        StepGrows(sem, sys, a);
        if sys.tasks[i].pc.Finished? && sys.tasks[i].pc.response != IngestError {
          TakenGrows(sys.store, Apply(sem, sys, a).store, KeyOf(sys.tasks[i].event));
        }
      }
    }
  }

  lemma {:induction false} AnswersAlong(sem: Semantics, sys: Sys, schedule: seq<Step>, i: nat)
    requires SysOk(sys, sem) && i < |sys.tasks| && Answers(sys.store, sys.tasks[i])
    requires forall k | 0 <= k < |schedule| :: !schedule[k].Crash?
    ensures var end := Execute(sem, sys, schedule);
      && SysOk(end, sem) && Grows(sys.store, end.store)
      && i < |end.tasks| && end.tasks[i].event == sys.tasks[i].event && Answers(end.store, end.tasks[i])
    decreases |schedule|
  {
    if schedule != [] {
      var next := Apply(sem, sys, schedule[0]);
      ApplyKeeps(sem, sys, schedule[0]);
      StepGrows(sem, sys, schedule[0]);
      AnyStepAnswers(sem, sys, schedule[0], i);
      AnswersAlong(sem, next, schedule[1..], i);
      GrowsTwice(sys.store, next.store, Execute(sem, sys, schedule).store);
    }
  }

  /** However other ingests, operators and their failures interleave with it, an ingest that starts at s
      and has answered at s' is such an offer. */
  lemma InterleavedIsOffer(sem: Semantics, sys: Sys, schedule: seq<Step>, i: nat)
    requires SysOk(sys, sem) && i < |sys.tasks| && sys.tasks[i].pc.Receive?
    requires forall k | 0 <= k < |schedule| :: !schedule[k].Crash?
    ensures var end := Execute(sem, sys, schedule);
      && i < |end.tasks|
      && (end.tasks[i].pc.Finished? ==> Offered(sys.store, end.store, sys.tasks[i].event, end.tasks[i].pc.response))
  {
    AnswersAlong(sem, sys, schedule, i);
  }

  /** Even one cut short by a crash, or never answered, is an offer that failed. */
  lemma {:induction false} CutShortIsOffer(sem: Semantics, sys: Sys, schedule: seq<Step>, e: Event)
    requires SysOk(sys, sem)
    ensures Offered(sys.store, Execute(sem, sys, schedule).store, e, IngestError)
    decreases |schedule|
  {
    if schedule != [] {
      var next := Apply(sem, sys, schedule[0]);
      ApplyKeeps(sem, sys, schedule[0]);
      StepGrows(sem, sys, schedule[0]);
      CutShortIsOffer(sem, next, schedule[1..], e);
      GrowsTwice(sys.store, next.store, Execute(sem, sys, schedule).store);
    }
  }
}
