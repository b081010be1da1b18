/** What one call of ingest comes to, for every world: how far it can cascade, what a repeated
    delivery does, what closing the gate changes, and what an activated runtime cannot do. */
module Ingests {
  import opened Domain
  import opened PolicyRules
  import opened Interpretations
  import opened Configuration
  import opened Store
  import opened Pipeline
  import opened Invariants
  import opened Steps

  // ---- How far one ingest can cascade ----

  lemma JudgeFootprint(rt: Runtime, sem: Semantics, c: Choice, s: Tables, e: Event)
    ensures var s' := Judge(rt, sem, c, s, e).tables; s'.events == s.events && s'.asked == s.asked
  {
  }

  lemma RecordFootprint(s: Tables, e: Event, fault: WriteFault, revision: string, second: WriteFault)
    ensures var s1 := InsertEvent(s, e, fault).0;
      var s2 := RecordRevision(s1, e.id, revision, second).0;
      && |s1.events| <= |s.events| + 1 && s2.events == s1.events && s1.asked == s2.asked == s.asked
  {
  }

  lemma PrepareFootprint(rt: Runtime, sem: Semantics, c: Choice, s: Tables, e: Event)
    ensures var s' := Prepare(rt, sem, c, s, e).tables;
      && |s'.events| <= |s.events| + 1
      && |s'.asked| <= |s.asked| + (if e.depth > MAX_DEPTH then 0 else 1)
  {
    PrepareStops(rt, sem, c, s, e);
    RecordFootprint(s, e, c.insert, rt.revision, c.revisionWrite);
    JudgeFootprint(rt, sem, c, Ask(RecordRevision(InsertEvent(s, e, c.insert).0, e.id, rt.revision, c.revisionWrite).0, e.id), e);
  }

  lemma PerformFootprint(rt: Runtime, c: Choice, s: Tables, e: Event, dec: Decision, t: Then, x: Execution)
    requires x.decision.Some? && x.chosenBy.Some?
    ensures var p := Perform(rt, c, s, e, dec, t, x);
      && p.tables.events == s.events && p.tables.asked == s.asked
      && (p.Spawns? ==> p.child.depth == e.depth + 1)
  {
  }

  /** An ingest at depth d stores at most max(1, 12 - d) events and consults a model at most
      max(0, 11 - d) times. */
  lemma {:induction false} CascadeIsBounded(rt: Runtime, sem: Semantics, w: World, s: Tables, e: Event)
    ensures var s' := IngestResult(rt, sem, w, s, e).0;
      && |s'.events| <= |s.events| + (if e.depth >= 11 then 1 else 12 - e.depth)
      && |s'.asked| <= |s.asked| + (if e.depth >= 11 then 0 else 11 - e.depth)
    decreases Remaining(e)
  {
    var c := w(e.depth);
    var g := Prepare(rt, sem, c, s, e);
    PrepareFootprint(rt, sem, c, s, e);
    if g.Intended? {
      PerformFootprint(rt, c, g.tables, e, g.decision, g.then_, g.execution);
      var p := Perform(rt, c, g.tables, e, g.decision, g.then_, g.execution);
      if p.Spawns? {
        CascadeIsBounded(rt, sem, w, p.tables, p.child);
      }
    }
  }

  // ---- Repeated delivery ----

  /** Nothing stored is lost or rewritten apart from an execution's status. */
  lemma InsertGrows(s: Tables, e: Event, fault: WriteFault)
    ensures Grows(s, InsertEvent(s, e, fault).0)
  {
  }

  lemma RevisionGrows(s: Tables, id: Id, revision: string, fault: WriteFault)
    ensures Grows(s, RecordRevision(s, id, revision, fault).0)
  {
  }

  lemma DecisionGrows(s: Tables, d: Decision, fault: WriteFault)
    ensures Grows(s, InsertDecision(s, d, fault).0)
  {
  }

  lemma BeginGrows(s: Tables, x: Execution, fault: WriteFault)
    ensures Grows(s, BeginExecution(s, x, fault).0)
  {
  }

  lemma JudgeGrows(rt: Runtime, sem: Semantics, c: Choice, s: Tables, e: Event)
    ensures Grows(s, Judge(rt, sem, c, s, e).tables)
  {
    var route := SelectRoute(rt, e);
    var dec := DecisionOf(e, route, c);
    var s1 := InsertDecision(s, dec, c.decisionWrite).0;
    var (t, rule) := Select(route.policy, dec, e, sem);
    var x := IntentFor(e, dec, t, rule, route.policy, c.executionId);
    DecisionGrows(s, dec, c.decisionWrite);
    BeginGrows(s1, x, c.intentWrite);
    GrowsTwice(s, s1, BeginExecution(s1, x, c.intentWrite).0);
  }

  /** The points at which an ingest can end before its effect. */
  lemma PrepareStops(rt: Runtime, sem: Semantics, c: Choice, s: Tables, e: Event)
    ensures var s1 := InsertEvent(s, e, c.insert).0;
      var s2 := RecordRevision(s1, e.id, rt.revision, c.revisionWrite).0;
      var g := Prepare(rt, sem, c, s, e);
      || g.tables == s1
      || g.tables == s2
      || (Refusal(e, sem).Some? && g.tables == BeginExecution(s2, RefusalFor(e, c.executionId, Refusal(e, sem).value), c.intentWrite).0)
      || (Refusal(e, sem).None? && g == Judge(rt, sem, c, Ask(s2, e.id), e))
  {
  }

  lemma RefusedGrows(s: Tables, e: Event, sem: Semantics, c: Choice)
    requires Refusal(e, sem).Some?
    ensures Grows(s, BeginExecution(s, RefusalFor(e, c.executionId, Refusal(e, sem).value), c.intentWrite).0)
  {
  }

  lemma AskedGrows(rt: Runtime, sem: Semantics, c: Choice, s: Tables, e: Event)
    ensures Grows(s, Judge(rt, sem, c, Ask(s, e.id), e).tables)
  {
    JudgeGrows(rt, sem, c, Ask(s, e.id), e);
    GrowsTwice(s, Ask(s, e.id), Judge(rt, sem, c, Ask(s, e.id), e).tables);
  }

  lemma PrepareGrowsFrom(s1: Tables, s2: Tables, s': Tables, rt: Runtime, sem: Semantics, c: Choice, e: Event)
    requires Grows(s1, s2)
    requires s' == s1 || s' == s2
      || (Refusal(e, sem).Some? && s' == BeginExecution(s2, RefusalFor(e, c.executionId, Refusal(e, sem).value), c.intentWrite).0)
      || (Refusal(e, sem).None? && s' == Judge(rt, sem, c, Ask(s2, e.id), e).tables)
    ensures Grows(s1, s')
  {
    if s' != s1 && s' != s2 {
      if Refusal(e, sem).Some? {
        RefusedGrows(s2, e, sem, c);
      } else {
        AskedGrows(rt, sem, c, s2, e);
      }
      GrowsTwice(s1, s2, s');
    }
  }

  lemma PrepareGrows(rt: Runtime, sem: Semantics, c: Choice, s: Tables, e: Event)
    ensures Grows(InsertEvent(s, e, c.insert).0, Prepare(rt, sem, c, s, e).tables)
    ensures Grows(s, Prepare(rt, sem, c, s, e).tables)
  {
    var s1 := InsertEvent(s, e, c.insert).0;
    var s2 := RecordRevision(s1, e.id, rt.revision, c.revisionWrite).0;
    var s' := Prepare(rt, sem, c, s, e).tables;
    PrepareStops(rt, sem, c, s, e);
    RevisionGrows(s1, e.id, rt.revision, c.revisionWrite);
    PrepareGrowsFrom(s1, s2, s', rt, sem, c, e);
    InsertGrows(s, e, c.insert);
    GrowsTwice(s, s1, s');
  }

  lemma PerformGrows(rt: Runtime, c: Choice, s: Tables, e: Event, dec: Decision, t: Then, x: Execution)
    requires x.decision.Some? && x.chosenBy.Some?
    ensures Grows(s, Perform(rt, c, s, e, dec, t, x).tables)
  {
    PerformWrites(rt, c, s, e, dec, t, x);
  }

  lemma FinishGrows(s: Tables, id: Id, status: ExecutionStatus, fault: WriteFault)
    ensures Grows(s, FinishExecution(s, id, status, fault))
  {
  }

  lemma GrowsTwice(a: Tables, b: Tables, c: Tables)
    requires Grows(a, b) && Grows(b, c)
    ensures Grows(a, c)
  {
  }

  lemma {:induction false} IngestGrows(rt: Runtime, sem: Semantics, w: World, s: Tables, e: Event)
    ensures Grows(s, IngestResult(rt, sem, w, s, e).0)
    decreases Remaining(e)
  {
    var c := w(e.depth);
    var g := Prepare(rt, sem, c, s, e);
    PrepareGrows(rt, sem, c, s, e);
    if g.Intended? {
      ConcludeGrows(rt, sem, w, g.tables, e, g.decision, g.then_, g.execution);
      GrowsTwice(s, g.tables, IngestResult(rt, sem, w, s, e).0);
    }
  }

  lemma {:induction false} ConcludeGrows(rt: Runtime, sem: Semantics, w: World, s: Tables, e: Event, dec: Decision,
                                         t: Then, x: Execution)
    requires e.depth <= MAX_DEPTH && x.decision.Some? && x.chosenBy.Some?
    ensures Grows(s, Conclude(rt, sem, w, s, e, dec, t, x))
    decreases Remaining(e), 0
  {
    var c := w(e.depth);
    if Suppressed(t, c.blocked) {
      FinishGrows(s, x.id, Shadowed, c.finishWrite);
    } else {
      var p := Perform(rt, c, s, e, dec, t, x);
      PerformGrows(rt, c, s, e, dec, t, x);
      if p.Settled? {
        FinishGrows(p.tables, x.id, Closing(p.ok), c.finishWrite);
        GrowsTwice(s, p.tables, Conclude(rt, sem, w, s, e, dec, t, x));
      } else {
        PerformFootprint(rt, c, s, e, dec, t, x);
        IngestGrows(rt, sem, w, p.tables, p.child);
        var (s3, response) := IngestResult(rt, sem, w, p.tables, p.child);
        FinishGrows(s3, x.id, Closing(response != IngestError), c.finishWrite);
        GrowsTwice(s, p.tables, s3);
        GrowsTwice(s, s3, Conclude(rt, sem, w, s, e, dec, t, x));
      }
    }
  }

  /** An ingest answers "duplicate" exactly when its key was already taken, and it then changes
      nothing; any other answer but an error leaves the key taken. An error says nothing either way:
      the event may be stored and will then never be judged. */
  lemma DuplicateIffTaken(rt: Runtime, sem: Semantics, w: World, s: Tables, e: Event)
    ensures var (s', r) := IngestResult(rt, sem, w, s, e);
      && (r == Duplicated <==> Taken(s, KeyOf(e)) && w(e.depth).insert == NoFault)
      && (Taken(s, KeyOf(e)) ==> s' == s)
      && (r != IngestError ==> Taken(s', KeyOf(e)))
  {
    var g := Prepare(rt, sem, w(e.depth), s, e);
    var s1 := InsertEvent(s, e, w(e.depth).insert).0;
    IngestGrows(rt, sem, w, s, e);
    if g.Intended? || (g.response != Duplicated && g.response != IngestError) {
      assert s1.events[e.id] == e;
      StoredStays(rt, sem, w, s, e);
    }
  }

  lemma StoredStays(rt: Runtime, sem: Semantics, w: World, s: Tables, e: Event)
    requires InsertEvent(s, e, w(e.depth).insert).1 == Inserted
    ensures Taken(IngestResult(rt, sem, w, s, e).0, KeyOf(e))
  {
    var c := w(e.depth);
    var s1 := InsertEvent(s, e, c.insert).0;
    var g := Prepare(rt, sem, c, s, e);
    PrepareGrows(rt, sem, c, s, e);
    if g.Intended? {
      ConcludeGrows(rt, sem, w, g.tables, e, g.decision, g.then_, g.execution);
    }
    assert e.id in s1.events && KeyOf(s1.events[e.id]) == KeyOf(e);
    assert e.id in IngestResult(rt, sem, w, s, e).0.events;
  }

  /** Redelivery after anything at all has happened is inert. */
  lemma RedeliveryIsInert(rt: Runtime, rt': Runtime, sem: Semantics, w: World, w': World, s: Tables, s': Tables,
                          e: Event, again: Event)
    requires IngestResult(rt, sem, w, s, e).1 != IngestError && KeyOf(again) == KeyOf(e)
    requires Grows(IngestResult(rt, sem, w, s, e).0, s')
    ensures IngestResult(rt', sem, w', s', again).0 == s'
  {
    DuplicateIffTaken(rt, sem, w, s, e);
    var id :| id in IngestResult(rt, sem, w, s, e).0.events && KeyOf(IngestResult(rt, sem, w, s, e).0.events[id]) == KeyOf(e);
    assert KeyOf(s'.events[id]) == KeyOf(again);
    DuplicateIffTaken(rt', sem, w', s', again);
  }

  // ---- Rows of other events ----

  /** Growth that leaves every row of an event already stored exactly as it was. */
  ghost predicate OnlyNew(s: Tables, s': Tables) {
    && Grows(s, s')
    && (forall d | d in s'.decisions && d !in s.decisions :: s'.decisions[d].event !in s.events)
    && (forall x | x in s'.executions && x !in s.executions :: s'.executions[x].event !in s.events)
    && (forall x | x in s.executions :: s'.executions[x] == s.executions[x])
    && (forall r | r in s'.revisions && r !in s.revisions :: r !in s.events)
  }

  lemma OnlyNewTwice(a: Tables, b: Tables, c: Tables)
    requires OnlyNew(a, b) && OnlyNew(b, c)
    ensures OnlyNew(a, c)
  {
  }

  /** Rows of e alone, when e itself is new. */
  ghost predicate OnlyOwn(s: Tables, s': Tables, e: Event) {
    && Grows(s, s')
    && (forall d | d in s'.decisions && d !in s.decisions :: s'.decisions[d].event == e.id)
    && (forall x | x in s'.executions && x !in s.executions :: s'.executions[x].event == e.id)
    && (forall x | x in s.executions :: s'.executions[x] == s.executions[x])
    && (forall r | r in s'.revisions && r !in s.revisions :: r == e.id)
    && (s' != s ==> e.id !in s.events && e.id in s'.events && s'.events[e.id] == e)
  }

  /** Growth by rows of one event id alone, events and revisions aside. */
  ghost predicate JudgesOnly(s: Tables, s': Tables, id: Id) {
    && s'.events == s.events && s'.revisions == s.revisions
    && (forall d | d in s'.decisions && d !in s.decisions :: s'.decisions[d].event == id)
    && (forall x | x in s'.executions && x !in s.executions :: s'.executions[x].event == id)
    && (forall x | x in s.executions :: x in s'.executions && s'.executions[x] == s.executions[x])
  }

  lemma DecisionOwn(s: Tables, d: Decision, fault: WriteFault)
    ensures var s' := InsertDecision(s, d, fault).0; JudgesOnly(s, s', d.event) && s'.executions == s.executions
  {
  }

  lemma BeginOwn(s: Tables, x: Execution, fault: WriteFault)
    ensures var s' := BeginExecution(s, x, fault).0; JudgesOnly(s, s', x.event) && s'.decisions == s.decisions
  {
  }

  /** The points at which a judgment can end. */
  lemma JudgeStops(rt: Runtime, sem: Semantics, c: Choice, s: Tables, e: Event, x: Execution)
    requires var route := SelectRoute(rt, e); var dec := DecisionOf(e, route, c); var (t, rule) := Select(route.policy, dec, e, sem);
      x == IntentFor(e, dec, t, rule, route.policy, c.executionId)
    ensures var s1 := InsertDecision(s, DecisionOf(e, SelectRoute(rt, e), c), c.decisionWrite).0;
      var s' := Judge(rt, sem, c, s, e).tables;
      s' == s1 || s' == BeginExecution(s1, x, c.intentWrite).0
  {
  }

  lemma JudgeOwn(rt: Runtime, sem: Semantics, c: Choice, s: Tables, e: Event)
    ensures JudgesOnly(s, Judge(rt, sem, c, s, e).tables, e.id)
  {
    var route := SelectRoute(rt, e);
    var dec := DecisionOf(e, route, c);
    var (t, rule) := Select(route.policy, dec, e, sem);
    var x := IntentFor(e, dec, t, rule, route.policy, c.executionId);
    JudgeStops(rt, sem, c, s, e, x);
    DecisionOwn(s, dec, c.decisionWrite);
    BeginOwn(InsertDecision(s, dec, c.decisionWrite).0, x, c.intentWrite);
  }

  lemma RecordOwn(s: Tables, e: Event, fault: WriteFault, revision: string, second: WriteFault)
    ensures var s1 := InsertEvent(s, e, fault).0;
      var s2 := RecordRevision(s1, e.id, revision, second).0;
      && s1.decisions == s2.decisions == s.decisions && s1.executions == s2.executions == s.executions
      && s1.revisions == s.revisions && s2.events == s1.events
      && (forall r | r in s2.revisions && r !in s.revisions :: r == e.id)
      && (s1 != s ==> e.id !in s.events && s1.events == s.events[e.id := e])
  {
    InsertOwn(s, e, fault);
    RevisionOwn(InsertEvent(s, e, fault).0, e.id, revision, second);
  }

  lemma InsertOwn(s: Tables, e: Event, fault: WriteFault)
    ensures var s1 := InsertEvent(s, e, fault).0;
      s1 == s || (e.id !in s.events && s1 == s.(events := s.events[e.id := e]))
  {
  }

  lemma RevisionOwn(s: Tables, id: Id, revision: string, fault: WriteFault)
    ensures var s' := RecordRevision(s, id, revision, fault).0;
      && s'.events == s.events && s'.decisions == s.decisions && s'.executions == s.executions
      && forall r | r in s'.revisions && r !in s.revisions :: r == id
  {
  }

  /** An event that was not inserted goes no further. */
  lemma PrepareNeedsInsert(rt: Runtime, sem: Semantics, c: Choice, s: Tables, e: Event)
    ensures InsertEvent(s, e, c.insert).1 != Inserted ==> Prepare(rt, sem, c, s, e).tables == InsertEvent(s, e, c.insert).0
  {
  }

  lemma PrepareOwn(rt: Runtime, sem: Semantics, c: Choice, s: Tables, e: Event)
    ensures OnlyOwn(s, Prepare(rt, sem, c, s, e).tables, e)
  {
    var s1 := InsertEvent(s, e, c.insert).0;
    var s2 := RecordRevision(s1, e.id, rt.revision, c.revisionWrite).0;
    var s' := Prepare(rt, sem, c, s, e).tables;
    PrepareStops(rt, sem, c, s, e);
    PrepareNeedsInsert(rt, sem, c, s, e);
    RecordOwn(s, e, c.insert, rt.revision, c.revisionWrite);
    PrepareGrows(rt, sem, c, s, e);
    JudgeOwn(rt, sem, c, Ask(s2, e.id), e);
    if Refusal(e, sem).Some? {
      BeginOwn(s2, RefusalFor(e, c.executionId, Refusal(e, sem).value), c.intentWrite);
    }
    if s1 != s && s' != s1 && s' != s2 {
      OwnThenJudged(s, s2, s', e);
    } else {
      OwnSoFar(s, s1, s2, s', e);
    }
  }

  lemma OwnSoFar(s: Tables, s1: Tables, s2: Tables, s': Tables, e: Event)
    requires Grows(s, s') && s' in [s, s1, s2]
    requires s1.decisions == s2.decisions == s.decisions && s1.executions == s2.executions == s.executions
    requires s1.revisions == s.revisions && s2.events == s1.events
    requires forall r | r in s2.revisions && r !in s.revisions :: r == e.id
    requires if s1 == s then s' == s else e.id !in s.events && s1.events == s.events[e.id := e]
    ensures OnlyOwn(s, s', e)
  {
  }

  lemma OwnThenJudged(s: Tables, s2: Tables, s': Tables, e: Event)
    requires Grows(s, s') && s2.decisions == s.decisions && s2.executions == s.executions
    requires forall r | r in s2.revisions && r !in s.revisions :: r == e.id
    requires e.id !in s.events && e.id in s2.events && s2.events[e.id] == e
    requires JudgesOnly(s2, s', e.id) || JudgesOnly(Ask(s2, e.id), s', e.id)
    ensures OnlyOwn(s, s', e)
  {
  }

  /** The same, except that the row of one execution already stored may be closed. */
  ghost predicate OnlyNewBut(s: Tables, s': Tables, id: Id) {
    && Grows(s, s')
    && (forall d | d in s'.decisions && d !in s.decisions :: s'.decisions[d].event !in s.events)
    && (forall x | x in s'.executions && x !in s.executions :: s'.executions[x].event !in s.events)
    && (forall x | x in s.executions && x != id :: s'.executions[x] == s.executions[x])
    && (forall r | r in s'.revisions && r !in s.revisions :: r !in s.events)
  }

  lemma FinishOnly(s: Tables, s1: Tables, id: Id, status: ExecutionStatus, fault: WriteFault)
    requires OnlyNew(s, s1)
    ensures id in s.executions ==> OnlyNewBut(s, FinishExecution(s1, id, status, fault), id)
  {
    OneRowCloses(s1, id, status, fault);
    if id in s.executions {
      NewThenClosed(s, s1, FinishExecution(s1, id, status, fault), id);
    }
  }

  lemma OneRowCloses(s: Tables, id: Id, status: ExecutionStatus, fault: WriteFault)
    ensures var s' := FinishExecution(s, id, status, fault);
      && Grows(s, s') && s'.decisions == s.decisions && s'.revisions == s.revisions
      && s'.executions.Keys == s.executions.Keys
      && forall x | x in s.executions && x != id :: s'.executions[x] == s.executions[x]
  {
  }

  lemma NewThenClosed(s: Tables, s1: Tables, s': Tables, id: Id)
    requires OnlyNew(s, s1) && Grows(s1, s') && s'.decisions == s1.decisions && s'.revisions == s1.revisions
    requires s'.executions.Keys == s1.executions.Keys && id in s.executions
    requires forall x | x in s1.executions && x != id :: s'.executions[x] == s1.executions[x]
    ensures OnlyNewBut(s, s', id)
  {
    GrowsTwice(s, s1, s');
  }

  lemma PerformOnlyNew(rt: Runtime, c: Choice, s: Tables, e: Event, dec: Decision, t: Then, x: Execution)
    requires x.decision.Some? && x.chosenBy.Some?
    ensures OnlyNew(s, Perform(rt, c, s, e, dec, t, x).tables)
  {
    PerformWrites(rt, c, s, e, dec, t, x);
  }

  /** What a child ingest does cannot reach the rows of its ancestors. */
  lemma {:induction false} IngestOnlyNew(rt: Runtime, sem: Semantics, w: World, s: Tables, e: Event)
    ensures OnlyNew(s, IngestResult(rt, sem, w, s, e).0)
    decreases Remaining(e), 1
  {
    var g := Prepare(rt, sem, w(e.depth), s, e);
    PrepareOwn(rt, sem, w(e.depth), s, e);
    if g.Intended? {
      IntentIsNew(rt, sem, w(e.depth), s, e);
      ConcludeOnlyNew(rt, sem, w, g.tables, e, g.decision, g.then_, g.execution);
      OwnThenOnly(s, g.tables, IngestResult(rt, sem, w, s, e).0, e, g.execution.id);
    }
  }

  lemma OwnThenOnly(s: Tables, s1: Tables, s': Tables, e: Event, id: Id)
    requires OnlyOwn(s, s1, e) && OnlyNewBut(s1, s', id) && id !in s.executions && s1 != s
    ensures OnlyNew(s, s')
  {
  }

  lemma {:induction false} ConcludeOnlyNew(rt: Runtime, sem: Semantics, w: World, s: Tables, e: Event, dec: Decision,
                                           t: Then, x: Execution)
    requires e.depth <= MAX_DEPTH && x.decision.Some? && x.chosenBy.Some? && x.id in s.executions
    ensures OnlyNewBut(s, Conclude(rt, sem, w, s, e, dec, t, x), x.id)
    decreases Remaining(e), 0
  {
    var c := w(e.depth);
    if Suppressed(t, c.blocked) {
      FinishOnly(s, s, x.id, Shadowed, c.finishWrite);
    } else {
      var p := Perform(rt, c, s, e, dec, t, x);
      PerformOnlyNew(rt, c, s, e, dec, t, x);
      if p.Settled? {
        FinishOnly(s, p.tables, x.id, Closing(p.ok), c.finishWrite);
      } else {
        PerformFootprint(rt, c, s, e, dec, t, x);
        IngestOnlyNew(rt, sem, w, p.tables, p.child);
        var (s3, response) := IngestResult(rt, sem, w, p.tables, p.child);
        OnlyNewTwice(s, p.tables, s3);
        FinishOnly(s, s3, x.id, Closing(response != IngestError), c.finishWrite);
      }
    }
  }

  // ---- When an ingest fails, and what one that does not completes ----

  /** A storage fault or a colliding identifier before the outcome is decided: what a caller is told of
      as an error. Later faults are not errors. */
  predicate Fails(rt: Runtime, sem: Semantics, c: Choice, s: Tables, e: Event) {
    || InsertFails(c, s, e)
    || (c.insert == NoFault && !Taken(s, KeyOf(e))
        && (RecordFails(rt, c, s, e) || (Refusal(e, sem).None? && (c.decisionWrite != NoFault || c.decisionId in s.decisions))))
  }

  predicate InsertFails(c: Choice, s: Tables, e: Event) {
    c.insert != NoFault || (!Taken(s, KeyOf(e)) && e.id in s.events)
  }

  predicate RecordFails(rt: Runtime, c: Choice, s: Tables, e: Event) {
    rt.revision != "" && (c.revisionWrite != NoFault || e.id in s.revisions)
  }

  lemma JudgeFailsIff(rt: Runtime, sem: Semantics, c: Choice, s: Tables, e: Event)
    requires e.id in s.events
    ensures var g := Judge(rt, sem, c, s, e);
      g.Halted? && g.response == IngestError <==> c.decisionWrite != NoFault || c.decisionId in s.decisions
    ensures var g := Judge(rt, sem, c, s, e); g.Halted? ==> g.response != Duplicated
  {
  }

  lemma RecordFailsIff(rt: Runtime, c: Choice, s: Tables, e: Event)
    requires e.id in s.events
    ensures RecordRevision(s, e.id, rt.revision, c.revisionWrite).1 <==> !RecordFails(rt, c, s, e)
  {
  }

  lemma PrepareFailsIff(rt: Runtime, sem: Semantics, c: Choice, s: Tables, e: Event)
    ensures var g := Prepare(rt, sem, c, s, e); g.Halted? && g.response == IngestError <==> Fails(rt, sem, c, s, e)
  {
    if InsertEvent(s, e, c.insert).1 == Inserted {
      var s1 := InsertEvent(s, e, c.insert).0;
      RecordFailsIff(rt, c, s1, e);
      JudgeFailsIff(rt, sem, c, Ask(RecordRevision(s1, e.id, rt.revision, c.revisionWrite).0, e.id), e);
    }
  }

  /** An ingest reports an error if and only if a write before the outcome failed or lost its
      acknowledgement, or an identifier it generated was already in use. */
  lemma IngestFailsIff(rt: Runtime, sem: Semantics, w: World, s: Tables, e: Event)
    ensures IngestResult(rt, sem, w, s, e).1 == IngestError <==> Fails(rt, sem, w(e.depth), s, e)
  {
    PrepareFailsIff(rt, sem, w(e.depth), s, e);
  }

  /** No write fails, and every generated identifier is unused. */
  ghost predicate Healthy(c: Choice, s: Tables, e: Event) {
    && c.insert == c.revisionWrite == c.decisionWrite == c.intentWrite == c.finishWrite == NoFault
    && e.id !in s.events && e.id !in s.revisions && c.decisionId !in s.decisions && c.executionId !in s.executions
  }

  /** The status an effect that is carried out leaves: success or failure as its adapter reports, and for
      a child event whether the child could be stored. */
  function EffectStatus(rt: Runtime, sem: Semantics, w: World, s: Tables, e: Event, dec: Decision, t: Then,
                        x: Execution): ExecutionStatus
    requires x.decision.Some? && x.chosenBy.Some?
  {
    if Suppressed(t, w(e.depth).blocked) then Shadowed
    else
      match Perform(rt, w(e.depth), s, e, dec, t, x)
      case Settled(_, ok) => Closing(ok)
      case Spawns(s1, child) => Closing(!Fails(rt, sem, w(child.depth), s1, child))
  }

  /** Exactly one decision and one execution of an event. */
  ghost predicate OneOfEach(s: Tables, id: Id, decision: Id, execution: Id) {
    && decision in s.decisions && s.decisions[decision].event == id
    && execution in s.executions && s.executions[execution].event == id
    && (forall d | d in s.decisions && s.decisions[d].event == id :: d == decision)
    && (forall x | x in s.executions && s.executions[x].event == id :: x == execution)
  }

  lemma HealthyJudges(rt: Runtime, sem: Semantics, c: Choice, s: Tables, e: Event)
    requires c.decisionWrite == c.intentWrite == NoFault && e.id in s.events
    requires c.decisionId !in s.decisions && c.executionId !in s.executions
    ensures var g := Judge(rt, sem, c, s, e);
      && g.Intended? && g.decision.id == c.decisionId && g.execution.id == c.executionId
      && g.decision == DecisionOf(e, SelectRoute(rt, e), c)
      && g.tables.revisions == s.revisions
      && g.tables.decisions == s.decisions[c.decisionId := g.decision]
      && g.tables.executions == s.executions[c.executionId := g.execution]
  {
  }

  lemma HealthyPrepares(rt: Runtime, sem: Semantics, c: Choice, s: Tables, e: Event)
    requires Healthy(c, s, e) && !Taken(s, KeyOf(e)) && Refusal(e, sem).None?
    ensures var g := Prepare(rt, sem, c, s, e);
      && g.Intended? && g.decision.id == c.decisionId && g.execution.id == c.executionId
      && g.decision == DecisionOf(e, SelectRoute(rt, e), c)
      && (rt.revision != "" ==> e.id in g.tables.revisions && g.tables.revisions[e.id] == rt.revision)
      && g.tables.decisions == s.decisions[c.decisionId := g.decision]
      && g.tables.executions == s.executions[c.executionId := g.execution]
  {
    var s1 := s.(events := s.events[e.id := e]);
    assert InsertEvent(s, e, c.insert) == (s1, Inserted);
    var s2 := RecordRevision(s1, e.id, rt.revision, c.revisionWrite).0;
    HealthyJudges(rt, sem, c, Ask(s2, e.id), e);
  }

  lemma ConcludesWith(rt: Runtime, sem: Semantics, w: World, s: Tables, e: Event, dec: Decision, t: Then, x: Execution)
    requires e.depth <= MAX_DEPTH && x.decision.Some? && x.chosenBy.Some?
    requires x.id in s.executions && s.executions[x.id] == x && w(e.depth).finishWrite == NoFault
    ensures var s' := Conclude(rt, sem, w, s, e, dec, t, x);
      x.id in s'.executions && s'.executions[x.id] == x.(status := EffectStatus(rt, sem, w, s, e, dec, t, x))
  {
    var c := w(e.depth);
    if !Suppressed(t, c.blocked) {
      var p := Perform(rt, c, s, e, dec, t, x);
      PerformOnlyNew(rt, c, s, e, dec, t, x);
      if p.Spawns? {
        IngestOnlyNew(rt, sem, w, p.tables, p.child);
        IngestFailsIff(rt, sem, w, p.tables, p.child);
      }
    }
  }

  lemma StaysOneOfEach(s: Tables, s': Tables, id: Id, decision: Id, execution: Id)
    requires OneOfEach(s, id, decision, execution) && id in s.events && OnlyNewBut(s, s', execution)
    ensures OneOfEach(s', id, decision, execution)
  {
    assert SameRow(s.executions[execution], s'.executions[execution]);
  }

  /** The completing half: with no storage fault and fresh identifiers, an admitted event that is new
      ends with its revision on record, exactly one decision, the model's, and exactly one execution,
      closed with the status of its effect; the answer is that decision's outcome. */
  lemma HealthyIngestCompletes(rt: Runtime, sem: Semantics, w: World, s: Tables, e: Event)
    requires Healthy(w(e.depth), s, e) && !Taken(s, KeyOf(e)) && Refusal(e, sem).None?
    requires NoDecision(s, e.id) && NoExecution(s, e.id)
    ensures var (s', r) := IngestResult(rt, sem, w, s, e);
      var g := Prepare(rt, sem, w(e.depth), s, e);
      && g.Intended? && r == Answered(Some(g.decision), Outcome(g.then_))
      && e.id in s'.events && s'.events[e.id] == e
      && (rt.revision != "" ==> e.id in s'.revisions && s'.revisions[e.id] == rt.revision)
      && OneOfEach(s', e.id, g.decision.id, g.execution.id)
      && s'.decisions[g.decision.id] == DecisionOf(e, SelectRoute(rt, e), w(e.depth))
      && s'.executions[g.execution.id]
         == g.execution.(status := EffectStatus(rt, sem, w, g.tables, e, g.decision, g.then_, g.execution))
  {
    var c := w(e.depth);
    var g := Prepare(rt, sem, c, s, e);
    HealthyPrepares(rt, sem, c, s, e);
    IntendedIsStored(rt, sem, c, s, e);
    assert OneOfEach(g.tables, e.id, g.decision.id, g.execution.id);
    ConcludeOnlyNew(rt, sem, w, g.tables, e, g.decision, g.then_, g.execution);
    ConcludesWith(rt, sem, w, g.tables, e, g.decision, g.then_, g.execution);
    StaysOneOfEach(g.tables, IngestResult(rt, sem, w, s, e).0, e.id, g.decision.id, g.execution.id);
  }

  /** A refused event, past the depth cap or filtered out, ends with the one row that says so and no
      judgment; no model is consulted and nothing is performed. */
  lemma HealthyRefusalCompletes(rt: Runtime, sem: Semantics, w: World, s: Tables, e: Event)
    requires Healthy(w(e.depth), s, e) && !Taken(s, KeyOf(e)) && Refusal(e, sem).Some?
    requires NoDecision(s, e.id) && NoExecution(s, e.id)
    ensures var (s', r) := IngestResult(rt, sem, w, s, e);
      var x := w(e.depth).executionId;
      && r == Answered(None, Ignores)
      && e.id in s'.events && s'.events[e.id] == e
      && NoDecision(s', e.id) && s'.asked == s.asked && s'.dispatched == s.dispatched
      && s'.executions == s.executions[x := RefusalFor(e, x, Refusal(e, sem).value)]
      && (forall y | y in s'.executions && s'.executions[y].event == e.id :: y == x)
  {
  }

  // ---- Closing the gate, as a refinement between two runs ----

  /** The same world except that the gate is closed when this event's check reads it. */
  ghost predicate Closes(w: World, w': World, depth: int) {
    w'(depth) == w(depth).(blocked := true) && forall d | d != depth :: w'(d) == w(d)
  }

  lemma PrepareIgnoresGate(rt: Runtime, sem: Semantics, c: Choice, s: Tables, e: Event)
    ensures Prepare(rt, sem, c.(blocked := true), s, e) == Prepare(rt, sem, c, s, e)
  {
    var s2 := RecordRevision(InsertEvent(s, e, c.insert).0, e.id, rt.revision, c.revisionWrite).0;
    JudgeIgnoresGate(rt, sem, c, Ask(s2, e.id), e);
  }

  lemma JudgeIgnoresGate(rt: Runtime, sem: Semantics, c: Choice, s: Tables, e: Event)
    ensures Judge(rt, sem, c.(blocked := true), s, e) == Judge(rt, sem, c, s, e)
  {
  }

  lemma FinishBelow(s: Tables, s': Tables, id: Id, status: ExecutionStatus, fault: WriteFault)
    requires Grows(s, s')
    ensures Grows(FinishExecution(s, id, status, fault), s')
  {
  }

  lemma IgnoringDoesNothing(rt: Runtime, sem: Semantics, w: World, s: Tables, e: Event, dec: Decision, t: Then,
                            x: Execution)
    requires e.depth <= MAX_DEPTH && x.decision.Some? && x.chosenBy.Some? && Outcome(t) == Ignores
    ensures var c := w(e.depth);
      Conclude(rt, sem, w, s, e, dec, t, x)
      == FinishExecution(s, x.id, if t.shadow then Shadowed else Succeeded, c.finishWrite)
  {
  }

  /** Rows of an ingest that the gate suppressed: judged exactly as with the gate open, and closed
      without an effect. */
  ghost predicate Suppresses(s: Tables, closed: Tables, e: Event) {
    && closed.dispatched == s.dispatched
    && (forall id | id in closed.events :: id in s.events || id == e.id)
    && (forall x | x in closed.executions && x !in s.executions && closed.executions[x].outcome != Ignores ::
          closed.executions[x].event == e.id
          && (closed.executions[x].status == Shadowed || closed.executions[x].status == Pending))
  }

  lemma JudgedQuietly(rt: Runtime, sem: Semantics, c: Choice, s: Tables, e: Event)
    ensures var s' := Judge(rt, sem, c, s, e).tables;
      && s'.dispatched == s.dispatched && s'.events == s.events
      && forall x | x in s'.executions && x !in s.executions ::
           s'.executions[x].event == e.id && s'.executions[x].status == Pending
  {
  }

  lemma RecordedQuietly(s: Tables, e: Event, fault: WriteFault, revision: string, second: WriteFault)
    ensures var s1 := InsertEvent(s, e, fault).0;
      var s2 := RecordRevision(s1, e.id, revision, second).0;
      && s1.dispatched == s2.dispatched == s.dispatched && s1.executions == s2.executions == s.executions
      && s2.events == s1.events && (s1.events == s.events || s1.events == s.events[e.id := e])
  {
  }

  lemma RefusedQuietly(s: Tables, e: Event, id: Id, status: ExecutionStatus, fault: WriteFault)
    ensures Suppresses(s, BeginExecution(s, RefusalFor(e, id, status), fault).0, e)
  {
  }

  lemma SuppressesSince(s: Tables, s2: Tables, closed: Tables, e: Event)
    requires Suppresses(s2, closed, e) && s2.dispatched == s.dispatched && s2.executions == s.executions
    requires s2.events == s.events || s2.events == s.events[e.id := e]
    ensures Suppresses(s, closed, e)
  {
  }

  lemma PreparedQuietly(rt: Runtime, sem: Semantics, c: Choice, s: Tables, e: Event)
    ensures Suppresses(s, Prepare(rt, sem, c, s, e).tables, e)
  {
    var s1 := InsertEvent(s, e, c.insert).0;
    var s2 := RecordRevision(s1, e.id, rt.revision, c.revisionWrite).0;
    var s' := Prepare(rt, sem, c, s, e).tables;
    PrepareStops(rt, sem, c, s, e);
    RecordedQuietly(s, e, c.insert, rt.revision, c.revisionWrite);
    JudgedQuietly(rt, sem, c, Ask(s2, e.id), e);
    if s' != s1 && s' != s2 {
      if Refusal(e, sem).Some? {
        RefusedQuietly(s2, e, c.executionId, Refusal(e, sem).value, c.intentWrite);
      }
      SuppressesSince(s, s2, s', e);
    }
  }

  lemma SuppressionFinishes(s: Tables, s1: Tables, e: Event, id: Id, fault: WriteFault)
    requires Suppresses(s, s1, e)
    requires id in s1.executions ==> id !in s.executions
    ensures Suppresses(s, FinishExecution(s1, id, Shadowed, fault), e)
  {
  }

  lemma IntentIsNew(rt: Runtime, sem: Semantics, c: Choice, s: Tables, e: Event)
    ensures var g := Prepare(rt, sem, c, s, e);
      g.Intended? ==> g.execution.id !in s.executions && g.execution.id in g.tables.executions && g.tables != s
  {
  }

  /** Everything recorded before the gate check is still there, and nothing but a status was changed. */
  ghost predicate KeepsJudgment(prepared: Tables, closed: Tables) {
    && Grows(prepared, closed)
    && closed.events == prepared.events && closed.decisions == prepared.decisions
    && closed.revisions == prepared.revisions && closed.asked == prepared.asked
    && closed.executions.Keys == prepared.executions.Keys
  }

  /** The two tables hold the same rows of one event, its execution's status aside. */
  ghost predicate SameOwnRows(open: Tables, closed: Tables, id: Id) {
    && (id in open.events <==> id in closed.events) && (id in open.events ==> open.events[id] == closed.events[id])
    && (id in open.revisions <==> id in closed.revisions)
    && (id in open.revisions ==> open.revisions[id] == closed.revisions[id])
    && (forall d | d in open.decisions && open.decisions[d].event == id ::
          d in closed.decisions && closed.decisions[d] == open.decisions[d])
    && (forall d | d in closed.decisions && closed.decisions[d].event == id ::
          d in open.decisions && open.decisions[d] == closed.decisions[d])
    && (forall x | x in open.executions && open.executions[x].event == id ::
          x in closed.executions && SameRow(closed.executions[x], open.executions[x]))
    && (forall x | x in closed.executions && closed.executions[x].event == id ::
          x in open.executions && SameRow(closed.executions[x], open.executions[x]))
  }

  lemma ShadowedKeeps(s: Tables, id: Id, fault: WriteFault)
    ensures KeepsJudgment(s, FinishExecution(s, id, Shadowed, fault))
  {
  }

  lemma RowsStaySame(prepared: Tables, open: Tables, closed: Tables, id: Id, x: Id)
    requires id in prepared.events && OnlyNewBut(prepared, open, x) && KeepsJudgment(prepared, closed)
    ensures SameOwnRows(open, closed, id)
  {
  }

  /** What a judged ingest has on record when it reaches its gate check, or is answered without one. */
  ghost predicate OnRecord(g: Stage, e: Event) {
    && (g.Intended? ==>
          && e.id in g.tables.events && g.tables.events[e.id] == e
          && g.decision.id in g.tables.decisions && g.tables.decisions[g.decision.id] == g.decision
          && g.execution.id in g.tables.executions && g.tables.executions[g.execution.id] == g.execution
          && g.execution.status == Pending && g.execution.event == e.id && g.decision.event == e.id)
    && (g.Halted? && g.response.Answered? && g.response.decision.Some? ==>
          && e.id in g.tables.events && g.tables.events[e.id] == e
          && var d := g.response.decision.value;
             d.id in g.tables.decisions && g.tables.decisions[d.id] == d)
  }

  lemma JudgedIsStored(rt: Runtime, sem: Semantics, c: Choice, s: Tables, e: Event)
    requires e.id in s.events && s.events[e.id] == e
    ensures OnRecord(Judge(rt, sem, c, s, e), e)
  {
    var route := SelectRoute(rt, e);
    var dec := DecisionOf(e, route, c);
    var (t, rule) := Select(route.policy, dec, e, sem);
    var s1 := InsertDecision(s, dec, c.decisionWrite).0;
    DecisionStored(s, dec, c.decisionWrite);
    IntentStored(s1, IntentFor(e, dec, t, rule, route.policy, c.executionId), c.intentWrite);
  }

  lemma DecisionStored(s: Tables, d: Decision, fault: WriteFault)
    ensures var (s', ok) := InsertDecision(s, d, fault);
      s'.events == s.events && (ok ==> d.id in s'.decisions && s'.decisions[d.id] == d)
  {
  }

  lemma IntentStored(s: Tables, x: Execution, fault: WriteFault)
    ensures var (s', ok) := BeginExecution(s, x, fault);
      && s'.events == s.events && s'.decisions == s.decisions
      && (ok ==> x.id in s'.executions && s'.executions[x.id] == x)
  {
  }

  lemma PrepareJudges(rt: Runtime, sem: Semantics, c: Choice, s: Tables, e: Event)
    ensures var s2 := RecordRevision(InsertEvent(s, e, c.insert).0, e.id, rt.revision, c.revisionWrite).0;
      var g := Prepare(rt, sem, c, s, e);
      || (g == Judge(rt, sem, c, Ask(s2, e.id), e) && e.id in s2.events && s2.events[e.id] == e)
      || (g.Halted? && (g.response.Answered? ==> g.response == Answered(None, Ignores)))
  {
  }

  lemma IntendedIsStored(rt: Runtime, sem: Semantics, c: Choice, s: Tables, e: Event)
    ensures OnRecord(Prepare(rt, sem, c, s, e), e)
  {
    PrepareJudges(rt, sem, c, s, e);
    var s2 := RecordRevision(InsertEvent(s, e, c.insert).0, e.id, rt.revision, c.revisionWrite).0;
    if e.id in s2.events && s2.events[e.id] == e {
      JudgedIsStored(rt, sem, c, Ask(s2, e.id), e);
    }
  }

  lemma JudgedOutcomes(rt: Runtime, sem: Semantics, c: Choice, s: Tables, e: Event)
    ensures var g := Prepare(rt, sem, c, s, e);
      g.Halted? && g.response.Answered? && g.response.outcome != Ignores ==> g.response.decision.Some?
  {
  }

  /** Closing the gate keeps the event, its revision, its decision, its execution row with the outcome,
      the policy line and the adapter, and the response: the two runs hold the same rows of the event
      but for the execution's status. A run with a non-ignore outcome has stored everything up to its
      intent, has the decision it answers on record, and loses its effect and its descendants; any other
      run is the same in every respect. */
  lemma ClosedGateOnlySuppresses(rt: Runtime, sem: Semantics, w: World, w': World, s: Tables, e: Event)
    requires Closes(w, w', e.depth)
    ensures var (open, r) := IngestResult(rt, sem, w, s, e);
      var (closed, r') := IngestResult(rt, sem, w', s, e);
      && r' == r
      && Grows(closed, open)
      && SameOwnRows(open, closed, e.id)
      && if r.Answered? && r.outcome != Ignores then
           && KeepsJudgment(Prepare(rt, sem, w(e.depth), s, e).tables, closed)
           && e.id in closed.events && closed.events[e.id] == e
           && r.decision.Some? && r.decision.value.id in closed.decisions
           && closed.decisions[r.decision.value.id] == r.decision.value
           && Suppresses(s, closed, e)
         else closed == open
  {
    var c := w(e.depth);
    var g := Prepare(rt, sem, c, s, e);
    PrepareIgnoresGate(rt, sem, c, s, e);
    PreparedQuietly(rt, sem, c, s, e);
    IntendedIsStored(rt, sem, c, s, e);
    JudgedOutcomes(rt, sem, c, s, e);
    if g.Intended? {
      var (dec, t, x) := (g.decision, g.then_, g.execution);
      if Outcome(t) == Ignores {
        IgnoringDoesNothing(rt, sem, w, g.tables, e, dec, t, x);
        IgnoringDoesNothing(rt, sem, w', g.tables, e, dec, t, x);
      } else {
        ClosedAfterIntent(rt, sem, w, s, e, g);
      }
    }
  }

  lemma ClosedAfterIntent(rt: Runtime, sem: Semantics, w: World, s: Tables, e: Event, g: Stage)
    requires g == Prepare(rt, sem, w(e.depth), s, e) && g.Intended? && Suppresses(s, g.tables, e)
    requires e.id in g.tables.events && g.execution.id in g.tables.executions
    ensures var c := w(e.depth);
      var open := Conclude(rt, sem, w, g.tables, e, g.decision, g.then_, g.execution);
      var closed := FinishExecution(g.tables, g.execution.id, Shadowed, c.finishWrite);
      && Grows(closed, open) && SameOwnRows(open, closed, e.id)
      && KeepsJudgment(g.tables, closed) && Suppresses(s, closed, e)
  {
    var (c, x) := (w(e.depth), g.execution.id);
    var open := Conclude(rt, sem, w, g.tables, e, g.decision, g.then_, g.execution);
    ConcludeOnlyNew(rt, sem, w, g.tables, e, g.decision, g.then_, g.execution);
    FinishBelow(g.tables, open, x, Shadowed, c.finishWrite);
    ShadowedKeeps(g.tables, x, c.finishWrite);
    RowsStaySame(g.tables, open, FinishExecution(g.tables, x, Shadowed, c.finishWrite), e.id, x);
    IntentIsNew(rt, sem, c, s, e);
    SuppressionFinishes(s, g.tables, e, x, c.finishWrite);
  }

  // ---- Failing toward ignore ----

  /** A model that is down, or whose output is invalid, cannot trigger anything: whatever the policy, no
      effect is performed, no child is stored, and the answer is ignore. */
  lemma FailedModelIsHarmless(rt: Runtime, sem: Semantics, w: World, s: Tables, e: Event)
    requires !w(e.depth).reply.ModelAnswer?
    ensures var (s', r) := IngestResult(rt, sem, w, s, e);
      && s'.dispatched == s.dispatched
      && (forall id | id in s'.events :: id in s.events || id == e.id)
      && (r.Answered? ==> r.outcome == Ignores)
      && (forall d | d in s'.decisions && d !in s.decisions ::
        s'.decisions[d].status != Ok && s'.decisions[d].result == map[])
  {
    var c := w(e.depth);
    var g := Prepare(rt, sem, c, s, e);
    PreparedQuietly(rt, sem, c, s, e);
    FailedDecisions(rt, sem, c, s, e);
    if g.Intended? {
      IgnoringDoesNothing(rt, sem, w, g.tables, e, g.decision, g.then_, g.execution);
    }
  }

  ghost predicate NoJudgment(g: Stage, before: map<Id, Decision>) {
    && (g.Intended? ==> Outcome(g.then_) == Ignores)
    && (g.Halted? && g.response.Answered? ==> g.response.outcome == Ignores)
    && (forall d | d in g.tables.decisions && d !in before ::
          g.tables.decisions[d].status != Ok && g.tables.decisions[d].result == map[])
  }

  lemma FailedJudgment(rt: Runtime, sem: Semantics, c: Choice, s: Tables, e: Event)
    requires !c.reply.ModelAnswer?
    ensures NoJudgment(Judge(rt, sem, c, s, e), s.decisions)
  {
    var route := SelectRoute(rt, e);
    var dec := DecisionOf(e, route, c);
    FailureIsIgnored(route, c, e, sem);
    var s1 := InsertDecision(s, dec, c.decisionWrite).0;
    var x := IntentFor(e, dec, IGNORE, DecisionFailed, route.policy, c.executionId);
    assert BeginExecution(s1, x, c.intentWrite).0.decisions == s1.decisions;
  }

  lemma FailureIsIgnored(route: Route, c: Choice, e: Event, sem: Semantics)
    requires !c.reply.ModelAnswer?
    ensures var dec := DecisionOf(e, route, c);
      dec.status != Ok && dec.result == map[] && Select(route.policy, dec, e, sem) == (IGNORE, DecisionFailed)
  {
  }

  lemma UnjudgedTables(s: Tables, e: Event, sem: Semantics, c: Choice, revision: string)
    ensures var s1 := InsertEvent(s, e, c.insert).0;
      var s2 := RecordRevision(s1, e.id, revision, c.revisionWrite).0;
      && s1.decisions == s2.decisions == s.decisions
      && (Refusal(e, sem).Some? ==>
            BeginExecution(s2, RefusalFor(e, c.executionId, Refusal(e, sem).value), c.intentWrite).0.decisions == s.decisions)
  {
  }

  /** Only a judged ingest can answer with anything but ignore. */
  lemma PrepareAnswers(rt: Runtime, sem: Semantics, c: Choice, s: Tables, e: Event)
    ensures var s2 := RecordRevision(InsertEvent(s, e, c.insert).0, e.id, rt.revision, c.revisionWrite).0;
      var g := Prepare(rt, sem, c, s, e);
      || (Refusal(e, sem).None? && g == Judge(rt, sem, c, Ask(s2, e.id), e))
      || (g.Halted? && (g.response.Answered? ==> g.response.outcome == Ignores))
  {
  }

  lemma FailedDecisions(rt: Runtime, sem: Semantics, c: Choice, s: Tables, e: Event)
    requires !c.reply.ModelAnswer?
    ensures NoJudgment(Prepare(rt, sem, c, s, e), s.decisions)
  {
    var s2 := RecordRevision(InsertEvent(s, e, c.insert).0, e.id, rt.revision, c.revisionWrite).0;
    PrepareStops(rt, sem, c, s, e);
    PrepareAnswers(rt, sem, c, s, e);
    UnjudgedTables(s, e, sem, c, rt.revision);
    FailedJudgment(rt, sem, c, Ask(s2, e.id), e);
  }

  // ---- Evaluation and operation ----

  datatype Verdict = Verdict(interpreter: Interpretation, model: ModelConfig, policy: Policy, outcome: OutcomeName)

  /** What offline evaluation makes of one case. */
  function EvaluateCase(c: Config, e: Event, reply: Reply, sem: Semantics): Verdict {
    var spec := InterpreterFor(c, e);
    Verdict(spec, ModelNamed(c.models, spec.model), PolicyFor(c, e),
            match reply
            case ModelAnswer(result, _) => Outcome(EvaluateEvent(PolicyFor(c, e), result, e, sem).0)
            case InvalidAnswer(_) => Ignores
            case ModelError(_) => Ignores)
  }

  /** For every configuration, event and model reply, a judged ingest consulted the interpreter and
      model evaluation consults, under the policy evaluation uses, and answered evaluation's outcome. */
  lemma EvaluationAgrees(cfg: Config, revision: string, sem: Semantics, w: World, s: Tables, e: Event)
    ensures var (s', r) := IngestResult(Snapshot(cfg, revision), sem, w, s, e);
      var v := EvaluateCase(cfg, e, w(e.depth).reply, sem);
      && SelectRoute(Snapshot(cfg, revision), e) == Route(v.interpreter, v.model, v.policy)
      && (r.Answered? && r.decision.Some? ==>
            && r.outcome == v.outcome
            && r.decision.value == DecisionOf(e, Route(v.interpreter, v.model, v.policy), w(e.depth)))
      && (r.Answered? && r.decision.None? ==> Refusal(e, sem).Some?)
  {
  }
}
