/** What the tables promise at every moment, and that each single write keeps it. */
module Invariants {
  import opened Domain
  import opened PolicyRules
  import opened Configuration
  import opened Store
  import opened Pipeline

  // ---- The promises ----

  ghost predicate UniqueKeys(s: Tables) {
    && (forall id | id in s.events :: s.events[id].id == id)
    && (forall i, j | i in s.events && j in s.events && KeyOf(s.events[i]) == KeyOf(s.events[j]) :: i == j)
  }

  ghost predicate OneDecisionEach(s: Tables) {
    && (forall d | d in s.decisions :: s.decisions[d].id == d && s.decisions[d].event in s.events)
    && (forall c, d | c in s.decisions && d in s.decisions && s.decisions[c].event == s.decisions[d].event :: c == d)
  }

  ghost predicate OneExecutionEach(s: Tables) {
    && (forall x | x in s.executions :: s.executions[x].id == x && s.executions[x].event in s.events)
    && (forall x, y | x in s.executions && y in s.executions && s.executions[x].event == s.executions[y].event ::
      x == y)
  }

  /** A row without judgment is an ignore that ended as the depth guard or the filter left it. Any
      other row records exactly what its policy selects for its decision. */
  ghost predicate RowOk(s: Tables, x: Execution, sem: Semantics) {
    match x.decision
    case None =>
      x.outcome == Ignores && x.adapter == NoAdapter && x.chosenBy == None
      && (x.status == Succeeded || x.status == Filtered)
    case Some(d) =>
      && d in s.decisions && s.decisions[d].event == x.event && x.event in s.events
      && x.chosenBy.Some?
      && x.status != Filtered
      && var (t, rule) := Select(x.chosenBy.value.policy, s.decisions[d], s.events[x.event], sem);
         x.chosenBy.value.rule == rule && x.outcome == Outcome(t) && x.adapter == AdapterFor(t)
  }

  ghost predicate RowsOk(s: Tables, sem: Semantics) {
    forall x {:trigger RowOk(s, s.executions[x], sem)} | x in s.executions :: RowOk(s, s.executions[x], sem)
  }

  /** A dispatch has its own execution row, tied to an ok decision and to the outcome the row's
      policy selects for it, which is live; the row never ends shadowed or filtered. */
  ghost predicate DispatchOk(s: Tables, d: Dispatch, sem: Semantics) {
    && d.execution in s.executions
    && var x := s.executions[d.execution];
       && x.event == d.event && d.event in s.events
       && x.decision == Some(d.decision) && d.decision in s.decisions
       && s.decisions[d.decision].status == Ok
       && x.chosenBy.Some?
       && d.performed == Select(x.chosenBy.value.policy, s.decisions[d.decision], s.events[d.event], sem).0
       && !d.performed.shadow
       && ExecutedBranch(d.performed) != NoBranch
       && x.status != Shadowed && x.status != Filtered
  }

  ghost predicate DispatchesOk(s: Tables, sem: Semantics) {
    && (forall i {:trigger DispatchOk(s, s.dispatched[i], sem)} | 0 <= i < |s.dispatched| ::
      DispatchOk(s, s.dispatched[i], sem))
    && (forall i, j | 0 <= i < j < |s.dispatched| :: s.dispatched[i].event != s.dispatched[j].event)
  }

  ghost predicate AskedOnce(s: Tables) {
    && (forall i | 0 <= i < |s.asked| :: s.asked[i] in s.events)
    && (forall i, j | 0 <= i < j < |s.asked| :: s.asked[i] != s.asked[j])
  }

  function OriginOf(e: Event): Id {
    if e.provenance.Some? then e.provenance.value.origin else e.id
  }

  predicate ChildOf(e: Event, parent: Event, p: Provenance) {
    e.depth == parent.depth + 1 && 0 <= parent.depth <= MAX_DEPTH && p.origin == OriginOf(parent)
  }

  predicate Names(p: Provenance, x: Execution) {
    x.event == p.parent && x.decision == Some(p.decision) && x.chosenBy == Some(Selection(p.rule, p.policy))
  }

  /** A child's delivery identity: an emitted event is named by its parent, a completion by the execution
      that delegated. */
  predicate Identified(e: Event, p: Provenance) {
    (e.source == "mrmr" && e.sourceId == p.parent) || (e.source == "mrmr.agent" && e.sourceId == p.execution)
  }

  /** What a child carries over: its parent's subject, and as data either the judgment that emitted it or
      the agent's own name beside its result. */
  predicate Inherits(e: Event, parent: Event, dec: Decision, p: Provenance) {
    && e.subject == parent.subject
    && (e.source == "mrmr" ==> e.data == dec.result)
    && (e.source == "mrmr.agent" ==> "agent" in e.data && e.data["agent"] == Text(p.agent))
  }

  /** An event came from outside at depth 0, or from a stored parent one level up whose own decision
      and execution rows its lineage names, and from which it inherits. */
  ghost predicate WellBorn(s: Tables, e: Event) {
    match e.provenance
    case None => e.depth == 0
    case Some(p) =>
      && p.parent in s.events && ChildOf(e, s.events[p.parent], p)
      && p.decision in s.decisions && s.decisions[p.decision].event == p.parent
      && p.execution in s.executions && Names(p, s.executions[p.execution])
      && Identified(e, p) && Inherits(e, s.events[p.parent], s.decisions[p.decision], p)
  }

  ghost predicate Lineage(s: Tables) {
    forall id {:trigger WellBorn(s, s.events[id])} | id in s.events :: WellBorn(s, s.events[id])
  }

  ghost predicate StoreOk(s: Tables, sem: Semantics) {
    && UniqueKeys(s) && OneDecisionEach(s) && OneExecutionEach(s)
    && RowsOk(s, sem) && DispatchesOk(s, sem) && AskedOnce(s) && Lineage(s)
  }

  // ---- What is known to be absent for an event still on its way ----

  ghost predicate NoDecision(s: Tables, id: Id) { forall d | d in s.decisions :: s.decisions[d].event != id }
  ghost predicate NoExecution(s: Tables, id: Id) { forall x | x in s.executions :: s.executions[x].event != id }
  ghost predicate NoDispatch(s: Tables, id: Id) { forall i | 0 <= i < |s.dispatched| :: s.dispatched[i].event != id }

  // ---- Growth: nothing stored is lost, and a row changes only its status ----

  ghost predicate SameRow(x: Execution, y: Execution) {
    y == x.(status := y.status)
  }

  ghost predicate Grows(s: Tables, s': Tables) {
    && (forall id | id in s.events :: id in s'.events && s'.events[id] == s.events[id])
    && (forall d | d in s.decisions :: d in s'.decisions && s'.decisions[d] == s.decisions[d])
    && (forall x | x in s.executions :: x in s'.executions && SameRow(s.executions[x], s'.executions[x]))
    && (forall r | r in s.revisions :: r in s'.revisions && s'.revisions[r] == s.revisions[r])
    && s.dispatched <= s'.dispatched
    && s.asked <= s'.asked
  }

  /** Growth confined to the rows of one event. */
  ghost predicate Touches(s: Tables, s': Tables, id: Id) {
    && Grows(s, s')
    && (forall d | d in s'.decisions && s'.decisions[d].event != id :: d in s.decisions)
    && (forall x | x in s'.executions && s'.executions[x].event != id ::
          x in s.executions && s'.executions[x] == s.executions[x])
    && (forall r | r in s'.revisions && r != id :: r in s.revisions)
    && (forall i | |s.dispatched| <= i < |s'.dispatched| :: s'.dispatched[i].event == id)
    && (forall i | |s.asked| <= i < |s'.asked| :: s'.asked[i] == id)
  }

  lemma TouchesSelf(s: Tables, id: Id)
    ensures Touches(s, s, id)
  {
  }

  lemma TouchesKeepsAbsence(s: Tables, s': Tables, id: Id, other: Id)
    requires Touches(s, s', id) && other != id
    ensures NoDecision(s, other) ==> NoDecision(s', other)
    ensures NoExecution(s, other) ==> NoExecution(s', other)
    ensures NoDispatch(s, other) ==> NoDispatch(s', other)
    ensures other !in s.asked ==> other !in s'.asked
    ensures other !in s.revisions ==> other !in s'.revisions
  {
  }

  // ---- One row at a time under growth ----

  lemma WellBornGrows(s: Tables, s': Tables, e: Event)
    requires Grows(s, s') && WellBorn(s, e)
    ensures WellBorn(s', e)
  {
  }

  lemma RowOkGrows(s: Tables, s': Tables, x: Execution, sem: Semantics)
    requires Grows(s, s') && RowOk(s, x, sem)
    ensures RowOk(s', x, sem)
  {
  }

  lemma DispatchOkGrows(s: Tables, s': Tables, d: Dispatch, sem: Semantics)
    requires Grows(s, s') && DispatchOk(s, d, sem)
    requires s'.executions[d.execution].status != Shadowed && s'.executions[d.execution].status != Filtered
    ensures DispatchOk(s', d, sem)
  {
  }

  // ---- Whole tables under growth ----

  lemma LineageGrows(s: Tables, s': Tables)
    requires Grows(s, s') && Lineage(s)
    requires forall id | id in s'.events && id !in s.events :: WellBorn(s, s'.events[id])
    ensures Lineage(s')
  {
    forall id | id in s'.events ensures WellBorn(s', s'.events[id]) {
      assert id in s.events ==> WellBorn(s, s.events[id]);
      WellBornGrows(s, s', s'.events[id]);
    }
  }

  lemma RowsGrow(s: Tables, s': Tables, sem: Semantics)
    requires Grows(s, s') && RowsOk(s, sem)
    requires forall x | x in s'.executions && x !in s.executions :: RowOk(s, s'.executions[x], sem)
    requires forall x | x in s.executions :: s'.executions[x] == s.executions[x]
    ensures RowsOk(s', sem)
  {
    forall x | x in s'.executions ensures RowOk(s', s'.executions[x], sem) {
      assert x in s.executions ==> RowOk(s, s.executions[x], sem);
      RowOkGrows(s, s', s'.executions[x], sem);
    }
  }

  lemma DispatchesGrow(s: Tables, s': Tables, sem: Semantics)
    requires Grows(s, s') && DispatchesOk(s, sem) && s'.dispatched == s.dispatched
    requires forall x | x in s.executions :: s'.executions[x] == s.executions[x]
    ensures DispatchesOk(s', sem)
  {
    forall i | 0 <= i < |s'.dispatched| ensures DispatchOk(s', s'.dispatched[i], sem) {
      assert DispatchOk(s, s.dispatched[i], sem);
      DispatchOkGrows(s, s', s.dispatched[i], sem);
    }
  }

  // ---- Each write keeps the promises ----

  /** What a successful insert establishes about a new event. */
  ghost predicate Untouched(s: Tables, id: Id) {
    NoDecision(s, id) && NoExecution(s, id) && NoDispatch(s, id) && id !in s.asked
  }

  lemma UnknownIsUntouched(s: Tables, id: Id, sem: Semantics)
    requires StoreOk(s, sem) && id !in s.events
    ensures Untouched(s, id)
  {
    forall i | 0 <= i < |s.dispatched| ensures s.dispatched[i].event != id {
      assert DispatchOk(s, s.dispatched[i], sem);
    }
  }

  /** Writes that leave existing rows and the dispatch log alone need only the local promises. */
  lemma QuietWriteKeeps(s: Tables, s': Tables, sem: Semantics)
    requires StoreOk(s, sem) && Grows(s, s') && s'.dispatched == s.dispatched
    requires forall x | x in s.executions :: s'.executions[x] == s.executions[x]
    requires UniqueKeys(s') && OneDecisionEach(s') && OneExecutionEach(s') && AskedOnce(s')
    requires forall x | x in s'.executions && x !in s.executions :: RowOk(s, s'.executions[x], sem)
    requires forall id | id in s'.events && id !in s.events :: WellBorn(s, s'.events[id])
    ensures StoreOk(s', sem)
  {
    LineageGrows(s, s');
    RowsGrow(s, s', sem);
    DispatchesGrow(s, s', sem);
  }

  lemma InsertTouches(s: Tables, e: Event, s': Tables)
    requires e.id !in s.events && s' == s.(events := s.events[e.id := e])
    ensures Touches(s, s', e.id)
  {
  }

  lemma InsertLocal(s: Tables, e: Event, s': Tables)
    requires UniqueKeys(s) && OneDecisionEach(s) && OneExecutionEach(s) && AskedOnce(s)
    requires e.id !in s.events && !Taken(s, KeyOf(e)) && s' == s.(events := s.events[e.id := e])
    ensures UniqueKeys(s') && OneDecisionEach(s') && OneExecutionEach(s') && AskedOnce(s')
  {
  }

  lemma InsertedOk(s: Tables, e: Event, s': Tables, sem: Semantics)
    requires StoreOk(s, sem) && WellBorn(s, e)
    requires e.id !in s.events && !Taken(s, KeyOf(e)) && s' == s.(events := s.events[e.id := e])
    ensures StoreOk(s', sem) && Touches(s, s', e.id) && Untouched(s', e.id)
  {
    InsertTouches(s, e, s');
    InsertLocal(s, e, s');
    UnknownIsUntouched(s, e.id, sem);
    QuietWriteKeeps(s, s', sem);
  }

  lemma InsertKeeps(s: Tables, e: Event, fault: WriteFault, sem: Semantics)
    requires StoreOk(s, sem) && WellBorn(s, e)
    ensures var (s', r) := InsertEvent(s, e, fault);
      && StoreOk(s', sem) && Touches(s, s', e.id)
      && (r == Inserted ==> e.id in s'.events && s'.events[e.id] == e && e.id !in s.events && Untouched(s', e.id))
  {
    var s' := InsertEvent(s, e, fault).0;
    TouchesSelf(s, e.id);
    if s' != s {
      InsertedOk(s, e, s', sem);
    }
  }

  lemma RevisionKeeps(s: Tables, id: Id, revision: string, fault: WriteFault, sem: Semantics)
    requires StoreOk(s, sem)
    ensures var s' := RecordRevision(s, id, revision, fault).0; StoreOk(s', sem) && Touches(s, s', id)
  {
    var s' := RecordRevision(s, id, revision, fault).0;
    if s' != s {
      RevisionTouches(s, id, revision);
      QuietWriteKeeps(s, s', sem);
    }
  }

  lemma RevisionTouches(s: Tables, id: Id, revision: string)
    requires id !in s.revisions
    ensures Touches(s, s.(revisions := s.revisions[id := revision]), id)
  {
  }

  lemma AskTouches(s: Tables, id: Id)
    ensures Touches(s, Ask(s, id), id)
    ensures AskedOnce(s) && id in s.events && id !in s.asked ==> AskedOnce(Ask(s, id))
  {
  }

  lemma AskKeeps(s: Tables, id: Id, sem: Semantics)
    requires StoreOk(s, sem) && id in s.events && id !in s.asked
    ensures StoreOk(Ask(s, id), sem) && Touches(s, Ask(s, id), id)
  {
    AskTouches(s, id);
    QuietWriteKeeps(s, Ask(s, id), sem);
  }

  lemma DecisionTouches(s: Tables, d: Decision, s': Tables)
    requires d.id !in s.decisions && s' == s.(decisions := s.decisions[d.id := d])
    ensures Touches(s, s', d.event)
  {
  }

  lemma DecisionUnique(s: Tables, d: Decision, s': Tables)
    requires OneDecisionEach(s) && d.id !in s.decisions && d.event in s.events && NoDecision(s, d.event)
    requires s' == s.(decisions := s.decisions[d.id := d])
    ensures OneDecisionEach(s')
  {
  }

  lemma DecidedOk(s: Tables, d: Decision, s': Tables, sem: Semantics)
    requires StoreOk(s, sem) && NoDecision(s, d.event) && d.event in s.events
    requires d.id !in s.decisions && s' == s.(decisions := s.decisions[d.id := d])
    ensures StoreOk(s', sem) && Touches(s, s', d.event)
  {
    DecisionTouches(s, d, s');
    DecisionUnique(s, d, s');
    QuietWriteKeeps(s, s', sem);
  }

  lemma DecisionKeeps(s: Tables, d: Decision, fault: WriteFault, sem: Semantics)
    requires StoreOk(s, sem) && NoDecision(s, d.event)
    ensures var (s', done) := InsertDecision(s, d, fault);
      StoreOk(s', sem) && Touches(s, s', d.event) && (done ==> d.id in s'.decisions && s'.decisions[d.id] == d)
  {
    var s' := InsertDecision(s, d, fault).0;
    TouchesSelf(s, d.event);
    if s' != s {
      DecidedOk(s, d, s', sem);
    }
  }

  lemma BeginTouches(s: Tables, x: Execution, s': Tables)
    requires x.id !in s.executions && s' == s.(executions := s.executions[x.id := x])
    ensures Touches(s, s', x.event)
  {
  }

  lemma BeginUnique(s: Tables, x: Execution, s': Tables)
    requires OneExecutionEach(s) && x.id !in s.executions && x.event in s.events && NoExecution(s, x.event)
    requires s' == s.(executions := s.executions[x.id := x])
    ensures OneExecutionEach(s')
  {
  }

  lemma BegunOk(s: Tables, x: Execution, s': Tables, sem: Semantics)
    requires StoreOk(s, sem) && NoExecution(s, x.event) && RowOk(s, x, sem)
    requires x.id !in s.executions && x.event in s.events && s' == s.(executions := s.executions[x.id := x])
    ensures StoreOk(s', sem) && Touches(s, s', x.event)
  {
    BeginTouches(s, x, s');
    BeginUnique(s, x, s');
    QuietWriteKeeps(s, s', sem);
  }

  lemma BeginKeeps(s: Tables, x: Execution, fault: WriteFault, sem: Semantics)
    requires StoreOk(s, sem) && NoExecution(s, x.event) && RowOk(s, x, sem)
    ensures var (s', done) := BeginExecution(s, x, fault);
      StoreOk(s', sem) && Touches(s, s', x.event) && (done ==> x.id in s'.executions && s'.executions[x.id] == x)
  {
    var s' := BeginExecution(s, x, fault).0;
    TouchesSelf(s, x.event);
    if s' != s {
      BegunOk(s, x, s', sem);
    }
  }

  lemma DispatchLocal(s: Tables, d: Dispatch, s': Tables)
    requires s' == LogDispatch(s, d)
    ensures Touches(s, s', d.event)
    ensures UniqueKeys(s) ==> UniqueKeys(s')
    ensures OneDecisionEach(s) ==> OneDecisionEach(s')
    ensures OneExecutionEach(s) ==> OneExecutionEach(s')
    ensures AskedOnce(s) ==> AskedOnce(s')
  {
  }

  lemma DispatchKeeps(s: Tables, d: Dispatch, sem: Semantics)
    requires StoreOk(s, sem) && DispatchOk(s, d, sem) && NoDispatch(s, d.event)
    ensures StoreOk(LogDispatch(s, d), sem) && Touches(s, LogDispatch(s, d), d.event)
  {
    var s' := LogDispatch(s, d);
    DispatchLocal(s, d, s');
    LineageGrows(s, s');
    RowsGrow(s, s', sem);
    LoggedOk(s, d, sem);
  }

  lemma LoggedOk(s: Tables, d: Dispatch, sem: Semantics)
    requires DispatchesOk(s, sem) && DispatchOk(s, d, sem) && NoDispatch(s, d.event)
    requires Grows(s, LogDispatch(s, d))
    ensures DispatchesOk(LogDispatch(s, d), sem)
  {
    var s' := LogDispatch(s, d);
    forall i | 0 <= i < |s'.dispatched| ensures DispatchOk(s', s'.dispatched[i], sem) {
      if i < |s.dispatched| {
        assert DispatchOk(s, s.dispatched[i], sem);
      }
      DispatchOkGrows(s, s', s'.dispatched[i], sem);
    }
  }

  lemma FinishTouches(s: Tables, id: Id, status: ExecutionStatus, s': Tables)
    requires id in s.executions && s' == s.(executions := s.executions[id := s.executions[id].(status := status)])
    ensures Touches(s, s', s.executions[id].event)
  {
  }

  lemma FinishUnique(s: Tables, id: Id, status: ExecutionStatus, s': Tables)
    requires id in s.executions && s' == s.(executions := s.executions[id := s.executions[id].(status := status)])
    requires OneExecutionEach(s)
    ensures OneExecutionEach(s')
  {
  }

  lemma FinishedRowsOk(s: Tables, id: Id, status: ExecutionStatus, s': Tables, sem: Semantics)
    requires id in s.executions && s' == s.(executions := s.executions[id := s.executions[id].(status := status)])
    requires RowsOk(s, sem) && Grows(s, s') && status != Filtered && s.executions[id].decision.Some?
    ensures RowsOk(s', sem)
  {
    forall x | x in s'.executions ensures RowOk(s', s'.executions[x], sem) {
      assert RowOk(s, s.executions[x], sem);
      RowOkGrows(s, s', s.executions[x], sem);
    }
  }

  lemma FinishedDispatchesOk(s: Tables, id: Id, status: ExecutionStatus, s': Tables, sem: Semantics)
    requires id in s.executions && s' == s.(executions := s.executions[id := s.executions[id].(status := status)])
    requires DispatchesOk(s, sem) && Grows(s, s') && status != Filtered
    requires status == Shadowed ==> NoDispatch(s, s.executions[id].event)
    ensures DispatchesOk(s', sem)
  {
    forall i | 0 <= i < |s'.dispatched| ensures DispatchOk(s', s'.dispatched[i], sem) {
      assert DispatchOk(s, s.dispatched[i], sem);
      DispatchOkGrows(s, s', s.dispatched[i], sem);
    }
  }

  lemma FinishedOk(s: Tables, id: Id, status: ExecutionStatus, s': Tables, sem: Semantics)
    requires id in s.executions && s' == s.(executions := s.executions[id := s.executions[id].(status := status)])
    requires StoreOk(s, sem) && s.executions[id].decision.Some?
    requires status != Filtered && (status == Shadowed ==> NoDispatch(s, s.executions[id].event))
    ensures StoreOk(s', sem) && Touches(s, s', s.executions[id].event)
  {
    FinishTouches(s, id, status, s');
    FinishUnique(s, id, status, s');
    LineageGrows(s, s');
    FinishedRowsOk(s, id, status, s', sem);
    FinishedDispatchesOk(s, id, status, s', sem);
  }

  lemma FinishKeeps(s: Tables, id: Id, status: ExecutionStatus, fault: WriteFault, sem: Semantics)
    requires StoreOk(s, sem) && id in s.executions && s.executions[id].decision.Some?
    requires status != Filtered && (status == Shadowed ==> NoDispatch(s, s.executions[id].event))
    ensures var s' := FinishExecution(s, id, status, fault); StoreOk(s', sem) && Touches(s, s', s.executions[id].event)
  {
    if fault != StatementFails {
      FinishedOk(s, id, status, FinishExecution(s, id, status, fault), sem);
    }
  }

  // ---- Reading lineage off the tables ----

  /** The event reached by following parent links k times. */
  ghost function Ancestor(s: Tables, id: Id, k: nat): Id
    decreases k
  {
    if k == 0 || id !in s.events || s.events[id].provenance.None? then id
    else Ancestor(s, s.events[id].provenance.value.parent, k - 1)
  }

  /** From any stored event, exactly depth links lead to its origin, which came from outside. */
  lemma {:induction false} DepthLeadsToOrigin(s: Tables, id: Id)
    requires UniqueKeys(s) && Lineage(s) && id in s.events
    ensures 0 <= s.events[id].depth <= MAX_DEPTH + 1
    ensures var origin := Ancestor(s, id, s.events[id].depth);
      origin == OriginOf(s.events[id]) && origin in s.events && s.events[origin].provenance == None
    decreases s.events[id].depth
  {
    assert WellBorn(s, s.events[id]);
    if s.events[id].provenance.Some? {
      DepthLeadsToOrigin(s, s.events[id].provenance.value.parent);
    }
  }

  /** No shorter walk reaches an event from outside. */
  lemma {:induction false} FewerStepsFallShort(s: Tables, id: Id, k: nat)
    requires UniqueKeys(s) && Lineage(s) && id in s.events && k < s.events[id].depth
    ensures Ancestor(s, id, k) in s.events && s.events[Ancestor(s, id, k)].provenance.Some?
    decreases k
  {
    assert WellBorn(s, s.events[id]);
    if k > 0 {
      FewerStepsFallShort(s, s.events[id].provenance.value.parent, k - 1);
    }
  }
}
