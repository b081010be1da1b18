/** What a fault-free ingest leaves behind, row by row and dispatch by dispatch (internal/runtime/
    runtime.go:125-388, internal/runtime/delegate.go): the decision, the intent, the effect that is
    carried out and how its row is closed, for every kind of outcome. */
module Effects {
  import opened Domain
  import opened Interpretations
  import opened PolicyRules
  import opened Configuration
  import opened Store
  import opened Pipeline
  import opened Ingests

  /** An event that is new, within the depth cap, admitted by the filter, and meets no storage fault. */
  ghost predicate Fresh(sem: Semantics, c: Choice, s: Tables, e: Event) {
    && Healthy(c, s, e) && e.depth <= 10 && sem.passes(e)
    && forall id | id in s.events :: KeyOf(s.events[id]) != KeyOf(e)
  }

  /** The tables with the event, its revision, its decision and its execution added, and one consultation
      noted. */
  function WithRows(rt: Runtime, s: Tables, e: Event, dec: Decision, x: Execution): Tables {
    Tables(s.events[e.id := e], s.decisions[dec.id := dec], s.executions[x.id := x],
           if rt.revision == "" then s.revisions else s.revisions[e.id := rt.revision], s.dispatched,
           s.asked + [e.id])
  }

  function WithDispatch(s: Tables, e: Event, c: Choice, t: Then): Tables {
    s.(dispatched := s.dispatched + [Dispatch(e.id, c.decisionId, c.executionId, t)])
  }

  /** The decision a model's answer is recorded as, and the intent under the rule that matched it. */
  function Decided(rt: Runtime, c: Choice, e: Event, result: Fields, modelId: string): Decision {
    Decision(c.decisionId, e.id, SelectRoute(rt, e).spec.model, modelId, Ok, result)
  }

  function Intent(rt: Runtime, c: Choice, e: Event, t: Then, index: int, status: ExecutionStatus): Execution {
    Execution(c.executionId, e.id, Some(c.decisionId), Outcome(t), AdapterFor(t), status,
              Some(Selection(if index >= 0 then ByRule(index) else ByDefault, SelectRoute(rt, e).policy)))
  }

  /** The model answered, and t is what the first matching rule, or the default, says. */
  ghost predicate Answers(rt: Runtime, sem: Semantics, c: Choice, e: Event, result: Fields, modelId: string, t: Then,
                          index: int) {
    var p := SelectRoute(rt, e).policy;
    && c.reply == ModelAnswer(result, modelId)
    && IsFirstMatch(p, result, e, sem, index) && t == if index == -1 then p.default else p.rules[index].then_
  }

  lemma OneFirstMatch(p: Policy, result: Fields, e: Event, sem: Semantics, i: int, j: int)
    requires IsFirstMatch(p, result, e, sem, i) && IsFirstMatch(p, result, e, sem, j)
    ensures i == j
  {
  }

  lemma JudgesTo(rt: Runtime, sem: Semantics, c: Choice, s: Tables, e: Event, result: Fields, modelId: string, t: Then,
                 index: int)
    requires Answers(rt, sem, c, e, result, modelId, t, index)
    requires c.decisionWrite == c.intentWrite == NoFault && e.id in s.events
    requires c.decisionId !in s.decisions && c.executionId !in s.executions
    ensures var (dec, x) := (Decided(rt, c, e, result, modelId), Intent(rt, c, e, t, index, Pending));
      Judge(rt, sem, c, s, e)
      == Intended(s.(decisions := s.decisions[dec.id := dec], executions := s.executions[x.id := x]), dec, t, x)
  {
    var p := SelectRoute(rt, e).policy;
    OneFirstMatch(p, result, e, sem, index, EvaluateEvent(p, result, e, sem).1);
  }

  lemma NotTaken(sem: Semantics, c: Choice, s: Tables, e: Event)
    requires Fresh(sem, c, s, e)
    ensures !Taken(s, KeyOf(e)) && Refusal(e, sem).None?
    ensures InsertEvent(s, e, c.insert) == (s.(events := s.events[e.id := e]), Inserted)
  {
  }

  /** Everything up to durable intent, for any answer. */
  lemma IntendsTo(rt: Runtime, sem: Semantics, c: Choice, s: Tables, e: Event, result: Fields, modelId: string, t: Then,
                  index: int)
    requires Fresh(sem, c, s, e) && Answers(rt, sem, c, e, result, modelId, t, index)
    ensures var (dec, x) := (Decided(rt, c, e, result, modelId), Intent(rt, c, e, t, index, Pending));
      Prepare(rt, sem, c, s, e) == Intended(WithRows(rt, s, e, dec, x), dec, t, x)
  {
    NotTaken(sem, c, s, e);
    var s1 := s.(events := s.events[e.id := e]);
    var s2 := RecordRevision(s1, e.id, rt.revision, c.revisionWrite).0;
    JudgesTo(rt, sem, c, Ask(s2, e.id), e, result, modelId, t, index);
  }

  /** The ingest ends with the intent closed as status, over the tables its effect left. */
  ghost predicate EndsWith(rt: Runtime, sem: Semantics, w: World, s: Tables, e: Event, result: Fields, modelId: string,
                           t: Then, index: int, after: Tables, status: ExecutionStatus) {
    var c := w(e.depth);
    var dec := Decided(rt, c, e, result, modelId);
    IngestResult(rt, sem, w, s, e)
    == (after.(executions := after.executions[c.executionId := Intent(rt, c, e, t, index, status)]),
        Answered(Some(dec), Outcome(t)))
  }

  /** The tables when the effect begins. */
  function Begun(rt: Runtime, c: Choice, s: Tables, e: Event, result: Fields, modelId: string, t: Then,
                 index: int): Tables {
    WithRows(rt, s, e, Decided(rt, c, e, result, modelId), Intent(rt, c, e, t, index, Pending))
  }

  lemma FinishesAs(rt: Runtime, c: Choice, s: Tables, e: Event, t: Then, index: int, status: ExecutionStatus)
    requires c.finishWrite == NoFault && c.executionId in s.executions
    requires s.executions[c.executionId] == Intent(rt, c, e, t, index, Pending)
    ensures FinishExecution(s, c.executionId, status, c.finishWrite)
         == s.(executions := s.executions[c.executionId := Intent(rt, c, e, t, index, status)])
  {
  }

  lemma SettlesTo(rt: Runtime, sem: Semantics, w: World, s: Tables, e: Event, result: Fields, modelId: string, t: Then,
                  index: int, after: Tables, ok: bool)
    requires Fresh(sem, w(e.depth), s, e) && Answers(rt, sem, w(e.depth), e, result, modelId, t, index)
    requires !Suppressed(t, w(e.depth).blocked)
    requires var c := w(e.depth);
      var begun := Begun(rt, c, s, e, result, modelId, t, index);
      && Perform(rt, c, begun, e, Decided(rt, c, e, result, modelId), t, Intent(rt, c, e, t, index, Pending))
         == Settled(after, ok)
      && after.executions == begun.executions
    ensures EndsWith(rt, sem, w, s, e, result, modelId, t, index, after, if ok then Succeeded else Failed)
  {
    var c := w(e.depth);
    IntendsTo(rt, sem, c, s, e, result, modelId, t, index);
    FinishesAs(rt, c, after, e, t, index, if ok then Succeeded else Failed);
  }

  // ---- One theorem for each kind of outcome ----

  /** A shadow outcome, or any but ignore under a closed gate, is recorded and not carried out. */
  lemma ShadowIsRecorded(rt: Runtime, sem: Semantics, w: World, s: Tables, e: Event, result: Fields, modelId: string,
                         t: Then, index: int)
    requires Fresh(sem, w(e.depth), s, e) && Answers(rt, sem, w(e.depth), e, result, modelId, t, index)
    requires t.shadow || (w(e.depth).blocked && (t.notify.Some? || t.action.Some? || t.delegate.Some?))
    ensures EndsWith(rt, sem, w, s, e, result, modelId, t, index, Begun(rt, w(e.depth), s, e, result, modelId, t, index),
                     Shadowed)
  {
    var c := w(e.depth);
    IntendsTo(rt, sem, c, s, e, result, modelId, t, index);
    FinishesAs(rt, c, Begun(rt, c, s, e, result, modelId, t, index), e, t, index, Shadowed);
  }

  /** Nothing to do is done, whatever the gate says. */
  lemma IgnoreSucceeds(rt: Runtime, sem: Semantics, w: World, s: Tables, e: Event, result: Fields, modelId: string,
                       t: Then, index: int)
    requires Fresh(sem, w(e.depth), s, e) && Answers(rt, sem, w(e.depth), e, result, modelId, t, index)
    requires !t.shadow && t.notify.None? && t.action.None? && t.delegate.None?
    ensures EndsWith(rt, sem, w, s, e, result, modelId, t, index, Begun(rt, w(e.depth), s, e, result, modelId, t, index),
                     Succeeded)
  {
    SettlesTo(rt, sem, w, s, e, result, modelId, t, index, Begun(rt, w(e.depth), s, e, result, modelId, t, index), true);
  }

  /** A live outcome under an open gate. */
  ghost predicate Live(c: Choice, t: Then) { !t.shadow && !c.blocked }

  /** A notification is sent once, and its row says whether it went out; one whose webhook does not
      resolve, or by an unknown way, is not sent and fails. */
  lemma NotificationIsSent(rt: Runtime, sem: Semantics, w: World, s: Tables, e: Event, result: Fields, modelId: string,
                           t: Then, index: int)
    requires Fresh(sem, w(e.depth), s, e) && Answers(rt, sem, w(e.depth), e, result, modelId, t, index)
    requires Live(w(e.depth), t) && t.notify.Some?
    ensures var c := w(e.depth);
      var begun := Begun(rt, c, s, e, result, modelId, t, index);
      match t.notify.value.via
      case Stdout => EndsWith(rt, sem, w, s, e, result, modelId, t, index, WithDispatch(begun, e, c, t), Succeeded)
      case Discord =>
        if c.webhookOk
        then EndsWith(rt, sem, w, s, e, result, modelId, t, index, WithDispatch(begun, e, c, t),
                      if c.sendOk then Succeeded else Failed)
        else EndsWith(rt, sem, w, s, e, result, modelId, t, index, begun, Failed)
      case OtherVia(_) => EndsWith(rt, sem, w, s, e, result, modelId, t, index, begun, Failed)
  {
    var c := w(e.depth);
    var begun := Begun(rt, c, s, e, result, modelId, t, index);
    match t.notify.value.via
    case Stdout => SettlesTo(rt, sem, w, s, e, result, modelId, t, index, WithDispatch(begun, e, c, t), true);
    case Discord =>
      if c.webhookOk {
        SettlesTo(rt, sem, w, s, e, result, modelId, t, index, WithDispatch(begun, e, c, t), c.sendOk);
      } else {
        SettlesTo(rt, sem, w, s, e, result, modelId, t, index, begun, false);
      }
    case OtherVia(_) => SettlesTo(rt, sem, w, s, e, result, modelId, t, index, begun, false);
  }

  /** An HTTP action is sent once, and its row says whether the endpoint accepted it; an action of an
      unknown kind is not sent and fails. */
  lemma HttpActionIsSent(rt: Runtime, sem: Semantics, w: World, s: Tables, e: Event, result: Fields, modelId: string,
                         t: Then, index: int)
    requires Fresh(sem, w(e.depth), s, e) && Answers(rt, sem, w(e.depth), e, result, modelId, t, index)
    requires Live(w(e.depth), t) && t.notify.None? && t.action.Some? && t.action.value.kind != Emit
    ensures var c := w(e.depth);
      var begun := Begun(rt, c, s, e, result, modelId, t, index);
      if t.action.value.kind == Http
      then EndsWith(rt, sem, w, s, e, result, modelId, t, index, WithDispatch(begun, e, c, t),
                    if c.sendOk then Succeeded else Failed)
      else EndsWith(rt, sem, w, s, e, result, modelId, t, index, begun, Failed)
  {
    var c := w(e.depth);
    var begun := Begun(rt, c, s, e, result, modelId, t, index);
    if t.action.value.kind == Http {
      SettlesTo(rt, sem, w, s, e, result, modelId, t, index, WithDispatch(begun, e, c, t), c.sendOk);
    } else {
      SettlesTo(rt, sem, w, s, e, result, modelId, t, index, begun, false);
    }
  }

  /** The agent is configured, its model, if any, is an agent's, and its timeout, if any, is 1s to 5m. */
  ghost predicate AgentReady(rt: Runtime, agent: string) {
    && agent in rt.agents
    && (rt.agents[agent].model != "" ==>
          rt.agents[agent].model in rt.models && rt.models[rt.agents[agent].model].role == AgentRole)
    && (rt.agents[agent].timeout == 0 || 1000 <= rt.agents[agent].timeout <= 300_000)
  }

  /** A delegation whose agent is not ready is not sent and fails; one that is sent fails if the agent does
      and succeeds if no completion event is asked for. */
  lemma DelegationIsSent(rt: Runtime, sem: Semantics, w: World, s: Tables, e: Event, result: Fields, modelId: string,
                         t: Then, index: int)
    requires Fresh(sem, w(e.depth), s, e) && Answers(rt, sem, w(e.depth), e, result, modelId, t, index)
    requires Live(w(e.depth), t) && t.notify.None? && t.action.None? && t.delegate.Some?
    ensures var (c, d) := (w(e.depth), t.delegate.value);
      var begun := Begun(rt, c, s, e, result, modelId, t, index);
      && (!AgentReady(rt, d.agent) ==> EndsWith(rt, sem, w, s, e, result, modelId, t, index, begun, Failed))
      && (AgentReady(rt, d.agent) && c.agent == AgentFails ==>
            EndsWith(rt, sem, w, s, e, result, modelId, t, index, WithDispatch(begun, e, c, t), Failed))
      && (AgentReady(rt, d.agent) && c.agent != AgentFails && !d.emitCompletion ==>
            EndsWith(rt, sem, w, s, e, result, modelId, t, index, WithDispatch(begun, e, c, t), Succeeded))
  {
    var (c, d) := (w(e.depth), t.delegate.value);
    var begun := Begun(rt, c, s, e, result, modelId, t, index);
    if !AgentReady(rt, d.agent) {
      SettlesTo(rt, sem, w, s, e, result, modelId, t, index, begun, false);
    } else if c.agent == AgentFails {
      SettlesTo(rt, sem, w, s, e, result, modelId, t, index, WithDispatch(begun, e, c, t), false);
    } else if !d.emitCompletion {
      SettlesTo(rt, sem, w, s, e, result, modelId, t, index, WithDispatch(begun, e, c, t), true);
    }
  }

  // ---- Outcomes that re-enter the pipeline ----

  /** What the child knows of its parent: the event, the chain's origin, and the decision, execution, rule
      and policy that produced it. */
  function Lineage(rt: Runtime, c: Choice, e: Event, index: int, agent: string): Provenance {
    Provenance(e.id, match e.provenance case None => e.id case Some(p) => p.origin, c.decisionId, c.executionId,
               if index >= 0 then ByRule(index) else ByDefault, SelectRoute(rt, e).policy, agent)
  }

  /** The ingest performs its effect once, ingests child next, and ends with its own row closed: as a
      success unless the child could not be stored. */
  ghost predicate Reenters(rt: Runtime, sem: Semantics, w: World, s: Tables, e: Event, result: Fields, modelId: string,
                           t: Then, index: int, child: Event) {
    var c := w(e.depth);
    var sent := WithDispatch(Begun(rt, c, s, e, result, modelId, t, index), e, c, t);
    var (after, response) := IngestResult(rt, sem, w, sent, child);
    EndsWith(rt, sem, w, s, e, result, modelId, t, index, after, if response == IngestError then Failed else Succeeded)
  }

  lemma SpawnsTo(rt: Runtime, sem: Semantics, w: World, s: Tables, e: Event, result: Fields, modelId: string, t: Then,
                 index: int, child: Event)
    requires Fresh(sem, w(e.depth), s, e) && Answers(rt, sem, w(e.depth), e, result, modelId, t, index)
    requires !Suppressed(t, w(e.depth).blocked) && child.depth == e.depth + 1
    requires var c := w(e.depth);
      var begun := Begun(rt, c, s, e, result, modelId, t, index);
      Perform(rt, c, begun, e, Decided(rt, c, e, result, modelId), t, Intent(rt, c, e, t, index, Pending))
      == Spawns(WithDispatch(begun, e, c, t), child)
    ensures Reenters(rt, sem, w, s, e, result, modelId, t, index, child)
  {
    var c := w(e.depth);
    var sent := WithDispatch(Begun(rt, c, s, e, result, modelId, t, index), e, c, t);
    var (after, response) := IngestResult(rt, sem, w, sent, child);
    IntendsTo(rt, sem, c, s, e, result, modelId, t, index);
    IngestOnlyNew(rt, sem, w, sent, child);
    assert sent.executions[c.executionId] == after.executions[c.executionId];
    FinishesAs(rt, c, after, e, t, index, if response == IngestError then Failed else Succeeded);
  }

  /** An emitted event carries the judgment as its data, the parent's subject, and the parent's identifier
      as its delivery identity. */
  lemma EmitReenters(rt: Runtime, sem: Semantics, w: World, s: Tables, e: Event, result: Fields, modelId: string,
                     t: Then, index: int)
    requires Fresh(sem, w(e.depth), s, e) && Answers(rt, sem, w(e.depth), e, result, modelId, t, index)
    requires Live(w(e.depth), t) && t.notify.None? && t.action.Some? && t.action.value.kind == Emit
    ensures Reenters(rt, sem, w, s, e, result, modelId, t, index,
                     Event(w(e.depth).childId, t.action.value.eventType, "mrmr", e.subject, result, e.id, e.depth + 1,
                           Some(Lineage(rt, w(e.depth), e, index, ""))))
  {
    SpawnsTo(rt, sem, w, s, e, result, modelId, t, index,
             Event(w(e.depth).childId, t.action.value.eventType, "mrmr", e.subject, result, e.id, e.depth + 1,
                   Some(Lineage(rt, w(e.depth), e, index, ""))));
  }

  /** A completion event names the agent and carries its result, and the execution that asked for it is its
      delivery identity. */
  lemma CompletionReenters(rt: Runtime, sem: Semantics, w: World, s: Tables, e: Event, result: Fields, modelId: string,
                           t: Then, index: int)
    requires Fresh(sem, w(e.depth), s, e) && Answers(rt, sem, w(e.depth), e, result, modelId, t, index)
    requires Live(w(e.depth), t) && t.notify.None? && t.action.None? && t.delegate.Some?
    requires AgentReady(rt, t.delegate.value.agent) && w(e.depth).agent.AgentCompletes? && t.delegate.value.emitCompletion
    ensures var (c, d) := (w(e.depth), t.delegate.value);
      Reenters(rt, sem, w, s, e, result, modelId, t, index,
               Event(c.childId, if d.completionEventType == "" then "agent.completed" else d.completionEventType,
                     "mrmr.agent", e.subject, map["agent" := Text(d.agent), "result" := c.agent.result],
                     c.executionId, e.depth + 1, Some(Lineage(rt, c, e, index, d.agent))))
  {
    var (c, d) := (w(e.depth), t.delegate.value);
    SpawnsTo(rt, sem, w, s, e, result, modelId, t, index,
             Event(c.childId, if d.completionEventType == "" then "agent.completed" else d.completionEventType,
                   "mrmr.agent", e.subject, map["agent" := Text(d.agent), "result" := c.agent.result],
                   c.executionId, e.depth + 1, Some(Lineage(rt, c, e, index, d.agent))));
  }

  // ---- Without an answer, and without a judgment ----

  /** A failed answer is recorded as what it was, and the event ends ignored, with no rule to its name. */
  lemma FailureIsRecorded(rt: Runtime, sem: Semantics, w: World, s: Tables, e: Event)
    requires Fresh(sem, w(e.depth), s, e) && !w(e.depth).reply.ModelAnswer?
    ensures var (c, route) := (w(e.depth), SelectRoute(rt, e));
      var dec := Decision(c.decisionId, e.id, route.spec.model, c.reply.modelId,
                          if c.reply.InvalidAnswer? then Invalid else Errored, map[]);
      IngestResult(rt, sem, w, s, e)
      == (WithRows(rt, s, e, dec, Execution(c.executionId, e.id, Some(c.decisionId), Ignores, NoAdapter, Succeeded,
                                            Some(Selection(DecisionFailed, route.policy)))),
          Answered(Some(dec), Ignores))
  {
    var c := w(e.depth);
    NotTaken(sem, c, s, e);
    var s2 := RecordRevision(s.(events := s.events[e.id := e]), e.id, rt.revision, c.revisionWrite).0;
    FailureJudges(rt, sem, c, Ask(s2, e.id), e);
    var x := Execution(c.executionId, e.id, Some(c.decisionId), Ignores, NoAdapter, Pending,
                       Some(Selection(DecisionFailed, SelectRoute(rt, e).policy)));
    IgnoredFinishes(rt, sem, w, Prepare(rt, sem, c, s, e).tables, e, Prepare(rt, sem, c, s, e).decision, x);
    assert s.executions[x.id := x][x.id := x.(status := Succeeded)] == s.executions[x.id := x.(status := Succeeded)];
  }

  lemma IgnoredFinishes(rt: Runtime, sem: Semantics, w: World, s: Tables, e: Event, dec: Decision, x: Execution)
    requires e.depth <= 10 && x.decision.Some? && x.chosenBy.Some? && x.id in s.executions && s.executions[x.id] == x
    requires w(e.depth).finishWrite == NoFault
    ensures Conclude(rt, sem, w, s, e, dec, IGNORE, x)
         == s.(executions := s.executions[x.id := x.(status := Succeeded)])
  {
  }

  lemma FailureJudges(rt: Runtime, sem: Semantics, c: Choice, s: Tables, e: Event)
    requires !c.reply.ModelAnswer? && c.decisionWrite == c.intentWrite == NoFault && e.id in s.events
    requires c.decisionId !in s.decisions && c.executionId !in s.executions
    ensures var route := SelectRoute(rt, e);
      var dec := Decision(c.decisionId, e.id, route.spec.model, c.reply.modelId,
                          if c.reply.InvalidAnswer? then Invalid else Errored, map[]);
      var x := Execution(c.executionId, e.id, Some(c.decisionId), Ignores, NoAdapter, Pending,
                         Some(Selection(DecisionFailed, route.policy)));
      Judge(rt, sem, c, s, e)
      == Intended(s.(decisions := s.decisions[dec.id := dec], executions := s.executions[x.id := x]), dec, IGNORE, x)
  {
  }

  /** An event past depth 10, or one the filter excludes, ends with the one row that says so: a plain
      success for the cap, filtered for the filter, which is not asked past the cap. */
  lemma RefusalIsRecorded(rt: Runtime, sem: Semantics, w: World, s: Tables, e: Event)
    requires Healthy(w(e.depth), s, e) && forall id | id in s.events :: KeyOf(s.events[id]) != KeyOf(e)
    requires e.depth > 10 || !sem.passes(e)
    ensures var c := w(e.depth);
      IngestResult(rt, sem, w, s, e)
      == (s.(events := s.events[e.id := e],
             revisions := if rt.revision == "" then s.revisions else s.revisions[e.id := rt.revision],
             executions := s.executions[c.executionId := Execution(c.executionId, e.id, None, Ignores, NoAdapter,
                                                                   if e.depth > 10 then Succeeded else Filtered, None)]),
          Answered(None, Ignores))
  {
    var s1 := s.(events := s.events[e.id := e]);
    assert InsertEvent(s, e, w(e.depth).insert) == (s1, Inserted);
  }

  // ---- What a failing write leaves ----

  /** A lost acknowledgement leaves what the write would have left; a failed statement leaves nothing. */
  lemma FaultsChangeOnlyTheReport(s: Tables, e: Event, d: Decision, x: Execution, id: Id, revision: string,
                                  status: ExecutionStatus)
    ensures InsertEvent(s, e, AckLost).0 == InsertEvent(s, e, NoFault).0 && InsertEvent(s, e, StatementFails).0 == s
    ensures InsertDecision(s, d, AckLost).0 == InsertDecision(s, d, NoFault).0
         && InsertDecision(s, d, StatementFails).0 == s
    ensures BeginExecution(s, x, AckLost).0 == BeginExecution(s, x, NoFault).0
         && BeginExecution(s, x, StatementFails).0 == s
    ensures RecordRevision(s, id, revision, AckLost).0 == RecordRevision(s, id, revision, NoFault).0
         && RecordRevision(s, id, revision, StatementFails).0 == s
    ensures FinishExecution(s, id, status, AckLost) == FinishExecution(s, id, status, NoFault)
         && FinishExecution(s, id, status, StatementFails) == s
    ensures InsertEvent(s, e, AckLost).1 == InsertEvent(s, e, StatementFails).1 == InsertFailed
    ensures !InsertDecision(s, d, AckLost).1 && !BeginExecution(s, x, AckLost).1
    ensures !InsertDecision(s, d, StatementFails).1 && !BeginExecution(s, x, StatementFails).1
    ensures revision != "" ==>
      !RecordRevision(s, id, revision, AckLost).1 && !RecordRevision(s, id, revision, StatementFails).1
  {
  }

  /** The keys of the tables: a decision needs its event, an execution its event and its decision, and
      neither an identifier in use. */
  lemma KeysAreEnforced(s: Tables, d: Decision, x: Execution)
    ensures InsertDecision(s, d, NoFault)
         == if d.event in s.events && d.id !in s.decisions then (s.(decisions := s.decisions[d.id := d]), true)
            else (s, false)
    ensures BeginExecution(s, x, NoFault).1 <==>
      x.event in s.events && x.id !in s.executions && (x.decision == None || x.decision.value in s.decisions)
    ensures BeginExecution(s, x, NoFault).1 ==> BeginExecution(s, x, NoFault).0.executions == s.executions[x.id := x]
  {
  }

  /** Without durable intent there is no effect: an execution row that cannot be written leaves the
      decision's answer, no dispatch and no child. */
  lemma NoIntentNoEffect(rt: Runtime, sem: Semantics, w: World, s: Tables, e: Event, result: Fields, modelId: string,
                         t: Then, index: int)
    requires var c := w(e.depth); Fresh(sem, c.(intentWrite := NoFault), s, e) && c.intentWrite != NoFault
    requires Answers(rt, sem, w(e.depth), e, result, modelId, t, index)
    ensures var (s', r) := IngestResult(rt, sem, w, s, e);
      && r == Answered(Some(Decided(rt, w(e.depth), e, result, modelId)), Outcome(t))
      && s'.dispatched == s.dispatched && s'.events == s.events[e.id := e]
      && s'.executions
         == if w(e.depth).intentWrite == AckLost
            then s.executions[w(e.depth).executionId := Intent(rt, w(e.depth), e, t, index, Pending)] else s.executions
  {
    var c := w(e.depth);
    var s1 := s.(events := s.events[e.id := e]);
    assert InsertEvent(s, e, c.insert) == (s1, Inserted);
    var s2 := RecordRevision(s1, e.id, rt.revision, c.revisionWrite).0;
    HaltsWithoutIntent(rt, sem, c, Ask(s2, e.id), e, result, modelId, t, index);
  }

  lemma HaltsWithoutIntent(rt: Runtime, sem: Semantics, c: Choice, s: Tables, e: Event, result: Fields, modelId: string,
                           t: Then, index: int)
    requires Answers(rt, sem, c, e, result, modelId, t, index) && c.decisionWrite == NoFault && c.intentWrite != NoFault
    requires e.id in s.events && c.decisionId !in s.decisions && c.executionId !in s.executions
    ensures var (dec, x) := (Decided(rt, c, e, result, modelId), Intent(rt, c, e, t, index, Pending));
      Judge(rt, sem, c, s, e)
      == Halted(s.(decisions := s.decisions[dec.id := dec],
                   executions := if c.intentWrite == AckLost then s.executions[x.id := x] else s.executions),
                Answered(Some(dec), Outcome(t)))
  {
    var p := SelectRoute(rt, e).policy;
    OneFirstMatch(p, result, e, sem, index, EvaluateEvent(p, result, e, sem).1);
  }
}
