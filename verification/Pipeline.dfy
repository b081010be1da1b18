/** The ingest pipeline (internal/runtime/runtime.go, internal/runtime/delegate.go): dedup insert,
    depth guard, filter, model answer, policy, durable intent, gate check, effect, finish, with emit
    and delegate re-entering it. Everything the process cannot control, each storage outcome, each
    model and endpoint reply, each generated identifier and each reading of the safety gate, is drawn
    from a World, so a statement about every World is a statement about every such environment. */
module Pipeline {
  import opened Domain
  import opened Interpretations
  import opened PolicyRules
  import opened Configuration
  import opened Store

  const MAX_DEPTH: int := 10

  datatype Reply =
    | ModelAnswer(result: Fields, modelId: string)
    | InvalidAnswer(modelId: string)
    | ModelError(modelId: string)

  datatype AgentReply = AgentFails | AgentCompletes(result: Value)

  datatype Choice = Choice(insert: WriteFault, revisionWrite: WriteFault, reply: Reply, decisionId: Id,
                           decisionWrite: WriteFault, executionId: Id, intentWrite: WriteFault, blocked: bool,
                           webhookOk: bool, sendOk: bool, agent: AgentReply, childId: Id, finishWrite: WriteFault)

  /** One choice for each causal depth: an ingest enters at most one deeper ingest. */
  type World = int -> Choice

  datatype Response = IngestError | Duplicated | Answered(decision: Option<Decision>, outcome: OutcomeName)

  /** The record of an interpretation. A failed one carries no result. */
  function DecisionOf(e: Event, route: Route, c: Choice): Decision {
    match c.reply
    case ModelAnswer(result, modelId) => Decision(c.decisionId, e.id, route.spec.model, modelId, Ok, result)
    case InvalidAnswer(modelId) => Decision(c.decisionId, e.id, route.spec.model, modelId, Invalid, map[])
    case ModelError(modelId) => Decision(c.decisionId, e.id, route.spec.model, modelId, Errored, map[])
  }

  function RuleOf(index: int): RuleRef {
    if index >= 0 then ByRule(index) else ByDefault
  }

  /** Only an ok decision reaches policy; any other is routed to ignore. */
  function Select(policy: Policy, dec: Decision, e: Event, sem: Semantics): (Then, RuleRef) {
    if dec.status == Ok then
      var (t, index) := EvaluateEvent(policy, dec.result, e, sem);
      (t, RuleOf(index))
    else (IGNORE, DecisionFailed)
  }

  function IntentFor(e: Event, dec: Decision, t: Then, rule: RuleRef, policy: Policy, id: Id): Execution {
    Execution(id, e.id, Some(dec.id), Outcome(t), AdapterFor(t), Pending, Some(Selection(rule, policy)))
  }

  /** The row of an event that ends without judgment. */
  function RefusalFor(e: Event, id: Id, status: ExecutionStatus): Execution {
    Execution(id, e.id, None, Ignores, NoAdapter, status, None)
  }

  /** An event that is recorded but refused: past the depth cap, or excluded by the filter. */
  function Refusal(e: Event, sem: Semantics): Option<ExecutionStatus> {
    if e.depth > MAX_DEPTH then Some(Succeeded)
    else if !sem.passes(e) then Some(Filtered)
    else None
  }

  function LineageOf(e: Event, x: Execution, agent: string): Provenance
    requires x.decision.Some? && x.chosenBy.Some?
  {
    Provenance(e.id, if e.provenance.Some? then e.provenance.value.origin else e.id,
               x.decision.value, x.id, x.chosenBy.value.rule, x.chosenBy.value.policy, agent)
  }

  function EmittedChild(e: Event, dec: Decision, x: Execution, a: Action, id: Id): Event
    requires x.decision.Some? && x.chosenBy.Some?
  {
    Event(id, a.eventType, "mrmr", e.subject, dec.result, e.id, e.depth + 1, Some(LineageOf(e, x, "")))
  }

  function CompletionChild(e: Event, x: Execution, d: Delegate, result: Value, id: Id): Event
    requires x.decision.Some? && x.chosenBy.Some?
  {
    Event(id, if d.completionEventType == "" then "agent.completed" else d.completionEventType, "mrmr.agent",
          e.subject, map["agent" := Text(d.agent), "result" := result], x.id, e.depth + 1,
          Some(LineageOf(e, x, d.agent)))
  }

  // ---- Specification: one ingest as a function of the tables and the world ----

  /** How far an ingest got before its effect. */
  datatype Stage = Halted(tables: Tables, response: Response)
                 | Intended(tables: Tables, decision: Decision, then_: Then, execution: Execution)

  /** From the model's answer to durable intent. */
  function Judge(rt: Runtime, sem: Semantics, c: Choice, s: Tables, e: Event): (g: Stage)
    ensures g.Intended? ==> g.execution.decision.Some? && g.execution.chosenBy.Some?
  {
    var route := SelectRoute(rt, e);
    var dec := DecisionOf(e, route, c);
    var (s1, decided) := InsertDecision(s, dec, c.decisionWrite);
    if !decided then Halted(s1, IngestError)
    else
      var (t, rule) := Select(route.policy, dec, e, sem);
      var x := IntentFor(e, dec, t, rule, route.policy, c.executionId);
      var (s2, begun) := BeginExecution(s1, x, c.intentWrite);
      if !begun then Halted(s2, Answered(Some(dec), Outcome(t)))
      else Intended(s2, dec, t, x)
  }

  function Prepare(rt: Runtime, sem: Semantics, c: Choice, s: Tables, e: Event): (g: Stage)
    ensures g.Intended? ==> e.depth <= MAX_DEPTH && g.execution.decision.Some? && g.execution.chosenBy.Some?
  {
    var (s1, inserted) := InsertEvent(s, e, c.insert);
    if inserted == InsertFailed then Halted(s1, IngestError)
    else if inserted == Duplicate then Halted(s1, Duplicated)
    else
      var (s2, recorded) := RecordRevision(s1, e.id, rt.revision, c.revisionWrite);
      if !recorded then Halted(s2, IngestError)
      else if Refusal(e, sem).Some? then
        var s3 := BeginExecution(s2, RefusalFor(e, c.executionId, Refusal(e, sem).value), c.intentWrite).0;
        Halted(s3, Answered(None, Ignores))
      else Judge(rt, sem, c, Ask(s2, e.id), e)
  }

  /** The dispatch gate: a shadow outcome, or an operator stop on anything but ignore. */
  predicate Suppressed(t: Then, blocked: bool) {
    t.shadow || (blocked && Outcome(t) != Ignores)
  }

  /** What an effect comes to: settled, or a child event to ingest. */
  datatype Effect = Settled(tables: Tables, ok: bool) | Spawns(tables: Tables, child: Event)

  function Perform(rt: Runtime, c: Choice, s: Tables, e: Event, dec: Decision, t: Then, x: Execution): Effect
    requires x.decision.Some? && x.chosenBy.Some?
  {
    var sent := LogDispatch(s, Dispatch(e.id, dec.id, x.id, t));
    match ExecutedBranch(t)
    case NotifyBranch =>
      (match t.notify.value.via
       case Stdout => Settled(sent, true)
       case Discord => if c.webhookOk then Settled(sent, c.sendOk) else Settled(s, false)
       case OtherVia(_) => Settled(s, false))
    case ActionBranch =>
      (match t.action.value.kind
       case Http => Settled(sent, c.sendOk)
       case Emit => Spawns(sent, EmittedChild(e, dec, x, t.action.value, c.childId))
       case OtherAction(_) => Settled(s, false))
    case DelegateBranch =>
      if !DelegateReady(rt, t.delegate.value) then Settled(s, false)
      else if c.agent.AgentFails? then Settled(sent, false)
      else if !t.delegate.value.emitCompletion then Settled(sent, true)
      else Spawns(sent, CompletionChild(e, x, t.delegate.value, c.agent.result, c.childId))
    case NoBranch => Settled(s, true)
  }

  predicate DelegateReady(rt: Runtime, d: Delegate) {
    && d.agent in rt.agents
    && var a := rt.agents[d.agent];
       && (a.model != "" ==> a.model in rt.models && rt.models[a.model].role == AgentRole)
       && (a.timeout == 0 || SECOND <= a.timeout <= 300 * SECOND)
  }

  function Remaining(e: Event): nat {
    if e.depth > MAX_DEPTH then 0 else MAX_DEPTH + 1 - e.depth
  }

  function Closing(ok: bool): ExecutionStatus { if ok then Succeeded else Failed }

  function IngestResult(rt: Runtime, sem: Semantics, w: World, s: Tables, e: Event): (Tables, Response)
    decreases Remaining(e), 1
  {
    match Prepare(rt, sem, w(e.depth), s, e)
    case Halted(s1, response) => (s1, response)
    case Intended(s1, dec, t, x) => (Conclude(rt, sem, w, s1, e, dec, t, x), Answered(Some(dec), Outcome(t)))
  }

  /** What follows durable intent. A child's own failure to be stored is the only thing about a child
      that reaches its parent's row. */
  function Conclude(rt: Runtime, sem: Semantics, w: World, s: Tables, e: Event, dec: Decision, t: Then,
                    x: Execution): Tables
    requires e.depth <= MAX_DEPTH && x.decision.Some? && x.chosenBy.Some?
    decreases Remaining(e), 0
  {
    var c := w(e.depth);
    if Suppressed(t, c.blocked) then FinishExecution(s, x.id, Shadowed, c.finishWrite)
    else
      match Perform(rt, c, s, e, dec, t, x)
      case Settled(s1, ok) => FinishExecution(s1, x.id, Closing(ok), c.finishWrite)
      case Spawns(s1, child) =>
        var (s2, response) := IngestResult(rt, sem, w, s1, child);
        FinishExecution(s2, x.id, Closing(response != IngestError), c.finishWrite)
  }

  // ---- The pipeline as written: statements over the database handle ----

  class Engine {
    const rt: Runtime
    const sem: Semantics
    const db: Database

    constructor (rt: Runtime, sem: Semantics, db: Database)
      ensures this.rt == rt && this.sem == sem && this.db == db
    {
      this.rt, this.sem, this.db := rt, sem, db;
    }

    /** The statements up to durable intent. A halt is the response of an ingest that ends early. */
    method Admit(e: Event, c: Choice) returns (halt: Option<Response>, dec: Decision, t: Then, x: Execution)
      modifies db
      ensures Reached(Prepare(rt, sem, c, old(db.Contents()), e), halt, dec, t, x)
    {
      dec := Decision(c.decisionId, e.id, "", "", Errored, map[]);
      t, x := IGNORE, RefusalFor(e, c.executionId, Succeeded);
      var inserted := db.Insert(e, c.insert);
      if inserted == InsertFailed {
        return Some(IngestError), dec, t, x;
      }
      if inserted == Duplicate {
        return Some(Duplicated), dec, t, x;
      }
      if rt.revision != "" {
        var recorded := db.AddRevision(e.id, rt.revision, c.revisionWrite);
        if !recorded {
          return Some(IngestError), dec, t, x;
        }
      }
      if e.depth > MAX_DEPTH {
        var _ := db.Begin(RefusalFor(e, c.executionId, Succeeded), c.intentWrite);
        return Some(Answered(None, Ignores)), dec, t, x;
      }
      if !sem.passes(e) {
        var _ := db.Begin(RefusalFor(e, c.executionId, Filtered), c.intentWrite);
        return Some(Answered(None, Ignores)), dec, t, x;
      }
      var route := SelectRoute(rt, e);
      db.NoteAsked(e.id);
      dec := DecisionOf(e, route, c);
      var decided := db.AddDecision(dec, c.decisionWrite);
      if !decided {
        return Some(IngestError), dec, t, x;
      }
      var rule := DecisionFailed;
      if dec.status == Ok {
        var selected := EvaluateEvent(route.policy, dec.result, e, sem);
        t := selected.0;
        rule := if selected.1 >= 0 then ByRule(selected.1) else ByDefault;
      }
      x := IntentFor(e, dec, t, rule, route.policy, c.executionId);
      var begun := db.Begin(x, c.intentWrite);
      halt := if begun then None else Some(Answered(Some(dec), Outcome(t)));
    }

    ghost predicate Reached(g: Stage, halt: Option<Response>, dec: Decision, t: Then, x: Execution)
      reads db
    {
      match g
      case Halted(s, response) => db.Contents() == s && halt == Some(response)
      case Intended(s, dec', t', x') => db.Contents() == s && halt == None && dec == dec' && t == t' && x == x'
    }

    method Ingest(e: Event, w: World) returns (response: Response)
      modifies db
      ensures (db.Contents(), response) == IngestResult(rt, sem, w, old(db.Contents()), e)
      decreases Remaining(e), 1
    {
      var c := w(e.depth);
      var halt, dec, t, x := Admit(e, c);
      if halt.Some? {
        return halt.value;
      }
      response := Answered(Some(dec), Outcome(t));
      var status := Shadowed;
      if !(t.shadow || (c.blocked && Outcome(t) != Ignores)) {
        var ok := Execute(e, dec, t, x, w);
        status := if ok then Succeeded else Failed;
      }
      db.Finish(x.id, status, c.finishWrite);
    }

    /** The effect itself. It reports success; a child's own failure to be stored is the only thing
        about a child that reaches its parent. */
    method Execute(e: Event, dec: Decision, t: Then, x: Execution, w: World) returns (ok: bool)
      requires e.depth <= MAX_DEPTH && x.decision.Some? && x.chosenBy.Some?
      modifies db
      ensures match Perform(rt, w(e.depth), old(db.Contents()), e, dec, t, x)
        case Settled(s, done) => db.Contents() == s && ok == done
        case Spawns(s, child) =>
          db.Contents() == IngestResult(rt, sem, w, s, child).0
          && ok == (IngestResult(rt, sem, w, s, child).1 != IngestError)
      decreases Remaining(e), 0
    {
      var c := w(e.depth);
      ghost var dispatch := Dispatch(e.id, dec.id, x.id, t);
      if t.notify.Some? {
        match t.notify.value.via {
          case Stdout =>
            db.NoteDispatch(dispatch);
            return true;
          case Discord =>
            if !c.webhookOk {
              return false;
            }
            db.NoteDispatch(dispatch);
            return c.sendOk;
          case OtherVia(_) =>
            return false;
        }
      }
      if t.action.Some? {
        match t.action.value.kind {
          case Http =>
            db.NoteDispatch(dispatch);
            return c.sendOk;
          case Emit =>
            db.NoteDispatch(dispatch);
            var child := EmittedChild(e, dec, x, t.action.value, c.childId);
            var response := Ingest(child, w);
            return response != IngestError;
          case OtherAction(_) =>
            return false;
        }
      }
      if t.delegate.Some? {
        var d := t.delegate.value;
        if d.agent !in rt.agents {
          return false;
        }
        var a := rt.agents[d.agent];
        if a.model != "" && (a.model !in rt.models || rt.models[a.model].role != AgentRole) {
          return false;
        }
        if a.timeout != 0 && (a.timeout < SECOND || a.timeout > 300 * SECOND) {
          return false;
        }
        db.NoteDispatch(dispatch);
        if c.agent.AgentFails? {
          return false;
        }
        if !d.emitCompletion {
          return true;
        }
        var child := CompletionChild(e, x, d, c.agent.result, c.childId);
        var response := Ingest(child, w);
        return response != IngestError;
      }
      return true;
    }
  }
}
