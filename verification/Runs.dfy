/** What holds of whole runs: effects follow their intent, the operator's stop is final, and the
    recursive pipeline is one of the schedules the statement-level system allows. */
module Runs {
  import opened Domain
  import opened PolicyRules
  import opened Configuration
  import opened Store
  import opened Pipeline
  import opened Invariants
  import opened Steps

  // ---- Safety, spelled out ----

  /** Whatever is submitted, however ingests interleave, fail and crash: one delivery identity has at
      most one event, an event at most one decision, one execution, one model call and one dispatch. */
  lemma AtMostOneOfEach(sem: Semantics, schedule: seq<Step>)
    ensures var s := Execute(sem, START, schedule).store;
      && (forall i, j | i in s.events && j in s.events && KeyOf(s.events[i]) == KeyOf(s.events[j]) :: i == j)
      && (forall c, d | c in s.decisions && d in s.decisions && s.decisions[c].event == s.decisions[d].event :: c == d)
      && (forall x, y | x in s.executions && y in s.executions && s.executions[x].event == s.executions[y].event ::
        x == y)
      && (forall i, j | 0 <= i < j < |s.dispatched| :: s.dispatched[i].event != s.dispatched[j].event)
      && (forall i, j | 0 <= i < j < |s.asked| :: s.asked[i] != s.asked[j])
  {
    StartIsSafe(sem);
    EveryRunIsSafe(sem, START, schedule);
  }

  /** Every stored event's parent links lead out of the system in exactly depth steps, and no fewer. */
  lemma LineageLeadsOut(sem: Semantics, schedule: seq<Step>, id: Id, k: nat)
    requires id in Execute(sem, START, schedule).store.events
    ensures var s := Execute(sem, START, schedule).store;
      var e := s.events[id];
      && WellBorn(s, e) && 0 <= e.depth <= MAX_DEPTH + 1
      && var origin := Ancestor(s, id, e.depth);
         && origin == OriginOf(e) && origin in s.events && s.events[origin].provenance == None
         && (k < e.depth ==> Ancestor(s, id, k) in s.events && s.events[Ancestor(s, id, k)].provenance.Some?)
  {
    var s := Execute(sem, START, schedule).store;
    StartIsSafe(sem);
    EveryRunIsSafe(sem, START, schedule);
    DepthLeadsToOrigin(s, id);
    if k < s.events[id].depth {
      FewerStepsFallShort(s, id, k);
    }
  }

  /** An event has at most one emitted child and at most one completion child, however often and under
      whatever identifiers its effect was attempted: their delivery identities coincide. */
  lemma ChildrenAreUnique(sem: Semantics, schedule: seq<Step>, a: Id, b: Id)
    requires var s := Execute(sem, START, schedule).store;
      && a in s.events && s.events[a].provenance.Some? && b in s.events && s.events[b].provenance.Some?
      && s.events[a].source == s.events[b].source
      && s.events[a].provenance.value.parent == s.events[b].provenance.value.parent
      && s.events[a].sourceId != ""
    ensures a == b
  {
    var s := Execute(sem, START, schedule).store;
    StartIsSafe(sem);
    EveryRunIsSafe(sem, START, schedule);
    assert WellBorn(s, s.events[a]) && WellBorn(s, s.events[b]);
    var p, q := s.events[a].provenance.value, s.events[b].provenance.value;
    assert s.executions[p.execution].event == s.executions[q.execution].event;
    assert KeyOf(s.events[a]) == KeyOf(s.events[b]);
  }

  /** A recorded revision is that of the runtime that ingested the event, and every judged row was
      selected by the policy that runtime routes the event to. */
  lemma RowsBelongToTheirRuntime(sem: Semantics, schedule: seq<Step>)
    ensures var sys := Execute(sem, START, schedule);
      var (s, hist) := (sys.store, sys.ingestedBy);
      && hist.Keys == s.events.Keys
      && (forall r | r in s.revisions :: r in hist && s.revisions[r] == hist[r].revision)
      && (forall x | x in s.executions && s.executions[x].decision.Some? ::
            var row := s.executions[x];
            row.event in hist && row.chosenBy.Some?
            && row.chosenBy.value.policy == SelectRoute(hist[row.event], s.events[row.event]).policy)
  {
    var sys := Execute(sem, START, schedule);
    StartIsSafe(sem);
    EveryRunIsSafe(sem, START, schedule);
    forall x | x in sys.store.executions && sys.store.executions[x].decision.Some?
      ensures AttributedRow(sys.store, sys.ingestedBy, sys.store.executions[x]) && sys.store.executions[x].chosenBy.Some?
    {
      assert RowOk(sys.store, sys.store.executions[x], sem);
    }
  }

  // ---- Intent before effect ----

  /** Before its effect and after it, an ingest leaves the dispatch log alone. */
  lemma EarlyStatementsAreSilent(sem: Semantics, sys: Sys, i: nat, c: Choice)
    requires i < |sys.tasks| && (sys.tasks[i].pc.Receive? || sys.tasks[i].pc.Stored? || sys.tasks[i].pc.Recorded?)
    ensures RunTask(sem, sys, i, c).store.dispatched == sys.store.dispatched
  {
    if sys.tasks[i].pc.Receive? {
      Received(sem, sys, i, c);
    } else if sys.tasks[i].pc.Stored? {
      RevisionWritten(sem, sys, i, c);
    } else {
      RunsRecorded(sem, sys, i, c);
    }
  }

  lemma LaterStatementsAreSilent(sem: Semantics, sys: Sys, i: nat, c: Choice)
    requires i < |sys.tasks| && var pc := sys.tasks[i].pc;
      pc.Answering? || pc.Decided? || pc.Ready? || pc.Waiting? || pc.Finishing? || pc.Finished?
    ensures RunTask(sem, sys, i, c).store.dispatched == sys.store.dispatched
  {
  }

  lemma PerformDispatches(rt: Runtime, c: Choice, s: Tables, e: Event, dec: Decision, t: Then, x: Execution)
    requires x.decision.Some? && x.chosenBy.Some?
    ensures var log' := Perform(rt, c, s, e, dec, t, x).tables.dispatched;
      || log' == s.dispatched
      || (log' == s.dispatched + [Dispatch(e.id, dec.id, x.id, t)] && ExecutedBranch(t) != NoBranch)
  {
  }

  lemma PerformingDispatches(sem: Semantics, sys: Sys, i: nat, c: Choice)
    requires i < |sys.tasks| && sys.tasks[i].pc.Performing?
    ensures var (e, pc) := (sys.tasks[i].event, sys.tasks[i].pc);
      var log, log' := sys.store.dispatched, RunTask(sem, sys, i, c).store.dispatched;
      || log' == log
      || (log' == log + [Dispatch(e.id, pc.decision.id, pc.execution.id, pc.then_)] && ExecutedBranch(pc.then_) != NoBranch)
  {
    var task := sys.tasks[i];
    var x := task.pc.execution;
    if x.decision.Some? && x.chosenBy.Some? {
      PerformDispatches(task.rt, c, sys.store, task.event, task.pc.decision, task.pc.then_, x);
    }
  }

  /** A step either leaves the dispatch log alone or performs the one execution it carries. */
  lemma OnlyPerformingDispatches(sem: Semantics, sys: Sys, a: Step)
    ensures var log, log' := sys.store.dispatched, Apply(sem, sys, a).store.dispatched;
      || log' == log
      || (a.Run? && a.task < |sys.tasks| && sys.tasks[a.task].pc.Performing?
          && var (e, pc) := (sys.tasks[a.task].event, sys.tasks[a.task].pc);
             && log' == log + [Dispatch(e.id, pc.decision.id, pc.execution.id, pc.then_)]
             && ExecutedBranch(pc.then_) != NoBranch)
  {
    if a.Run? && a.task < |sys.tasks| {
      var pc := sys.tasks[a.task].pc;
      if pc.Performing? {
        PerformingDispatches(sem, sys, a.task, a.choice);
      } else if pc.Receive? || pc.Stored? || pc.Recorded? {
        EarlyStatementsAreSilent(sem, sys, a.task, a.choice);
      } else {
        LaterStatementsAreSilent(sem, sys, a.task, a.choice);
      }
    }
  }

  /** Whatever step of whatever run reaches the outside world, the table already holds that effect's
      own pending row, tied to an ok decision and to the live outcome its policy selects, and no
      earlier effect was performed for the same event. */
  lemma EffectsFollowIntent(sem: Semantics, schedule: seq<Step>, a: Step)
    ensures var sys := Execute(sem, START, schedule);
      var s, log' := sys.store, Apply(sem, sys, a).store.dispatched;
      log' != s.dispatched ==>
        && |log'| == |s.dispatched| + 1 && s.dispatched <= log'
        && var d := log'[|s.dispatched|];
           && DispatchOk(s, d, sem)
           && s.executions[d.execution].status == Pending
           && NoDispatch(s, d.event)
  {
    var sys := Execute(sem, START, schedule);
    StartIsSafe(sem);
    EveryRunIsSafe(sem, START, schedule);
    OnlyPerformingDispatches(sem, sys, a);
    if Apply(sem, sys, a).store.dispatched != sys.store.dispatched {
      assert TaskOk(sys.store, sys.ingestedBy, sys.tasks[a.task], sem);
      PerformIsJustified(sys, sys.tasks[a.task], sem);
    }
  }

  // ---- The operator's stop ----

  /** Every live effect, performed or about to be, passed the gate check. */
  ghost predicate Checked(sys: Sys) {
    && (forall k | 0 <= k < |sys.store.dispatched| && Outcome(sys.store.dispatched[k].performed) != Ignores ::
          sys.store.dispatched[k].execution in sys.passed)
    && (forall i | 0 <= i < |sys.tasks| && sys.tasks[i].pc.Performing? && Outcome(sys.tasks[i].pc.then_) != Ignores ::
          sys.tasks[i].pc.execution.id in sys.passed)
  }

  /** passed only grows, and only through an open gate; no step makes another task perform. */
  lemma GateGuardsPassing(sem: Semantics, sys: Sys, a: Step)
    ensures var sys' := Apply(sem, sys, a);
      && sys.passed <= sys'.passed
      && (sys.blocked ==> sys'.passed == sys.passed)
      && (sys.gate ==> sys'.gate)
      && (sys.blocked && sys.gate ==> sys'.blocked)
  {
    if a.Run? && a.task < |sys.tasks| {
      RunPassesOnlyWhenOpen(sem, sys, a.task, a.choice);
    }
  }

  lemma RunPassesOnlyWhenOpen(sem: Semantics, sys: Sys, i: nat, c: Choice)
    requires i < |sys.tasks|
    ensures var sys' := RunTask(sem, sys, i, c);
      && sys'.blocked == sys.blocked && sys'.gate == sys.gate && sys.passed <= sys'.passed
      && (sys.blocked ==> sys'.passed == sys.passed)
  {
  }

  lemma ReadyPasses(sem: Semantics, sys: Sys, i: nat, c: Choice)
    requires i < |sys.tasks| && sys.tasks[i].pc.Ready?
    ensures var sys' := RunTask(sem, sys, i, c);
      && (forall j | 0 <= j < |sys'.tasks| && j != i :: j < |sys.tasks| && sys'.tasks[j] == sys.tasks[j])
      && (sys'.tasks[i].pc.Performing? && Outcome(sys'.tasks[i].pc.then_) != Ignores ==> sys'.tasks[i].pc.execution.id in sys'.passed)
  {
  }

  lemma EarlyDoNotPerform(sem: Semantics, sys: Sys, i: nat, c: Choice)
    requires i < |sys.tasks| && (sys.tasks[i].pc.Receive? || sys.tasks[i].pc.Stored? || sys.tasks[i].pc.Recorded?)
    ensures var sys' := RunTask(sem, sys, i, c);
      forall j | 0 <= j < |sys'.tasks| && sys'.tasks[j].pc.Performing? ::
        j < |sys.tasks| && sys'.tasks[j] == sys.tasks[j]
  {
  }

  lemma LateDoNotPerform(sem: Semantics, sys: Sys, i: nat, c: Choice)
    requires i < |sys.tasks| && var pc := sys.tasks[i].pc;
      pc.Answering? || pc.Decided? || pc.Waiting? || pc.Finishing? || pc.Finished?
    ensures var sys' := RunTask(sem, sys, i, c);
      forall j | 0 <= j < |sys'.tasks| && sys'.tasks[j].pc.Performing? ::
        j < |sys.tasks| && sys'.tasks[j] == sys.tasks[j]
  {
  }

  lemma PerformersMoveOn(sem: Semantics, sys: Sys, i: nat, c: Choice)
    requires i < |sys.tasks| && sys.tasks[i].pc.Performing?
    ensures var sys' := RunTask(sem, sys, i, c);
      forall j | 0 <= j < |sys'.tasks| && sys'.tasks[j].pc.Performing? ::
        j < |sys.tasks| && sys'.tasks[j] == sys.tasks[j]
  {
  }

  lemma PerformersPassed(sem: Semantics, sys: Sys, a: Step, j: nat)
    requires Checked(sys) && j < |Apply(sem, sys, a).tasks| && Apply(sem, sys, a).tasks[j].pc.Performing?
    requires Outcome(Apply(sem, sys, a).tasks[j].pc.then_) != Ignores
    ensures Apply(sem, sys, a).tasks[j].pc.execution.id in Apply(sem, sys, a).passed
  {
    GateGuardsPassing(sem, sys, a);
    if a.Run? && a.task < |sys.tasks| {
      var pc := sys.tasks[a.task].pc;
      if pc.Performing? {
        PerformersMoveOn(sem, sys, a.task, a.choice);
      } else if pc.Ready? {
        ReadyPasses(sem, sys, a.task, a.choice);
      } else if pc.Receive? || pc.Stored? || pc.Recorded? {
        EarlyDoNotPerform(sem, sys, a.task, a.choice);
      } else {
        LateDoNotPerform(sem, sys, a.task, a.choice);
      }
    }
  }

  lemma CheckedKeeps(sem: Semantics, sys: Sys, a: Step)
    requires Checked(sys)
    ensures Checked(Apply(sem, sys, a))
  {
    var sys' := Apply(sem, sys, a);
    GateGuardsPassing(sem, sys, a);
    OnlyPerformingDispatches(sem, sys, a);
    forall k | 0 <= k < |sys'.store.dispatched| && Outcome(sys'.store.dispatched[k].performed) != Ignores
      ensures sys'.store.dispatched[k].execution in sys'.passed
    {
      if k < |sys.store.dispatched| {
        assert sys'.store.dispatched[k] == sys.store.dispatched[k];
      }
    }
    forall i | 0 <= i < |sys'.tasks| && sys'.tasks[i].pc.Performing? && Outcome(sys'.tasks[i].pc.then_) != Ignores
      ensures sys'.tasks[i].pc.execution.id in sys'.passed
    {
      PerformersPassed(sem, sys, a, i);
    }
  }

  /** Once the gate is closed in memory and on disk, nothing passes it again: not in any ingest in
      flight or yet to come, under any revision, and not after any number of restarts. */
  lemma {:induction false} StopIsFinal(sem: Semantics, sys: Sys, schedule: seq<Step>)
    requires sys.blocked && sys.gate
    ensures Execute(sem, sys, schedule).passed == sys.passed
    ensures Execute(sem, sys, schedule).blocked && Execute(sem, sys, schedule).gate
    decreases |schedule|
  {
    if schedule != [] {
      GateGuardsPassing(sem, sys, schedule[0]);
      StopIsFinal(sem, Apply(sem, sys, schedule[0]), schedule[1..]);
    }
  }

  lemma {:induction false} EveryRunIsChecked(sem: Semantics, sys: Sys, schedule: seq<Step>)
    requires Checked(sys)
    ensures Checked(Execute(sem, sys, schedule))
    decreases |schedule|
  {
    if schedule != [] {
      CheckedKeeps(sem, sys, schedule[0]);
      EveryRunIsChecked(sem, Apply(sem, sys, schedule[0]), schedule[1..]);
    }
  }

  /** After a successful return to shadow, the only live effects ever performed are those of
      executions that had passed the check before it. */
  lemma NoEffectBeginsAfterStop(sem: Semantics, before: seq<Step>, after: seq<Step>)
    ensures var sys := Execute(sem, START, before);
      var stopped := Apply(sem, Apply(sem, sys, CloseGate), PersistGate);
      var end := Execute(sem, stopped, after);
      forall k | 0 <= k < |end.store.dispatched| && Outcome(end.store.dispatched[k].performed) != Ignores ::
        end.store.dispatched[k].execution in sys.passed
  {
    var sys := Execute(sem, START, before);
    var stopped := Apply(sem, Apply(sem, sys, CloseGate), PersistGate);
    EveryRunIsChecked(sem, START, before);
    CheckedKeeps(sem, sys, CloseGate);
    CheckedKeeps(sem, Apply(sem, sys, CloseGate), PersistGate);
    EveryRunIsChecked(sem, stopped, after);
    StopIsFinal(sem, stopped, after);
  }

  // ---- The recursive pipeline is one of the allowed schedules ----

  ghost predicate Reaches(sem: Semantics, sys: Sys, end: Sys) {
    exists schedule :: Execute(sem, sys, schedule) == end
  }

  lemma {:induction false} ExecuteConcat(sem: Semantics, sys: Sys, a: seq<Step>, b: seq<Step>)
    ensures Execute(sem, sys, a + b) == Execute(sem, Execute(sem, sys, a), b)
    decreases |a|
  {
    if a == [] {
      assert a + b == b;
    } else {
      assert (a + b)[1..] == a[1..] + b;
      ExecuteConcat(sem, Apply(sem, sys, a[0]), a[1..], b);
    }
  }

  lemma Stays(sem: Semantics, sys: Sys)
    ensures Reaches(sem, sys, sys)
  {
    assert Execute(sem, sys, []) == sys;
  }

  lemma Chains(sem: Semantics, a: Sys, b: Sys, c: Sys)
    requires Reaches(sem, a, b) && Reaches(sem, b, c)
    ensures Reaches(sem, a, c)
  {
    var p :| Execute(sem, a, p) == b;
    var q :| Execute(sem, b, q) == c;
    ExecuteConcat(sem, a, p, q);
  }

  lemma AndThen(sem: Semantics, sys: Sys, mid: Sys, a: Step)
    requires Reaches(sem, sys, mid)
    ensures Reaches(sem, sys, Apply(sem, mid, a))
  {
    assert Execute(sem, mid, [a]) == Apply(sem, mid, a) by {
      assert Execute(sem, Apply(sem, mid, a), [a][1..]) == Apply(sem, mid, a);
    }
    Chains(sem, sys, mid, Apply(sem, mid, a));
  }

  /** The operator's gate closes once and stays closed while an ingest and its descendants run. */
  ghost predicate GateOrdered(w: World) {
    forall d, d' | d <= d' && w(d).blocked :: w(d').blocked
  }

  /** Same tasks apart from task i, whose statement counter moved. */
  ghost predicate OnlyMoved(sys: Sys, end: Sys, i: nat, s: Tables, pc: Pc) {
    && i < |sys.tasks| <= |end.tasks|
    && end.store == s
    && end.tasks[i] == sys.tasks[i].(pc := pc)
    && (forall j | 0 <= j < |sys.tasks| && j != i :: end.tasks[j] == sys.tasks[j])
  }

  /** One more statement of task i. */
  lemma Statement(sem: Semantics, sys: Sys, mid: Sys, i: nat, c: Choice, s: Tables, pc: Pc, s': Tables, pc': Pc)
    requires Reaches(sem, sys, mid) && OnlyMoved(sys, mid, i, s, pc)
    requires OnlyMoved(mid, RunTask(sem, mid, i, c), i, s', pc')
    ensures Reaches(sem, sys, RunTask(sem, mid, i, c)) && OnlyMoved(sys, RunTask(sem, mid, i, c), i, s', pc')
  {
    AndThen(sem, sys, mid, Run(i, c));
  }

  lemma RunsReceive(sem: Semantics, sys: Sys, i: nat, c: Choice)
    requires i < |sys.tasks| && sys.tasks[i].pc.Receive?
    ensures var (s', r) := InsertEvent(sys.store, sys.tasks[i].event, c.insert);
      var sys' := RunTask(sem, sys, i, c);
      OnlyMoved(sys, sys', i, s', AfterInsert(r)) && sys'.blocked == sys.blocked
  {
  }

  lemma RunsRecorded(sem: Semantics, sys: Sys, i: nat, c: Choice)
    requires i < |sys.tasks| && sys.tasks[i].pc.Recorded?
    ensures var (e, s, sys') := (sys.tasks[i].event, sys.store, RunTask(sem, sys, i, c));
      match Refusal(e, sem)
      case Some(status) =>
        OnlyMoved(sys, sys', i, BeginExecution(s, RefusalFor(e, c.executionId, status), c.intentWrite).0,
                  Finished(Answered(None, Ignores))) && sys'.blocked == sys.blocked
      case None =>
        OnlyMoved(sys, sys', i, Ask(s, e.id), Answering(DecisionOf(e, SelectRoute(sys.tasks[i].rt, e), c)))
        && sys'.blocked == sys.blocked
  {
  }

  lemma RunsReady(sem: Semantics, sys: Sys, i: nat, c: Choice, dec: Decision, t: Then, x: Execution)
    requires i < |sys.tasks| && sys.tasks[i].pc == Ready(dec, t, x)
    ensures var sys' := RunTask(sem, sys, i, c);
      OnlyMoved(sys, sys', i, sys.store,
                if Suppressed(t, sys.blocked) then Finishing(dec, t, x, Shadowed) else Performing(dec, t, x))
      && sys'.blocked == sys.blocked
  {
  }

  lemma RunsSpawning(sem: Semantics, sys: Sys, i: nat, c: Choice, dec: Decision, t: Then, x: Execution)
    requires i < |sys.tasks| && sys.tasks[i].pc == Performing(dec, t, x) && x.decision.Some? && x.chosenBy.Some?
    requires Perform(sys.tasks[i].rt, c, sys.store, sys.tasks[i].event, dec, t, x).Spawns?
    ensures var (p, sys') := (Perform(sys.tasks[i].rt, c, sys.store, sys.tasks[i].event, dec, t, x), RunTask(sem, sys, i, c));
      && OnlyMoved(sys, sys', i, p.tables, Waiting(dec, t, x, |sys.tasks|))
      && sys'.blocked == sys.blocked && |sys'.tasks| == |sys.tasks| + 1
      && sys'.tasks[|sys.tasks|] == Task(sys.tasks[i].rt, p.child, Receive)
  {
  }

  lemma RunsWaiting(sem: Semantics, sys: Sys, i: nat, c: Choice, dec: Decision, t: Then, x: Execution, k: nat)
    requires i < |sys.tasks| && sys.tasks[i].pc == Waiting(dec, t, x, k) && k < |sys.tasks| && sys.tasks[k].pc.Finished?
    ensures OnlyMoved(sys, RunTask(sem, sys, i, c), i, sys.store,
                      Finishing(dec, t, x, Closing(sys.tasks[k].pc.response != IngestError)))
  {
  }

  lemma RunsFinishing(sem: Semantics, sys: Sys, i: nat, c: Choice, dec: Decision, t: Then, x: Execution,
                      status: ExecutionStatus)
    requires i < |sys.tasks| && sys.tasks[i].pc == Finishing(dec, t, x, status)
    ensures OnlyMoved(sys, RunTask(sem, sys, i, c), i, FinishExecution(sys.store, x.id, status, c.finishWrite),
                      Finished(Answered(Some(dec), Outcome(t))))
  {
  }

  function Goal(g: Stage): Pc {
    match g
    case Halted(_, response) => Finished(response)
    case Intended(_, dec, t, x) => Ready(dec, t, x)
  }

  /** From the insert to durable intent. */
  lemma Prepares(sem: Semantics, sys: Sys, i: nat, c: Choice) returns (end: Sys)
    requires i < |sys.tasks| && sys.tasks[i].pc.Receive?
    ensures var g := Prepare(sys.tasks[i].rt, sem, c, sys.store, sys.tasks[i].event);
      Reaches(sem, sys, end) && OnlyMoved(sys, end, i, g.tables, Goal(g)) && end.blocked == sys.blocked
  {
    var task := sys.tasks[i];
    var e := task.event;
    var (s1, r) := InsertEvent(sys.store, e, c.insert);
    Stays(sem, sys);
    RunsReceive(sem, sys, i, c);
    Statement(sem, sys, sys, i, c, sys.store, Receive, s1, AfterInsert(r));
    end := RunTask(sem, sys, i, c);
    if r == Inserted {
      end := PreparesStored(sem, sys, end, i, c, s1);
    }
  }

  lemma PreparesStored(sem: Semantics, sys: Sys, mid: Sys, i: nat, c: Choice, s: Tables) returns (end: Sys)
    requires Reaches(sem, sys, mid) && OnlyMoved(sys, mid, i, s, Stored) && mid.blocked == sys.blocked
    requires InsertEvent(sys.store, sys.tasks[i].event, c.insert) == (s, Inserted)
    ensures var g := Prepare(sys.tasks[i].rt, sem, c, sys.store, sys.tasks[i].event);
      Reaches(sem, sys, end) && OnlyMoved(sys, end, i, g.tables, Goal(g)) && end.blocked == sys.blocked
  {
    var task := sys.tasks[i];
    var e := task.event;
    var (s2, recorded) := RecordRevision(s, e.id, task.rt.revision, c.revisionWrite);
    RevisionWritten(sem, mid, i, c);
    Statement(sem, sys, mid, i, c, s, Stored, s2, if recorded then Recorded else Finished(IngestError));
    end := RunTask(sem, mid, i, c);
    if recorded {
      var recordedAt := end;
      RunsRecorded(sem, recordedAt, i, c);
      end := RunTask(sem, recordedAt, i, c);
      if Refusal(e, sem).Some? {
        var s3 := BeginExecution(s2, RefusalFor(e, c.executionId, Refusal(e, sem).value), c.intentWrite).0;
        Statement(sem, sys, recordedAt, i, c, s2, Recorded, s3, Finished(Answered(None, Ignores)));
      } else {
        var dec := DecisionOf(e, SelectRoute(task.rt, e), c);
        Statement(sem, sys, recordedAt, i, c, s2, Recorded, Ask(s2, e.id), Answering(dec));
        end := PreparesAnswer(sem, sys, end, i, c, s2, dec);
      }
    }
  }

  lemma PreparesAnswer(sem: Semantics, sys: Sys, mid: Sys, i: nat, c: Choice, s: Tables,
                       dec: Decision) returns (end: Sys)
    requires i < |sys.tasks| && dec == DecisionOf(sys.tasks[i].event, SelectRoute(sys.tasks[i].rt, sys.tasks[i].event), c)
    requires Reaches(sem, sys, mid) && OnlyMoved(sys, mid, i, Ask(s, sys.tasks[i].event.id), Answering(dec))
    requires mid.blocked == sys.blocked
    ensures var g := Judge(sys.tasks[i].rt, sem, c, Ask(s, sys.tasks[i].event.id), sys.tasks[i].event);
      Reaches(sem, sys, end) && OnlyMoved(sys, end, i, g.tables, Goal(g)) && end.blocked == sys.blocked
  {
    var task := sys.tasks[i];
    var e := task.event;
    var (s3, decided) := InsertDecision(Ask(s, e.id), dec, c.decisionWrite);
    AnswerWritten(sem, mid, i, c);
    Statement(sem, sys, mid, i, c, Ask(s, e.id), Answering(dec), s3, AfterAnswer(dec, decided));
    end := RunTask(sem, mid, i, c);
    if decided {
      var at := end;
      var policy := SelectRoute(task.rt, e).policy;
      var (t, rule) := Select(policy, dec, e, sem);
      var x := IntentFor(e, dec, t, rule, policy, c.executionId);
      var (s4, begun) := BeginExecution(s3, x, c.intentWrite);
      IntentWritten(sem, at, i, c, t, rule, x);
      Statement(sem, sys, at, i, c, s3, Decided(dec), s4, AfterIntent(dec, t, x, begun));
      end := RunTask(sem, at, i, c);
    }
  }

  /** Every recursive ingest, with all its descendants, is a run of the statement-level system in
      which nothing else moves: same final tables, same response. */
  lemma {:induction false} Simulates(sem: Semantics, sys: Sys, i: nat, w: World) returns (end: Sys)
    requires i < |sys.tasks| && sys.tasks[i].pc.Receive?
    requires GateOrdered(w) && (sys.blocked ==> w(sys.tasks[i].event.depth).blocked)
    ensures var (s', response) := IngestResult(sys.tasks[i].rt, sem, w, sys.store, sys.tasks[i].event);
      Reaches(sem, sys, end) && OnlyMoved(sys, end, i, s', Finished(response))
    decreases Remaining(sys.tasks[i].event), 3
  {
    var task := sys.tasks[i];
    var c := w(task.event.depth);
    var g := Prepare(task.rt, sem, c, sys.store, task.event);
    end := Prepares(sem, sys, i, c);
    if g.Intended? {
      var ready := end;
      if c.blocked && !ready.blocked {
        AndThen(sem, sys, ready, CloseGate);
        ready := Apply(sem, ready, CloseGate);
      }
      end := Concludes(sem, sys, ready, i, w, g.tables, g.decision, g.then_, g.execution);
    }
  }

  lemma {:induction false} Concludes(sem: Semantics, sys: Sys, ready: Sys, i: nat, w: World,
                                     s: Tables, dec: Decision, t: Then, x: Execution) returns (end: Sys)
    requires Reaches(sem, sys, ready) && OnlyMoved(sys, ready, i, s, Ready(dec, t, x))
    requires Prepare(sys.tasks[i].rt, sem, w(sys.tasks[i].event.depth), sys.store, sys.tasks[i].event) == Intended(s, dec, t, x)
    requires GateOrdered(w) && ready.blocked == w(sys.tasks[i].event.depth).blocked
    ensures var (s', response) := IngestResult(sys.tasks[i].rt, sem, w, sys.store, sys.tasks[i].event);
      Reaches(sem, sys, end) && OnlyMoved(sys, end, i, s', Finished(response))
    decreases Remaining(sys.tasks[i].event), 2
  {
    var task := sys.tasks[i];
    var c := w(task.event.depth);
    RunsReady(sem, ready, i, c, dec, t, x);
    var checked := RunTask(sem, ready, i, c);
    if Suppressed(t, c.blocked) {
      Statement(sem, sys, ready, i, c, s, Ready(dec, t, x), s, Finishing(dec, t, x, Shadowed));
      end := Closes(sem, sys, checked, i, c, s, dec, t, x, Shadowed);
    } else {
      Statement(sem, sys, ready, i, c, s, Ready(dec, t, x), s, Performing(dec, t, x));
      end := Effects(sem, sys, checked, i, w, s, dec, t, x);
    }
  }

  /** From a passed gate check to the end: the effect settles, or its child runs first. */
  lemma {:induction false} Effects(sem: Semantics, sys: Sys, checked: Sys, i: nat, w: World,
                                   s: Tables, dec: Decision, t: Then, x: Execution) returns (end: Sys)
    requires Reaches(sem, sys, checked) && OnlyMoved(sys, checked, i, s, Performing(dec, t, x))
    requires sys.tasks[i].event.depth <= MAX_DEPTH && x.decision.Some? && x.chosenBy.Some?
    requires !Suppressed(t, w(sys.tasks[i].event.depth).blocked)
    requires GateOrdered(w) && (checked.blocked ==> w(sys.tasks[i].event.depth).blocked)
    ensures Reaches(sem, sys, end)
    ensures OnlyMoved(sys, end, i, Conclude(sys.tasks[i].rt, sem, w, s, sys.tasks[i].event, dec, t, x),
                      Finished(Answered(Some(dec), Outcome(t))))
    decreases Remaining(sys.tasks[i].event), 1
  {
    var task := sys.tasks[i];
    var c := w(task.event.depth);
    var p := Perform(task.rt, c, s, task.event, dec, t, x);
    if p.Settled? {
      EffectSettled(sem, checked, i, c, p);
      Statement(sem, sys, checked, i, c, s, Performing(dec, t, x), p.tables, Finishing(dec, t, x, Closing(p.ok)));
      end := Closes(sem, sys, RunTask(sem, checked, i, c), i, c, p.tables, dec, t, x, Closing(p.ok));
    } else {
      var k := |checked.tasks|;
      RunsSpawning(sem, checked, i, c, dec, t, x);
      Statement(sem, sys, checked, i, c, s, Performing(dec, t, x), p.tables, Waiting(dec, t, x, k));
      end := Awaits(sem, sys, RunTask(sem, checked, i, c), i, w, p.tables, dec, t, x, k, p.child);
    }
  }

  lemma Closes(sem: Semantics, sys: Sys, mid: Sys, i: nat, c: Choice, s: Tables, dec: Decision, t: Then, x: Execution,
               status: ExecutionStatus) returns (end: Sys)
    requires Reaches(sem, sys, mid) && OnlyMoved(sys, mid, i, s, Finishing(dec, t, x, status))
    ensures Reaches(sem, sys, end)
    ensures OnlyMoved(sys, end, i, FinishExecution(s, x.id, status, c.finishWrite), Finished(Answered(Some(dec), Outcome(t))))
  {
    RunsFinishing(sem, mid, i, c, dec, t, x, status);
    Statement(sem, sys, mid, i, c, s, Finishing(dec, t, x, status),
              FinishExecution(s, x.id, status, c.finishWrite), Finished(Answered(Some(dec), Outcome(t))));
    end := RunTask(sem, mid, i, c);
  }

  /** The parent waits while its child runs to its end. */
  lemma {:induction false} Awaits(sem: Semantics, sys: Sys, mid: Sys, i: nat, w: World, s: Tables, dec: Decision,
                                  t: Then, x: Execution, k: nat, child: Event) returns (end: Sys)
    requires i < |sys.tasks| <= k < |mid.tasks| && mid.tasks[k] == Task(sys.tasks[i].rt, child, Receive)
    requires Reaches(sem, sys, mid) && OnlyMoved(sys, mid, i, s, Waiting(dec, t, x, k))
    requires sys.tasks[i].event.depth <= MAX_DEPTH && child.depth == sys.tasks[i].event.depth + 1
    requires GateOrdered(w) && (mid.blocked ==> w(sys.tasks[i].event.depth).blocked)
    ensures var c := w(sys.tasks[i].event.depth);
      var (s', r) := IngestResult(sys.tasks[i].rt, sem, w, s, child);
      && Reaches(sem, sys, end)
      && OnlyMoved(sys, end, i, FinishExecution(s', x.id, Closing(r != IngestError), c.finishWrite),
                   Finished(Answered(Some(dec), Outcome(t))))
    decreases Remaining(sys.tasks[i].event), 0
  {
    var c := w(sys.tasks[i].event.depth);
    var (s', r) := IngestResult(sys.tasks[i].rt, sem, w, s, child);
    var done := Simulates(sem, mid, k, w);
    Chains(sem, sys, mid, done);
    RunsWaiting(sem, done, i, c, dec, t, x, k);
    Statement(sem, sys, done, i, c, s', Waiting(dec, t, x, k), s', Finishing(dec, t, x, Closing(r != IngestError)));
    end := Closes(sem, sys, RunTask(sem, done, i, c), i, c, s', dec, t, x, Closing(r != IngestError));
  }

  /** So a whole ingest, run on any reachable tables while nothing else moves, keeps every promise. */
  lemma IngestKeeps(sem: Semantics, sys: Sys, i: nat, w: World)
    requires SysOk(sys, sem) && i < |sys.tasks| && sys.tasks[i].pc.Receive?
    requires GateOrdered(w) && (sys.blocked ==> w(sys.tasks[i].event.depth).blocked)
    ensures StoreOk(IngestResult(sys.tasks[i].rt, sem, w, sys.store, sys.tasks[i].event).0, sem)
  {
    var end := Simulates(sem, sys, i, w);
    var schedule :| Execute(sem, sys, schedule) == end;
    EveryRunIsSafe(sem, sys, schedule);
  }
}
