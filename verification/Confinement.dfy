/** What an activated configuration can never do. Activation admits a configuration only after
    EffectsAllowed (cmd/mrmr/control_config.go); here every run of such a runtime, beside any others, is
    followed through the statement-level system. */
module Confinement {
  import opened Domain
  import opened PolicyRules
  import opened Configuration
  import opened Store
  import opened Pipeline
  import opened Steps
  import opened Runs

  ghost predicate Harmless(t: Then, live: bool) {
    t.shadow || ExecutedBranch(t) == NoBranch || (live && ExecutedBranch(t) == NotifyBranch)
  }

  ghost predicate HarmlessPc(pc: Pc, live: bool) {
    match pc
    case Ready(_, t, _) => Harmless(t, live)
    case Performing(_, t, _) => Harmless(t, live) && !t.shadow
    case _ => true
  }

  ghost predicate FromOutside(e: Event) { e.depth == 0 && e.provenance.None? }

  /** An ingest under a confined runtime came from outside and can only notify. */
  ghost predicate TaskConfined(task: Task, live: bool) {
    Confined(task.rt, live) ==> FromOutside(task.event) && HarmlessPc(task.pc, live)
  }

  ghost predicate TasksConfined(tasks: seq<Task>, live: bool) {
    forall i {:trigger TaskConfined(tasks[i], live)} | 0 <= i < |tasks| :: TaskConfined(tasks[i], live)
  }

  ghost predicate EventConfined(e: Event, hist: History, live: bool) {
    e.id in hist && (Confined(hist[e.id], live) ==> FromOutside(e))
  }

  ghost predicate EventsConfined(events: map<Id, Event>, hist: History, live: bool) {
    forall id {:trigger EventConfined(events[id], hist, live)} | id in events ::
      events[id].id == id && EventConfined(events[id], hist, live)
  }

  ghost predicate DispatchConfined(d: Dispatch, hist: History, live: bool) {
    d.event in hist && (Confined(hist[d.event], live) ==> live && ExecutedBranch(d.performed) == NotifyBranch)
  }

  ghost predicate DispatchesConfined(log: seq<Dispatch>, hist: History, live: bool) {
    forall d {:trigger DispatchConfined(d, hist, live)} | d in log :: DispatchConfined(d, hist, live)
  }

  ghost predicate AllConfined(sys: Sys, live: bool) {
    && TasksConfined(sys.tasks, live)
    && EventsConfined(sys.store.events, sys.ingestedBy, live)
    && DispatchesConfined(sys.store.dispatched, sys.ingestedBy, live)
  }

  // ---- A step of one ingest ----

  /** What one statement of task i leaves alone: other ingests, and its own event and runtime; it stores
      at most that event, under that runtime, and starts only ingests under the same runtime. */
  ghost predicate Framed(sys: Sys, sys': Sys, i: nat) {
    && i < |sys.tasks| <= |sys'.tasks|
    && (forall j | 0 <= j < |sys.tasks| && j != i :: sys'.tasks[j] == sys.tasks[j])
    && sys'.tasks[i].event == sys.tasks[i].event && sys'.tasks[i].rt == sys.tasks[i].rt
    && (forall j | |sys.tasks| <= j < |sys'.tasks| :: sys'.tasks[j].rt == sys.tasks[i].rt)
    && StoresOwn(sys, sys', sys.tasks[i].event, sys.tasks[i].rt)
  }

  ghost predicate StoresOwn(sys: Sys, sys': Sys, e: Event, rt: Runtime) {
    || (sys'.store.events == sys.store.events && sys'.ingestedBy == sys.ingestedBy)
    || (&& e.id !in sys.store.events && sys'.store.events == sys.store.events[e.id := e]
        && sys'.ingestedBy == sys.ingestedBy[e.id := rt])
  }

  lemma ReceiveIsFramed(sem: Semantics, sys: Sys, i: nat, c: Choice)
    requires i < |sys.tasks| && sys.tasks[i].pc.Receive?
    ensures Framed(sys, RunTask(sem, sys, i, c), i) && |RunTask(sem, sys, i, c).tasks| == |sys.tasks|
  {
    Received(sem, sys, i, c);
  }

  lemma StoredIsFramed(sem: Semantics, sys: Sys, i: nat, c: Choice)
    requires i < |sys.tasks| && sys.tasks[i].pc.Stored?
    ensures Framed(sys, RunTask(sem, sys, i, c), i) && |RunTask(sem, sys, i, c).tasks| == |sys.tasks|
  {
  }

  lemma RecordedIsFramed(sem: Semantics, sys: Sys, i: nat, c: Choice)
    requires i < |sys.tasks| && sys.tasks[i].pc.Recorded?
    ensures Framed(sys, RunTask(sem, sys, i, c), i) && |RunTask(sem, sys, i, c).tasks| == |sys.tasks|
    ensures RunTask(sem, sys, i, c).tasks[i].pc.Finished? || RunTask(sem, sys, i, c).tasks[i].pc.Answering?
  {
  }

  lemma LaterIsFramed(sem: Semantics, sys: Sys, i: nat, c: Choice)
    requires i < |sys.tasks| && var pc := sys.tasks[i].pc;
      pc.Answering? || pc.Ready? || pc.Waiting? || pc.Finishing? || pc.Finished?
    ensures Framed(sys, RunTask(sem, sys, i, c), i) && |RunTask(sem, sys, i, c).tasks| == |sys.tasks|
  {
    if sys.tasks[i].pc.Waiting? {
      ChildAnswered(sem, sys, i, c);
    } else if sys.tasks[i].pc.Finishing? {
      OutcomeWritten(sem, sys, i, c);
      FinishFrame(sys.store, sys.tasks[i].pc.execution.id, sys.tasks[i].pc.status, c.finishWrite);
    } else if sys.tasks[i].pc.Answering? {
      AnswerWritten(sem, sys, i, c);
    } else {
      GateIsFramed(sem, sys, i, c);
    }
  }

  lemma GateIsFramed(sem: Semantics, sys: Sys, i: nat, c: Choice)
    requires i < |sys.tasks| && (sys.tasks[i].pc.Ready? || sys.tasks[i].pc.Finished?)
    ensures Framed(sys, RunTask(sem, sys, i, c), i) && |RunTask(sem, sys, i, c).tasks| == |sys.tasks|
  {
  }

  lemma DecidedIsFramed(sem: Semantics, sys: Sys, i: nat, c: Choice)
    requires i < |sys.tasks| && sys.tasks[i].pc.Decided?
    ensures Framed(sys, RunTask(sem, sys, i, c), i) && |RunTask(sem, sys, i, c).tasks| == |sys.tasks|
    ensures var (task, pc') := (sys.tasks[i], RunTask(sem, sys, i, c).tasks[i].pc);
      pc'.Ready? ==> pc'.then_ == Select(SelectRoute(task.rt, task.event).policy, task.pc.decision, task.event, sem).0
  {
  }

  lemma PerformKeepsEvents(rt: Runtime, c: Choice, s: Tables, e: Event, dec: Decision, t: Then, x: Execution)
    requires x.decision.Some? && x.chosenBy.Some?
    ensures Perform(rt, c, s, e, dec, t, x).tables.events == s.events
    ensures Perform(rt, c, s, e, dec, t, x).Spawns? ==> ExecutedBranch(t) == ActionBranch || ExecutedBranch(t) == DelegateBranch
  {
  }

  lemma PerformingIsFramed(sem: Semantics, sys: Sys, i: nat, c: Choice)
    requires i < |sys.tasks| && sys.tasks[i].pc.Performing?
    ensures var (t, sys') := (sys.tasks[i].pc.then_, RunTask(sem, sys, i, c));
      && Framed(sys, sys', i)
      && (ExecutedBranch(t) == NoBranch || ExecutedBranch(t) == NotifyBranch ==> |sys'.tasks| == |sys.tasks|)
      && !sys'.tasks[i].pc.Ready? && (sys'.tasks[i].pc.Performing? ==> sys' == sys)
  {
    var (task, pc) := (sys.tasks[i], sys.tasks[i].pc);
    if pc.execution.decision.Some? && pc.execution.chosenBy.Some? {
      var p := Perform(task.rt, c, sys.store, task.event, pc.decision, pc.then_, pc.execution);
      PerformKeepsEvents(task.rt, c, sys.store, task.event, pc.decision, pc.then_, pc.execution);
      if p.Settled? {
        EffectSettled(sem, sys, i, c, p);
      } else {
        Spawned(sem, sys, i, c, p, Waiting(pc.decision, pc.then_, pc.execution, |sys.tasks|));
      }
    }
  }

  /** Whatever a confined runtime's policies select is harmless. */
  lemma SelectsHarmless(rt: Runtime, e: Event, dec: Decision, sem: Semantics, live: bool)
    requires Confined(rt, live)
    ensures Harmless(Select(SelectRoute(rt, e).policy, dec, e, sem).0, live)
  {
    if dec.status == Ok {
      SelectedIsOffered(rt, e, dec.result, sem);
    }
  }

  lemma ReadyIsHarmless(sem: Semantics, sys: Sys, i: nat, c: Choice, live: bool)
    requires i < |sys.tasks| && sys.tasks[i].pc.Ready? && HarmlessPc(sys.tasks[i].pc, live)
    ensures HarmlessPc(RunTask(sem, sys, i, c).tasks[i].pc, live)
  {
  }

  lemma OthersAreHarmless(sem: Semantics, sys: Sys, i: nat, c: Choice, live: bool)
    requires i < |sys.tasks| && var pc := sys.tasks[i].pc;
      pc.Receive? || pc.Stored? || pc.Answering? || pc.Waiting? || pc.Finishing? || pc.Finished?
    ensures HarmlessPc(RunTask(sem, sys, i, c).tasks[i].pc, live)
  {
  }

  lemma RunIsFramed(sem: Semantics, sys: Sys, i: nat, c: Choice)
    requires i < |sys.tasks|
    ensures Framed(sys, RunTask(sem, sys, i, c), i)
  {
    match sys.tasks[i].pc {
      case Receive => ReceiveIsFramed(sem, sys, i, c);
      case Stored => StoredIsFramed(sem, sys, i, c);
      case Recorded => RecordedIsFramed(sem, sys, i, c);
      case Decided(_) => DecidedIsFramed(sem, sys, i, c);
      case Performing(_, _, _) => PerformingIsFramed(sem, sys, i, c);
      case _ => LaterIsFramed(sem, sys, i, c);
    }
  }

  /** A statement under a confined runtime starts no other ingest and stays harmless. */
  lemma RunStaysHarmless(sem: Semantics, sys: Sys, i: nat, c: Choice, live: bool)
    requires i < |sys.tasks| && Confined(sys.tasks[i].rt, live) && HarmlessPc(sys.tasks[i].pc, live)
    ensures var sys' := RunTask(sem, sys, i, c);
      i < |sys'.tasks| == |sys.tasks| && HarmlessPc(sys'.tasks[i].pc, live)
  {
    var task := sys.tasks[i];
    match task.pc {
      case Recorded =>
        RecordedIsFramed(sem, sys, i, c);
      case Decided(dec) =>
        DecidedIsFramed(sem, sys, i, c);
        SelectsHarmless(task.rt, task.event, dec, sem, live);
      case Performing(_, _, _) =>
        PerformingIsFramed(sem, sys, i, c);
      case Ready(_, _, _) =>
        LaterIsFramed(sem, sys, i, c);
        ReadyIsHarmless(sem, sys, i, c, live);
      case Receive =>
        ReceiveIsFramed(sem, sys, i, c);
        OthersAreHarmless(sem, sys, i, c, live);
      case Stored =>
        StoredIsFramed(sem, sys, i, c);
        OthersAreHarmless(sem, sys, i, c, live);
      case _ =>
        LaterIsFramed(sem, sys, i, c);
        OthersAreHarmless(sem, sys, i, c, live);
    }
  }

  // ---- Every step, every run ----

  lemma TasksStayConfined(sys: Sys, sys': Sys, i: nat, live: bool)
    requires TasksConfined(sys.tasks, live) && Framed(sys, sys', i)
    requires Confined(sys.tasks[i].rt, live) ==> |sys'.tasks| == |sys.tasks| && HarmlessPc(sys'.tasks[i].pc, live)
    ensures TasksConfined(sys'.tasks, live)
  {
    assert TaskConfined(sys.tasks[i], live);
    forall j | 0 <= j < |sys'.tasks| ensures TaskConfined(sys'.tasks[j], live) {
      if j < |sys.tasks| && j != i {
        assert TaskConfined(sys.tasks[j], live);
      }
    }
  }

  lemma EventsStayConfined(sys: Sys, sys': Sys, i: nat, live: bool)
    requires TasksConfined(sys.tasks, live) && Framed(sys, sys', i)
    requires EventsConfined(sys.store.events, sys.ingestedBy, live)
    ensures EventsConfined(sys'.store.events, sys'.ingestedBy, live)
  {
    assert TaskConfined(sys.tasks[i], live);
    forall id | id in sys'.store.events
      ensures sys'.store.events[id].id == id && EventConfined(sys'.store.events[id], sys'.ingestedBy, live)
    {
      if id in sys.store.events {
        assert EventConfined(sys.store.events[id], sys.ingestedBy, live);
      }
    }
  }

  /** A performing task adds one dispatch, of its own confined outcome; nothing else adds any. */
  lemma DispatchesStayConfined(sys: Sys, sys': Sys, i: nat, live: bool)
    requires sys.ingestedBy.Keys == sys.store.events.Keys && Framed(sys, sys', i) && TaskConfined(sys.tasks[i], live)
    requires DispatchesConfined(sys.store.dispatched, sys.ingestedBy, live)
    requires var (task, pc, log) := (sys.tasks[i], sys.tasks[i].pc, sys.store.dispatched);
      || sys'.store.dispatched == log
      || (pc.Performing? && ExecutedBranch(pc.then_) != NoBranch
          && task.event.id in sys.store.events && sys.ingestedBy[task.event.id] == task.rt
          && sys'.store.dispatched == log + [Dispatch(task.event.id, pc.decision.id, pc.execution.id, pc.then_)])
    ensures DispatchesConfined(sys'.store.dispatched, sys'.ingestedBy, live)
  {
    forall d | d in sys'.store.dispatched ensures DispatchConfined(d, sys'.ingestedBy, live) {
      if d in sys.store.dispatched {
        assert DispatchConfined(d, sys.ingestedBy, live);
      }
    }
  }

  lemma ConfinementSurvives(sem: Semantics, sys: Sys, a: Step, live: bool)
    requires SysOk(sys, sem) && AllConfined(sys, live)
    ensures AllConfined(Apply(sem, sys, a), live)
  {
    var sys' := Apply(sem, sys, a);
    if a.Run? && a.task < |sys.tasks| {
      assert TaskConfined(sys.tasks[a.task], live);
      assert TaskOk(sys.store, sys.ingestedBy, sys.tasks[a.task], sem);
      OnlyPerformingDispatches(sem, sys, a);
      RunIsFramed(sem, sys, a.task, a.choice);
      if Confined(sys.tasks[a.task].rt, live) {
        RunStaysHarmless(sem, sys, a.task, a.choice, live);
      }
      TasksStayConfined(sys, sys', a.task, live);
      EventsStayConfined(sys, sys', a.task, live);
      DispatchesStayConfined(sys, sys', a.task, live);
    } else {
      forall j | 0 <= j < |sys'.tasks| ensures TaskConfined(sys'.tasks[j], live) {
        if j < |sys.tasks| {
          assert TaskConfined(sys.tasks[j], live);
        }
      }
    }
  }

  lemma {:induction false} RunsStayConfined(sem: Semantics, sys: Sys, schedule: seq<Step>, live: bool)
    requires SysOk(sys, sem) && AllConfined(sys, live)
    ensures AllConfined(Execute(sem, sys, schedule), live)
    decreases |schedule|
  {
    if schedule != [] {
      ApplyKeeps(sem, sys, schedule[0]);
      ConfinementSurvives(sem, sys, schedule[0], live);
      RunsStayConfined(sem, Apply(sem, sys, schedule[0]), schedule[1..], live);
    }
  }

  /** In every run, whatever other runtimes are at work: an event ingested under a configuration that
      passed the activation check came from outside and has no parent; its effect, if any, is a
      notification, never an HTTP action, an emit or a delegation; and not even that unless the check was
      made with consent and the stop open. */
  lemma ActivatedRuntimesAreConfined(sem: Semantics, schedule: seq<Step>, c: Config, revision: string, k: Consent)
    requires EffectsAllowed(c, k)
    ensures var sys := Execute(sem, START, schedule);
      var (s, hist, rt) := (sys.store, sys.ingestedBy, Snapshot(c, revision));
      && (forall id | id in s.events :: id in hist && (hist[id] == rt ==> FromOutside(s.events[id])))
      && (forall d | d in s.dispatched ::
            d.event in hist
            && (hist[d.event] == rt ==> k.allowLive && !k.blocked && ExecutedBranch(d.performed) == NotifyBranch))
  {
    var sys := Execute(sem, START, schedule);
    var live := k.allowLive && !k.blocked;
    AllowedIsConfined(c, revision, k);
    StartIsSafe(sem);
    assert AllConfined(START, live);
    RunsStayConfined(sem, START, schedule, live);
    forall id | id in sys.store.events
      ensures EventConfined(sys.store.events[id], sys.ingestedBy, live) && sys.store.events[id].id == id
    {
      assert EventConfined(sys.store.events[id], sys.ingestedBy, live);
    }
    forall d | d in sys.store.dispatched ensures DispatchConfined(d, sys.ingestedBy, live) {
    }
  }
}
