/** Every run of the activation protocol keeps its promises. */
module ActivationRuns {
  import opened Domain
  import opened Configuration
  import opened Checkpoints
  import opened Activation

  // ---- Which pollers a configuration runs ----

  lemma {:induction false} JobsPollSources(sources: seq<Source>, text: string, n: string)
    ensures Polls(JobsFrom(sources, text), n) <==> RunsIn(sources, n)
    ensures forall r | r in JobsFrom(sources, text) :: r.text == text
  {
    if sources != [] {
      JobsPollSources(sources[1..], text, n);
      var rest := JobsFrom(sources[1..], text);
      if Polls(rest, n) {
        var r :| r in rest && r.name == n;
        assert r in JobsFrom(sources, text);
      }
      if RunsIn(sources, n) && (sources[0].paused || sources[0].name != n) {
        var s :| s in sources && s.name == n && !s.paused;
        assert s in sources[1..];
      }
      if RunsIn(sources[1..], n) {
        var s :| s in sources[1..] && s.name == n && !s.paused;
        assert s in sources;
      }
      if !sources[0].paused && sources[0].name == n {
        assert JobsFrom(sources, text)[0] == Runner(n, text);
      }
    }
  }

  lemma {:induction false} FreshAreNew(sources: seq<Source>, cursors: Rows, running: seq<Source>)
    ensures forall n | n in FreshNames(sources, cursors, running) :: n !in cursors && !RunsIn(running, n)
    ensures forall s | s in sources :: s.name in cursors || s.name in FreshNames(sources, cursors, running) || RunsIn(running, s.name)
  {
    if sources != [] {
      FreshAreNew(sources[1..], cursors, running);
    }
  }

  /** What a reused name commits to: everything that decides where records come from, how they are read
      and what they are called. Pausing, the polling interval and a journal's units and priority may
      change; an omitted journal scope is the system scope. */
  lemma IdentityIsTheMapping(a: Source, b: Source)
    ensures Identity(a) == Identity(b) <==>
      && a.name == b.name && a.kind == b.kind && a.url == b.url && a.bearerEnv == b.bearerEnv
      && a.itemPath == b.itemPath && a.cursorField == b.cursorField && a.subjectField == b.subjectField
      && a.timestampField == b.timestampField && a.eventType == b.eventType
      && (a.scope == b.scope || (a.kind == SystemdJournal && {a.scope, b.scope} == {"", "system"}))
  {
  }

  // ---- Moves that every failing statement shares ----

  lemma AbandonKeeps(env: Env, sys: Sys)
    requires SysOk(env, sys) && sys.pc.At? && BeforeDrain(sys.pc.phase)
    ensures SysOk(env, Abandon(sys))
  {
  }

  lemma ResumeKeeps(env: Env, sys: Sys)
    requires SysOk(env, sys) && sys.pc.At? && AfterDrain(sys.pc.phase)
    ensures SysOk(env, Resume(env, sys))
  {
  }

  lemma GiveUpKeeps(env: Env, sys: Sys)
    requires SysOk(env, sys) && sys.pc.At? && (sys.pc.phase.Checked? || sys.pc.phase.Inspected?)
    ensures SysOk(env, sys.(pc := Idle))
  {
  }

  /** Moving on within a stretch whose promises are the same. */
  lemma AfterKeeps(env: Env, sys: Sys, phase: Phase)
    requires SysOk(env, sys) && sys.pc.At?
    requires var p := sys.pc.phase;
      || (p.Checked? && phase.Inspected?)
      || (BeforeDrain(p) && BeforeDrain(phase))
      || (AfterDrain(p) && !p.Audited? && !p.Retained? && AfterDrain(phase) && !phase.Retained?)
    ensures SysOk(env, After(sys, phase))
  {
    if sys.pc.phase.Checked? {
      InspectedKeeps(env, sys);
    } else if BeforeDrain(sys.pc.phase) {
      BeforeDrainKeeps(env, sys, phase);
    } else {
      AfterDrainKeeps(env, sys, phase);
    }
  }

  lemma InspectedKeeps(env: Env, sys: Sys)
    requires SysOk(env, sys) && sys.pc.At? && sys.pc.phase.Checked?
    ensures SysOk(env, After(sys, Inspected))
  {
  }

  lemma BeforeDrainKeeps(env: Env, sys: Sys, phase: Phase)
    requires SysOk(env, sys) && sys.pc.At? && BeforeDrain(sys.pc.phase) && BeforeDrain(phase)
    ensures SysOk(env, After(sys, phase))
  {
  }

  lemma AfterDrainKeeps(env: Env, sys: Sys, phase: Phase)
    requires SysOk(env, sys) && sys.pc.At? && AfterDrain(sys.pc.phase) && !sys.pc.phase.Retained?
    requires AfterDrain(phase) && !phase.Retained?
    ensures SysOk(env, After(sys, phase))
  {
  }

  lemma DrainBegins(env: Env, sys: Sys)
    requires SysOk(env, sys) && sys.pc.At? && sys.pc.phase.Ready?
    ensures SysOk(env, After(sys, Draining))
  {
  }

  lemma DrainEnds(env: Env, sys: Sys)
    requires SysOk(env, sys) && sys.pc.At? && sys.pc.phase.Draining? && sys.mem.running == []
    ensures SysOk(env, After(sys, Drained))
  {
  }

  lemma SurveyKeeps(env: Env, sys: Sys, created: seq<string>)
    requires SysOk(env, sys) && sys.pc.At? && sys.pc.phase.Inspected?
    requires created == FreshNames(SourcesOf(env, sys.pc.attempt.req.text), sys.db.cursors, ActiveSources(env, sys.mem.current))
    ensures SysOk(env, Survey(sys, created))
  {
    FreshAreNew(SourcesOf(env, sys.pc.attempt.req.text), sys.db.cursors, ActiveSources(env, sys.mem.current));
  }

  lemma WriteIsOfAttempt(env: Env, sys: Sys, s: Source)
    requires sys.pc.At? && Anchored(env, sys.mem.current, sys.db.cursors, sys.pc.attempt.req.text)
    requires Listed(env, sys.mem.current, sys.past.prior, sys.pc.attempt.created, sys.pc.attempt.req.text)
    requires s in SourcesOf(env, sys.pc.attempt.req.text) && s.kind == SystemdJournal && Position(sys.db.cursors, s.name) == ""
    ensures s.name in sys.past.prior || s.name in sys.pc.attempt.created
  {
  }

  lemma RowsKept(prior: Rows, cursors: Rows, moved: Rows, created: seq<string>, name: string, cursor: string)
    requires PriorKept(prior, cursors, moved) && NoStray(prior, cursors, moved, created)
    requires Position(cursors, name) == "" && (name in prior || name in created)
    ensures PriorKept(prior, cursors[name := cursor], moved) && NoStray(prior, cursors[name := cursor], moved, created)
  {
  }

  lemma CheckpointKeeps(env: Env, sys: Sys, s: Source, ok: bool, cursor: string, landed: bool)
    requires SysOk(env, sys) && sys.pc.At? && sys.pc.phase.Preparing? && s in SourcesOf(env, sys.pc.attempt.req.text)
    ensures SysOk(env, SetCursors(sys, Checkpoint(s, sys.db.cursors, ok, cursor, landed)))
  {
    if Checkpoint(s, sys.db.cursors, ok, cursor, landed) != sys.db.cursors {
      WriteIsOfAttempt(env, sys, s);
      RowsKept(sys.past.prior, sys.db.cursors, sys.past.moved, sys.pc.attempt.created, s.name, cursor);
      CheckpointStored(env, sys, s.name, cursor);
    } else {
      assert SetCursors(sys, sys.db.cursors) == sys;
    }
  }

  lemma CheckpointStored(env: Env, sys: Sys, name: string, cursor: string)
    requires SysOk(env, sys) && sys.pc.At? && sys.pc.phase.Preparing? && cursor != ""
    requires var cursors := sys.db.cursors[name := cursor];
      PriorKept(sys.past.prior, cursors, sys.past.moved) && NoStray(sys.past.prior, cursors, sys.past.moved, sys.pc.attempt.created)
    ensures SysOk(env, SetCursors(sys, sys.db.cursors[name := cursor]))
  {
  }

  lemma RetainKeeps(env: Env, sys: Sys, text: string, status: RevisionStatus)
    requires SysOk(env, sys)
    ensures SysOk(env, SetRevisions(sys, Retain(sys.db.revisions, text, status)))
    ensures text in Retain(sys.db.revisions, text, status)
  {
  }

  lemma RevisionStored(env: Env, sys: Sys)
    requires SysOk(env, sys) && sys.pc.At? && sys.pc.phase.Audited? && sys.pc.attempt.req.text in sys.db.revisions
    ensures SysOk(env, After(sys, Retained))
  {
  }

  lemma FileReplaced(env: Env, sys: Sys, synced: bool)
    requires SysOk(env, sys) && sys.pc.At? && sys.pc.phase.Retained?
    ensures SysOk(env, ReplaceFile(sys, synced))
  {
  }

  lemma SnapshotStored(env: Env, sys: Sys)
    requires SysOk(env, sys) && sys.pc.At? && sys.pc.phase.Replaced?
    ensures SysOk(env, StoreSnapshot(sys))
  {
  }

  lemma SourcesStarted(env: Env, sys: Sys)
    requires SysOk(env, sys) && sys.pc.At? && sys.pc.phase.Committed?
    ensures SysOk(env, After(sys, Started).(mem := sys.mem.(running := Jobs(env, sys.mem.current))))
  {
  }

  lemma ActivationEnds(env: Env, sys: Sys)
    requires SysOk(env, sys) && sys.pc.At? && sys.pc.phase.Started?
    ensures SysOk(env, sys.(pc := Idle))
  {
  }

  // ---- The activating process's own statements ----

  lemma EarlyNextKeeps(env: Env, sys: Sys, ok: bool, cursor: string, landed: bool)
    requires SysOk(env, sys) && sys.pc.At? && (sys.pc.phase.Checked? || sys.pc.phase.Inspected?)
    ensures SysOk(env, NextInAttempt(env, sys, ok, cursor, landed))
  {
    GiveUpKeeps(env, sys);
    if sys.pc.phase.Checked? {
      AfterKeeps(env, sys, Inspected);
    } else {
      SurveyKeeps(env, sys, FreshNames(SourcesOf(env, sys.pc.attempt.req.text), sys.db.cursors, ActiveSources(env, sys.mem.current)));
    }
  }

  lemma SourceStepKeeps(env: Env, sys: Sys, k: nat, ok: bool, cursor: string, landed: bool)
    requires SysOk(env, sys) && sys.pc.At? && sys.pc.phase == Preparing(k)
    ensures SysOk(env, PrepareNext(env, sys, k, ok, cursor, landed))
  {
    var sources := SourcesOf(env, sys.pc.attempt.req.text);
    if k >= |sources| {
      AfterKeeps(env, sys, Ready);
    } else {
      var written := SetCursors(sys, Checkpoint(sources[k], sys.db.cursors, ok, cursor, landed));
      CheckpointKeeps(env, sys, sources[k], ok, cursor, landed);
      AfterKeeps(env, written, Preparing(k + 1));
      AbandonKeeps(env, written);
    }
  }

  lemma PrepareNextKeeps(env: Env, sys: Sys, ok: bool, cursor: string, landed: bool)
    requires SysOk(env, sys) && sys.pc.At? && BeforeDrain(sys.pc.phase)
    ensures SysOk(env, NextInAttempt(env, sys, ok, cursor, landed))
  {
    match sys.pc.phase {
      case Surveyed =>
        AfterKeeps(env, sys, Preparing(0));
        AbandonKeeps(env, sys);
      case Preparing(k) => SourceStepKeeps(env, sys, k, ok, cursor, landed);
      case Ready =>
        DrainBegins(env, sys);
        AbandonKeeps(env, sys);
    }
  }

  lemma AuditedNextKeeps(env: Env, sys: Sys, ok: bool, landed: bool)
    requires SysOk(env, sys) && sys.pc.At? && sys.pc.phase.Audited?
    ensures SysOk(env, DrainedNext(env, sys, ok, landed))
  {
    var text := sys.pc.attempt.req.text;
    var written := SetRevisions(sys, Retain(sys.db.revisions, text, Prepared));
    RetainKeeps(env, sys, text, Prepared);
    RevisionStored(env, written);
    ResumeKeeps(env, sys);
    ResumeKeeps(env, written);
  }

  lemma DrainedNextKeeps(env: Env, sys: Sys, ok: bool, cursor: string, landed: bool)
    requires SysOk(env, sys) && sys.pc.At? && (sys.pc.phase.Draining? || AfterDrain(sys.pc.phase))
    ensures SysOk(env, NextInAttempt(env, sys, ok, cursor, landed))
  {
    match sys.pc.phase {
      case Draining =>
        if sys.mem.running == [] {
          DrainEnds(env, sys);
        }
      case Drained =>
        AfterKeeps(env, sys, Rechecked);
        ResumeKeeps(env, sys);
      case Rechecked =>
        AfterKeeps(env, sys, Audited);
        ResumeKeeps(env, sys);
      case Audited => AuditedNextKeeps(env, sys, ok, landed);
      case Retained =>
        FileReplaced(env, sys, landed);
        ResumeKeeps(env, sys);
    }
  }

  lemma CommitNextKeeps(env: Env, sys: Sys, ok: bool, cursor: string, landed: bool)
    requires SysOk(env, sys) && sys.pc.At? && PastCommit(sys.pc.phase)
    ensures SysOk(env, NextInAttempt(env, sys, ok, cursor, landed))
  {
    match sys.pc.phase {
      case Replaced => SnapshotStored(env, sys);
      case Committed => SourcesStarted(env, sys);
      case Started =>
        ActivationEnds(env, sys);
        RetainKeeps(env, sys.(pc := Idle), sys.pc.attempt.req.text, Active);
    }
  }

  lemma RestIsDeletable(env: Env, current: Option<string>, prior: Rows, cursors: Rows, moved: Rows,
                        rest: seq<string>)
    requires rest != [] && Deletable(env, current, prior, moved, rest)
    ensures Deletable(env, current, prior, moved, rest[1..])
    ensures rest[0] !in prior && rest[0] !in moved
    ensures PriorKept(prior, cursors, moved) ==> PriorKept(prior, cursors - {rest[0]}, moved)
    ensures NoStray(prior, cursors, moved, rest) ==> NoStray(prior, cursors - {rest[0]}, moved, rest[1..])
  {
    assert rest[0] in rest;
    forall n | n in rest[1..] ensures n in rest {
    }
    forall n | n in rest ensures n == rest[0] || n in rest[1..] {
      var i :| 0 <= i < |rest| && rest[i] == n;
      assert i > 0 ==> rest[1..][i - 1] == n;
    }
  }

  lemma CleanupMoves(env: Env, sys: Sys, cursors: Rows, lapsed: bool)
    requires SysOk(env, sys) && sys.pc.Cleaning? && sys.pc.rest != []
    requires var rest := sys.pc.rest[1..];
      PriorKept(sys.past.prior, cursors, sys.past.moved) && (lapsed || NoStray(sys.past.prior, cursors, sys.past.moved, rest))
      && Deletable(env, sys.mem.current, sys.past.prior, sys.past.moved, rest)
    ensures SysOk(env, SetCursors(sys, cursors).(pc := Cleaning(sys.pc.rest[1..]), past := sys.past.(lapsed := lapsed)))
  {
  }

  lemma CleanupEnds(env: Env, sys: Sys)
    requires SysOk(env, sys) && sys.pc.Cleaning?
    ensures SysOk(env, sys.(pc := Idle))
  {
  }

  lemma CleanupKeeps(env: Env, sys: Sys, ok: bool, cursor: string, landed: bool)
    requires SysOk(env, sys) && sys.pc.Cleaning?
    ensures SysOk(env, NextElsewhere(env, sys, ok, cursor, landed))
  {
    var rest := sys.pc.rest;
    if rest == [] {
      CleanupEnds(env, sys);
    } else {
      RestIsDeletable(env, sys.mem.current, sys.past.prior, sys.db.cursors, sys.past.moved, rest);
      if ok {
        CleanupMoves(env, sys, sys.db.cursors - {rest[0]}, sys.past.lapsed);
      } else {
        CleanupMoves(env, sys, sys.db.cursors, true);
      }
    }
  }

  lemma DownKeeps(env: Env, sys: Sys)
    requires SysOk(env, sys)
    ensures SysOk(env, Down(sys))
  {
  }

  lemma BootBegins(env: Env, sys: Sys, ok: bool, cursor: string, landed: bool)
    requires SysOk(env, sys) && sys.pc.Dead?
    ensures SysOk(env, NextElsewhere(env, sys, ok, cursor, landed))
  {
  }

  lemma BootedNextKeeps(env: Env, sys: Sys, ok: bool, cursor: string, landed: bool)
    requires SysOk(env, sys) && sys.pc.Booted?
    ensures SysOk(env, NextElsewhere(env, sys, ok, cursor, landed))
  {
  }

  lemma BootCheckpointKeeps(env: Env, sys: Sys, cursors: Rows, next: nat)
    requires SysOk(env, sys) && sys.pc.Booting?
    ensures SysOk(env, SetCursors(sys, cursors).(pc := Booting(sys.pc.text, next)))
    ensures SysOk(env, SetCursors(sys, cursors))
  {
  }

  lemma BootStores(env: Env, sys: Sys)
    requires SysOk(env, sys) && sys.pc.Booting?
    ensures SysOk(env, BootSnapshot(sys, sys.pc.text))
  {
  }

  lemma BootingNextKeeps(env: Env, sys: Sys, ok: bool, cursor: string, landed: bool)
    requires SysOk(env, sys) && sys.pc.Booting?
    ensures SysOk(env, NextElsewhere(env, sys, ok, cursor, landed))
  {
    var (text, k) := (sys.pc.text, sys.pc.next);
    var sources := SourcesOf(env, text);
    if k < |sources| {
      var cursors := Checkpoint(sources[k], sys.db.cursors, ok, cursor, landed);
      BootCheckpointKeeps(env, sys, cursors, k + 1);
      DownKeeps(env, SetCursors(sys, cursors));
    } else {
      BootStores(env, sys);
      RetainKeeps(env, sys, text, Active);
      DownKeeps(env, sys);
      DownKeeps(env, SetRevisions(sys, Retain(sys.db.revisions, text, Active)));
    }
  }

  lemma NextKeeps(env: Env, sys: Sys, a: Step)
    requires SysOk(env, sys) && a.Next?
    ensures SysOk(env, Apply(env, sys, a))
  {
    var (ok, cursor, landed) := (a.ok, a.cursor, a.landed);
    match sys.pc {
      case At(phase, _) =>
        if phase.Checked? || phase.Inspected? {
          EarlyNextKeeps(env, sys, ok, cursor, landed);
        } else if BeforeDrain(phase) {
          PrepareNextKeeps(env, sys, ok, cursor, landed);
        } else if PastCommit(phase) {
          CommitNextKeeps(env, sys, ok, cursor, landed);
        } else {
          DrainedNextKeeps(env, sys, ok, cursor, landed);
        }
      case Cleaning(_) => CleanupKeeps(env, sys, ok, cursor, landed);
      case Booting(_, _) => BootingNextKeeps(env, sys, ok, cursor, landed);
      case Booted(_) => BootedNextKeeps(env, sys, ok, cursor, landed);
      case Dead => BootBegins(env, sys, ok, cursor, landed);
      case Idle =>
    }
  }

  // ---- The environment's steps ----

  lemma BeginKeeps(env: Env, sys: Sys, a: Step)
    requires SysOk(env, sys) && a.Begin?
    ensures SysOk(env, Apply(env, sys, a))
  {
    var consent := Consent(a.req.allowLive, sys.mem.blocked, a.webhookReady);
    if sys.pc == Idle && Admissible(env, sys, a.req, consent, a.readable) {
      AllowedIsConfined(env.parse(a.req.text).value, a.req.text, consent);
    }
  }

  lemma ExitKeeps(env: Env, sys: Sys, a: Step)
    requires SysOk(env, sys) && a.Exit?
    ensures SysOk(env, Apply(env, sys, a))
  {
  }

  /** A running poller belongs to the active snapshot, so its row is never one to be deleted. */
  lemma PollersAreActive(env: Env, sys: Sys, name: string)
    requires SysOk(env, sys) && Polls(sys.mem.running, name)
    ensures sys.mem.current.Some? && RunsIn(ActiveSources(env, sys.mem.current), name)
  {
    var r :| r in sys.mem.running && r.name == name;
    assert r in Jobs(env, sys.mem.current);
    JobsPollSources(ActiveSources(env, sys.mem.current), TextOf(sys.mem.current), name);
  }

  lemma ProgressKept(env: Env, sys: Sys, name: string, cursor: string)
    requires SysOk(env, sys) && cursor != "" && RunsIn(ActiveSources(env, sys.mem.current), name)
    ensures SysOk(env, Progress(sys, name, cursor))
  {
  }

  lemma PollerWritesKeeps(env: Env, sys: Sys, a: Step)
    requires SysOk(env, sys) && a.PollerWrites?
    ensures SysOk(env, Apply(env, sys, a))
  {
    if Polls(sys.mem.running, a.name) && a.cursor != "" {
      PollersAreActive(env, sys, a.name);
      ProgressKept(env, sys, a.name, a.cursor);
    }
  }

  lemma HistoryKeeps(env: Env, sys: Sys, a: Step)
    requires SysOk(env, sys) && (a.Record? || a.Evaluate? || a.CloseGate? || a.PersistGate?)
    ensures SysOk(env, Apply(env, sys, a))
  {
  }

  lemma OutsideKeeps(env: Env, sys: Sys, a: Step)
    requires SysOk(env, sys) && (a.Edit? || a.Crash?)
    ensures SysOk(env, Apply(env, sys, a))
  {
  }

  lemma StepKeeps(env: Env, sys: Sys, a: Step)
    requires SysOk(env, sys)
    ensures SysOk(env, Apply(env, sys, a))
  {
    match a {
      case Begin(_, _, _) => BeginKeeps(env, sys, a);
      case Next(_, _, _) => NextKeeps(env, sys, a);
      case Exit(_) => ExitKeeps(env, sys, a);
      case PollerWrites(_, _) => PollerWritesKeeps(env, sys, a);
      case Edit(_) => OutsideKeeps(env, sys, a);
      case Crash(_) => OutsideKeeps(env, sys, a);
      case _ => HistoryKeeps(env, sys, a);
    }
  }

  // ---- Whole runs ----

  lemma StartOk(env: Env, file: string)
    ensures SysOk(env, Start(file))
  {
  }

  lemma {:induction false} EveryRunKeeps(env: Env, sys: Sys, steps: seq<Step>)
    requires SysOk(env, sys)
    ensures SysOk(env, Execute(env, sys, steps))
    decreases |steps|
  {
    if steps != [] {
      StepKeeps(env, sys, steps[0]);
      EveryRunKeeps(env, Apply(env, sys, steps[0]), steps[1..]);
    }
  }

  /** Whenever no activation is between its two commit statements, and whatever failed or crashed
      before: unless someone else edited the file, it holds the active snapshot's text; the pollers
      running are exactly that snapshot's; and at no moment do pollers of two snapshots coexist. */
  lemma ActivationAgreement(env: Env, file: string, steps: seq<Step>)
    ensures var sys := Execute(env, Start(file), steps);
      && (sys.pc.Idle? || sys.pc.Cleaning? ==>
            && (!sys.past.edited ==> sys.disk.file == TextOf(sys.mem.current))
            && sys.mem.running == Jobs(env, sys.mem.current))
      && (forall r | r in sys.mem.running :: sys.mem.current == Some(r.text))
  {
    var sys := Execute(env, Start(file), steps);
    StartOk(env, file);
    EveryRunKeeps(env, Start(file), steps);
    forall r | r in sys.mem.running ensures sys.mem.current == Some(r.text) {
      assert r in Jobs(env, sys.mem.current);
      JobsPollSources(ActiveSources(env, sys.mem.current), TextOf(sys.mem.current), r.name);
    }
  }

  /** What no statement of the process touches. */
  ghost predicate Steady(sys: Sys, sys': Sys) {
    sys'.past.events == sys.past.events && sys'.db.gate == sys.db.gate && (sys.pc.Dead? || sys'.mem.blocked == sys.mem.blocked)
  }

  /** What a statement before the drain leaves alone. */
  ghost predicate Untouched(sys: Sys, sys': Sys) {
    && Steady(sys, sys') && sys'.disk.file == sys.disk.file && sys'.mem.current == sys.mem.current && sys'.past.held == sys.past.held
    && sys'.mem.running == sys.mem.running
  }

  lemma BeforeDrainFrame(env: Env, sys: Sys, ok: bool, cursor: string, landed: bool)
    requires sys.pc.At? && !AfterDrain(sys.pc.phase) && !PastCommit(sys.pc.phase)
    ensures Untouched(sys, NextInAttempt(env, sys, ok, cursor, landed))
    ensures NextInAttempt(env, sys, ok, cursor, landed).pc.Cleaning? ==> BeforeDrain(sys.pc.phase)
  {
  }

  lemma DrainedFrame(env: Env, sys: Sys, ok: bool, landed: bool)
    requires sys.pc.At? && AfterDrain(sys.pc.phase)
    ensures var sys' := DrainedNext(env, sys, ok, landed);
      && Steady(sys, sys') && sys'.mem.current == sys.mem.current && sys'.past.held == sys.past.held
      && (sys'.pc.Cleaning? ==> sys'.mem.running == Jobs(env, sys.mem.current) && sys'.disk.file == sys.disk.file)
      && (sys'.disk.file != sys.disk.file ==>
            ok && sys.pc.phase.Retained? && sys'.disk.file == sys.pc.attempt.req.text && sys'.pc == At(Replaced, sys.pc.attempt))
  {
  }

  lemma CommitFrame(env: Env, sys: Sys, ok: bool)
    requires sys.pc.At? && PastCommit(sys.pc.phase)
    ensures var (phase, sys') := (sys.pc.phase, CommitNext(env, sys, ok));
      && Steady(sys, sys') && sys'.disk.file == sys.disk.file && sys'.db.cursors == sys.db.cursors && !sys'.pc.Cleaning?
      && (phase.Replaced? ==> sys'.pc == At(Committed, sys.pc.attempt) && sys'.mem.current == Some(sys.pc.attempt.req.text))
      && (phase.Committed? ==>
            sys'.pc == At(Started, sys.pc.attempt) && sys'.mem.current == sys.mem.current && sys'.mem.running == Jobs(env, sys.mem.current))
      && (phase.Started? ==> sys'.pc == Idle && sys'.mem.current == sys.mem.current && sys'.mem.running == sys.mem.running)
  {
  }

  lemma ElsewhereFrame(env: Env, sys: Sys, ok: bool, cursor: string, landed: bool)
    requires !sys.pc.At?
    ensures var sys' := NextElsewhere(env, sys, ok, cursor, landed);
      && Steady(sys, sys') && sys'.disk.file == sys.disk.file && (sys.pc.Dead? ==> sys'.pc.Dead? || sys'.mem.blocked == sys.db.gate)
  {
  }

  lemma NextIsSteady(env: Env, sys: Sys, a: Step)
    requires a.Next?
    ensures var sys' := Apply(env, sys, a);
      && Steady(sys, sys')
      && (sys.pc.Dead? ==> sys'.pc.Dead? || sys'.mem.blocked == sys.db.gate)
      && (sys'.disk.file != sys.disk.file ==>
            a.ok && sys.pc.At? && sys.pc.phase.Retained?
            && sys'.disk.file == sys.pc.attempt.req.text && sys'.pc == At(Replaced, sys.pc.attempt))
  {
    if sys.pc.At? {
      if AfterDrain(sys.pc.phase) {
        DrainedFrame(env, sys, a.ok, a.landed);
      } else if PastCommit(sys.pc.phase) {
        CommitFrame(env, sys, a.ok);
      } else {
        BeforeDrainFrame(env, sys, a.ok, a.cursor, a.landed);
      }
    } else {
      ElsewhereFrame(env, sys, a.ok, a.cursor, a.landed);
    }
  }

  /** The process changes the file in one statement only, and a crash can undo only that statement. */
  lemma FileChangesOnlyAtCommit(env: Env, sys: Sys, a: Step)
    requires Apply(env, sys, a).disk.file != sys.disk.file
    ensures a.Edit? || (a.Crash? && sys.disk.previous == Some(Apply(env, sys, a).disk.file))
         || (a.Next? && a.ok && sys.pc.At? && sys.pc.phase.Retained?
             && Apply(env, sys, a).disk.file == sys.pc.attempt.req.text
             && Apply(env, sys, a).pc == At(Replaced, sys.pc.attempt))
  {
  }

  /** How many statements of its own separate a committing activation from its end. */
  function Left(pc: Pc): nat {
    match pc
    case At(Replaced, _) => 3
    case At(Committed, _) => 2
    case At(Started, _) => 1
    case _ => 0
  }

  function Nexts(steps: seq<Step>): nat {
    if steps == [] then 0 else (if steps[0].Next? then 1 else 0) + Nexts(steps[1..])
  }

  /** On the way from the rename to the end, or there: what is left to do is done or will be. */
  ghost predicate Committing(env: Env, sys: Sys, text: string) {
    && (sys.pc.Idle? || (sys.pc.At? && PastCommit(sys.pc.phase) && sys.pc.attempt.req.text == text))
    && (Left(sys.pc) < 3 ==> sys.mem.current == Some(text))
    && (Left(sys.pc) < 2 ==> sys.mem.running == Jobs(env, sys.mem.current))
  }

  lemma CommitGoesOn(env: Env, sys: Sys, text: string, a: Step)
    requires Committing(env, sys, text) && !a.Crash? && !a.Begin?
    ensures var sys' := Apply(env, sys, a);
      && Committing(env, sys', text)
      && Left(sys'.pc) == (if a.Next? && !sys.pc.Idle? then Left(sys.pc) - 1 else Left(sys.pc))
      && (!a.Edit? ==> sys'.disk.file == sys.disk.file)
      && sys.db.cursors.Keys <= sys'.db.cursors.Keys
  {
    if a.Next? && sys.pc.At? {
      CommitFrame(env, sys, a.ok);
    }
  }

  lemma {:induction false} CommitEnds(env: Env, sys: Sys, text: string, steps: seq<Step>)
    requires Committing(env, sys, text)
    requires forall a | a in steps :: !a.Crash? && !a.Begin?
    ensures var end := Execute(env, sys, steps);
      && Committing(env, end, text)
      && Left(end.pc) == (if Nexts(steps) < Left(sys.pc) then Left(sys.pc) - Nexts(steps) else 0)
      && ((forall a | a in steps :: !a.Edit?) ==> end.disk.file == sys.disk.file)
      && sys.db.cursors.Keys <= end.db.cursors.Keys
    decreases |steps|
  {
    if steps != [] {
      CommitGoesOn(env, sys, text, steps[0]);
      CommitEnds(env, Apply(env, sys, steps[0]), text, steps[1..]);
    }
  }

  /** After it, no failure turns back. Whatever pollers, ingests, evaluations, the stop and outside edits
      do in between, and whichever statements fail, the process's own three further statements end with
      the new snapshot current and polled by exactly its pollers, with no checkpoint lost, and with the
      file as the rename left it unless someone else edited it. Only a death of the process prevents it. */
  lemma CommitIsIrrevocable(env: Env, sys: Sys, steps: seq<Step>)
    requires sys.pc.At? && sys.pc.phase.Replaced?
    requires Nexts(steps) >= 3 && forall a | a in steps :: !a.Crash? && !a.Begin?
    ensures var end := Execute(env, sys, steps);
      && end.pc == Idle && end.mem.current == Some(sys.pc.attempt.req.text) && end.mem.running == Jobs(env, end.mem.current)
      && ((forall a | a in steps :: !a.Edit?) ==> end.disk.file == sys.disk.file)
      && sys.db.cursors.Keys <= end.db.cursors.Keys
  {
    CommitEnds(env, sys, sys.pc.attempt.req.text, steps);
  }

  /** Up to it, an attempt that fails leaves the old snapshot: the file is as it was, the same
      snapshot is current, and it polls again. */
  lemma FailureKeepsTheOld(env: Env, sys: Sys, a: Step)
    requires Polling(env, sys) && sys.pc.At? && a.Next? && Apply(env, sys, a).pc.Cleaning?
    ensures var sys' := Apply(env, sys, a);
      && sys'.disk.file == sys.disk.file && sys'.mem.current == sys.mem.current && sys'.mem.running == Jobs(env, sys.mem.current)
      && sys'.past.events == sys.past.events && sys'.past.held == sys.past.held
  {
    if AfterDrain(sys.pc.phase) {
      DrainedFrame(env, sys, a.ok, a.landed);
    } else if PastCommit(sys.pc.phase) {
      CommitFrame(env, sys, a.ok);
    } else {
      BeforeDrainFrame(env, sys, a.ok, a.cursor, a.landed);
    }
  }

  lemma PreparingKeepsMoved(sys: Sys, s: Source, ok: bool, cursor: string, landed: bool)
    requires MovedKept(sys) && NonEmpty(sys.past.moved)
    ensures MovedKept(SetCursors(sys, Checkpoint(s, sys.db.cursors, ok, cursor, landed)))
  {
  }

  ghost predicate NonEmpty(moved: Rows) { forall n | n in moved :: moved[n] != "" }

  ghost predicate MovedOk(sys: Sys) { MovedKept(sys) && NonEmpty(sys.past.moved) }

  lemma AttemptKeepsMoved(env: Env, sys: Sys, ok: bool, cursor: string, landed: bool)
    requires MovedOk(sys) && sys.pc.At?
    ensures MovedOk(NextInAttempt(env, sys, ok, cursor, landed))
  {
    var sources := SourcesOf(env, sys.pc.attempt.req.text);
    if sys.pc.phase.Preparing? && sys.pc.phase.next < |sources| {
      PreparingKeepsMoved(sys, sources[sys.pc.phase.next], ok, cursor, landed);
    }
  }

  lemma ElsewhereKeepsMoved(env: Env, sys: Sys, ok: bool, cursor: string, landed: bool)
    requires SysOk(env, sys) && MovedOk(sys) && !sys.pc.At?
    ensures MovedOk(NextElsewhere(env, sys, ok, cursor, landed))
  {
    match sys.pc {
      case Booting(text, k) =>
        var sources := SourcesOf(env, text);
        if k < |sources| {
          PreparingKeepsMoved(sys, sources[k], ok, cursor, landed);
        }
      case Cleaning(rest) =>
        if rest != [] {
          assert rest[0] in rest;
        }
      case _ =>
    }
  }

  /** No step, cleanup included, takes back what a running poller wrote. */
  lemma StepKeepsMoved(env: Env, sys: Sys, a: Step)
    requires SysOk(env, sys) && MovedOk(sys)
    ensures MovedOk(Apply(env, sys, a))
  {
    if a.Next? {
      if sys.pc.At? {
        AttemptKeepsMoved(env, sys, a.ok, a.cursor, a.landed);
      } else {
        ElsewhereKeepsMoved(env, sys, a.ok, a.cursor, a.landed);
      }
    }
  }

  lemma {:induction false} EveryRunKeepsMoved(env: Env, sys: Sys, steps: seq<Step>)
    requires SysOk(env, sys) && MovedOk(sys)
    ensures SysOk(env, Execute(env, sys, steps)) && MovedOk(Execute(env, sys, steps))
    decreases |steps|
  {
    if steps != [] {
      StepKeeps(env, sys, steps[0]);
      StepKeepsMoved(env, sys, steps[0]);
      EveryRunKeepsMoved(env, Apply(env, sys, steps[0]), steps[1..]);
    }
  }

  /** When a failed attempt's cleanup ends without a failure of its own, the checkpoint rows are
      exactly the prior ones and any that running pollers wrote since: the latter as they were last
      written, and a prior nonempty one unaltered unless its own poller moved it. */
  lemma FailedAttemptRestoresCheckpoints(env: Env, file: string, steps: seq<Step>)
    ensures var sys := Execute(env, Start(file), steps);
      sys.pc == Cleaning([]) ==>
        && (forall n | n in sys.past.moved :: n in sys.db.cursors && sys.db.cursors[n] == sys.past.moved[n])
        && (forall n | n in sys.past.prior :: n in sys.db.cursors)
        && (forall n | n in sys.past.prior && sys.past.prior[n] != "" && n !in sys.past.moved ::
          sys.db.cursors[n] == sys.past.prior[n])
        && (!sys.past.lapsed ==> sys.db.cursors.Keys == sys.past.prior.Keys + sys.past.moved.Keys)
  {
    StartOk(env, file);
    EveryRunKeepsMoved(env, Start(file), steps);
    var sys := Execute(env, Start(file), steps);
    if sys.pc == Cleaning([]) && !sys.past.lapsed {
      OnlyTheKept(sys.past.prior, sys.db.cursors, sys.past.moved);
    }
  }

  lemma OnlyTheKept(prior: Rows, cursors: Rows, moved: Rows)
    requires PriorKept(prior, cursors, moved) && NoStray(prior, cursors, moved, [])
    requires forall n | n in moved :: n in cursors
    ensures cursors.Keys == prior.Keys + moved.Keys
  {
  }

  /** No statement of an activation, successful or not, deletes or overwrites a row that was there when it
      surveyed them, or one that a running poller wrote since. */
  lemma PriorCheckpointsSurvive(env: Env, file: string, steps: seq<Step>)
    ensures var sys := Execute(env, Start(file), steps);
      sys.pc.At? && !sys.pc.phase.Checked? && !sys.pc.phase.Inspected? ==>
        && (forall n | n in sys.past.moved :: n in sys.db.cursors && sys.db.cursors[n] == sys.past.moved[n])
        && (forall n | n in sys.past.prior :: n in sys.db.cursors)
        && (forall n | n in sys.past.prior && sys.past.prior[n] != "" && n !in sys.past.moved ::
          sys.db.cursors[n] == sys.past.prior[n])
  {
    StartOk(env, file);
    EveryRunKeepsMoved(env, Start(file), steps);
  }

  /** Every event's recorded revision has a retained row whose text it is, for ever. */
  lemma RevisionsStayIntact(env: Env, file: string, steps: seq<Step>, more: seq<Step>)
    ensures var sys := Execute(env, Start(file), steps);
      var later := Execute(env, sys, more);
      forall e | e in sys.past.events ::
        && sys.past.events[e] in sys.db.revisions && sys.db.revisions[sys.past.events[e]].yaml == sys.past.events[e]
        && e in later.past.events && later.past.events[e] == sys.past.events[e]
        && sys.past.events[e] in later.db.revisions && later.db.revisions[sys.past.events[e]].yaml == sys.past.events[e]
  {
    var sys := Execute(env, Start(file), steps);
    StartOk(env, file);
    EveryRunKeeps(env, Start(file), steps);
    EveryRunKeeps(env, sys, more);
    EventsOnlyGrow(env, sys, more);
  }

  lemma {:induction false} EventsOnlyGrow(env: Env, sys: Sys, steps: seq<Step>)
    ensures forall e | e in sys.past.events ::
      e in Execute(env, sys, steps).past.events && Execute(env, sys, steps).past.events[e] == sys.past.events[e]
    decreases |steps|
  {
    if steps != [] {
      EventsStay(env, sys, steps[0]);
      EventsOnlyGrow(env, Apply(env, sys, steps[0]), steps[1..]);
    }
  }

  lemma EventsStay(env: Env, sys: Sys, a: Step)
    ensures var sys' := Apply(env, sys, a);
      forall e | e in sys.past.events :: e in sys'.past.events && sys'.past.events[e] == sys.past.events[e]
  {
    if a.Next? {
      NextIsSteady(env, sys, a);
    }
  }

  /** Every configuration an activation made current, in any run, is confined: no live effect but
      notifications, and those only with consent and the stop open. */
  lemma ActivatedAreConfined(env: Env, file: string, steps: seq<Step>, text: string)
    ensures var sys := Execute(env, Start(file), steps);
      text in sys.past.vetted ==> env.parse(text).Some? && Confined(Snapshot(env.parse(text).value, text), sys.past.vetted[text])
  {
    StartOk(env, file);
    EveryRunKeeps(env, Start(file), steps);
  }

  ghost predicate Stopped(sys: Sys) { sys.db.gate && (sys.pc.Dead? || sys.mem.blocked) }

  lemma StopKept(env: Env, sys: Sys, a: Step)
    requires Stopped(sys)
    ensures Stopped(Apply(env, sys, a))
  {
    if a.Next? {
      NextIsSteady(env, sys, a);
    }
  }

  /** A persisted stop outlives every restart, and no activation after it is admitted with a live
      outcome. */
  lemma {:induction false} StopOutlivesRestarts(env: Env, sys: Sys, steps: seq<Step>)
    requires Stopped(sys)
    ensures Stopped(Execute(env, sys, steps))
    decreases |steps|
  {
    if steps != [] {
      StopKept(env, sys, steps[0]);
      StopOutlivesRestarts(env, Apply(env, sys, steps[0]), steps[1..]);
    }
  }

  lemma NothingLiveAfterStop(env: Env, sys: Sys, a: Step)
    requires Stopped(sys) && a.Begin? && sys.pc.Idle? && Apply(env, sys, a).pc.At?
    ensures env.parse(a.req.text).Some? && Confined(Snapshot(env.parse(a.req.text).value, a.req.text), false)
  {
  }
}
