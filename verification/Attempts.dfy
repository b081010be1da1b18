/** One activation from beginning to end (cmd/mrmr/control_config.go:37-72 and 406-580): which requests begin,
    what an attempt that meets no fault leaves behind, what each failing statement leaves behind, and how a
    process comes up (cmd/mrmr/managed.go:92-156 and 413-440). */
module Attempts {
  import opened Domain
  import opened Configuration
  import opened Checkpoints
  import opened Activation

  /** A request begins exactly when its text decodes, it was based on the text that is active, listener and
      database stay as they are, its effects are allowed, the positions of the active journals can be read and
      are there, and every name it reuses means the same source. */
  lemma BeginsIff(env: Env, sys: Sys, req: Request, webhookReady: string -> bool, readable: bool)
    requires sys.pc == Idle
    ensures var begins :=
      && req.text != "" && env.parse(req.text).Some?
      && req.base == (match sys.mem.current case Some(text) => text case None => "")
      && env.serverOk(env.parse(req.text).value)
      && EffectsAllowed(env.parse(req.text).value, Consent(req.allowLive, sys.mem.blocked, webhookReady))
      && forall b | b in ActiveSources(env, sys.mem.current) ::
        && (b.kind == SystemdJournal && !b.paused ==>
              readable && b.name in sys.db.cursors && sys.db.cursors[b.name] != "")
        && forall a | a in env.parse(req.text).value.sources && a.name == b.name :: Identity(a) == Identity(b);
      Apply(env, sys, Begin(req, webhookReady, readable))
      == if begins then sys.(pc := At(Checked, Attempt(req, req.allowLive && !sys.mem.blocked, []))) else sys
  {
  }

  // ---- An attempt that nothing disturbs ----

  /** The journals that a list of sources reads. */
  function Journals(sources: seq<Source>): set<string> {
    set s | s in sources && s.kind == SystemdJournal && !s.paused :: s.name
  }

  /** The checkpoints with every journal among names that had no position at its tail. */
  function AtTails(names: set<string>, cursors: Rows, tail: string -> string): Rows {
    map n | n in cursors.Keys + names :: if n in names && Position(cursors, n) == "" then tail(n) else cursors[n]
  }

  const FINE := (cursor: string) => Next(true, cursor, true)

  /** Preparing sources one after the other. */
  function Preparations(sources: seq<Source>, tail: string -> string): seq<Step> {
    seq(|sources|, k requires 0 <= k < |sources| => FINE(tail(sources[k].name)))
  }

  lemma JournalsSnoc(sources: seq<Source>, k: nat)
    requires k < |sources|
    ensures Journals(sources[..k + 1])
         == Journals(sources[..k])
            + if sources[k].kind == SystemdJournal && !sources[k].paused then {sources[k].name} else {}
  {
    assert sources[..k + 1] == sources[..k] + [sources[k]];
  }

  lemma OneMoreTail(names: set<string>, cursors: Rows, tail: string -> string, name: string)
    requires tail(name) != ""
    ensures AtTails(names + {name}, cursors, tail)
         == var rows := AtTails(names, cursors, tail);
            if Position(rows, name) == "" then rows[name := tail(name)] else rows
  {
  }

  lemma CheckpointTakesTail(sources: seq<Source>, k: nat, cursors: Rows, tail: string -> string)
    requires k < |sources| && tail(sources[k].name) != ""
    ensures Checkpoint(sources[k], AtTails(Journals(sources[..k]), cursors, tail), true, tail(sources[k].name), true)
         == AtTails(Journals(sources[..k + 1]), cursors, tail)
  {
    JournalsSnoc(sources, k);
    OneMoreTail(Journals(sources[..k]), cursors, tail, sources[k].name);
    assert Journals(sources[..k]) + {} == Journals(sources[..k]);
  }

  lemma {:induction false} ExecuteJoins(env: Env, sys: Sys, first: seq<Step>, rest: seq<Step>)
    ensures Execute(env, sys, first + rest) == Execute(env, Execute(env, sys, first), rest)
    decreases |first|
  {
    if first == [] {
      assert first + rest == rest;
    } else {
      assert (first + rest)[1..] == first[1..] + rest;
      ExecuteJoins(env, Apply(env, sys, first[0]), first[1..], rest);
    }
  }

  lemma ExecuteOne(env: Env, sys: Sys, a: Step)
    ensures Execute(env, sys, [a]) == Apply(env, sys, a)
  {
    assert Execute(env, Apply(env, sys, a), [a][1..]) == Apply(env, sys, a);
  }

  lemma ExecuteSnoc(env: Env, sys: Sys, steps: seq<Step>, a: Step)
    ensures Execute(env, sys, steps + [a]) == Apply(env, Execute(env, sys, steps), a)
  {
    ExecuteJoins(env, sys, steps, [a]);
    ExecuteOne(env, Execute(env, sys, steps), a);
  }

  lemma PreparationsSnoc(sources: seq<Source>, tail: string -> string, k: nat)
    requires 0 < k <= |sources|
    ensures Preparations(sources, tail)[..k] == Preparations(sources, tail)[..k - 1] + [FINE(tail(sources[k - 1].name))]
  {
    assert Preparations(sources, tail)[k - 1] == FINE(tail(sources[k - 1].name));
  }

  /** Every source can be read, and every position asked for is found. */
  ghost predicate Preparable(sources: seq<Source>, tail: string -> string) {
    forall s | s in sources :: !s.kind.OtherSource? && tail(s.name) != ""
  }

  lemma PreparedOne(env: Env, sys: Sys, a: Attempt, sources: seq<Source>, k: nat, cursors: Rows, tail: string -> string)
    requires sources == SourcesOf(env, a.req.text) && Preparable(sources, tail) && k < |sources|
    requires sys.pc == At(Preparing(k), a) && sys.db.cursors == AtTails(Journals(sources[..k]), cursors, tail)
    ensures Apply(env, sys, FINE(tail(sources[k].name)))
         == sys.(pc := At(Preparing(k + 1), a),
                 db := sys.db.(cursors := AtTails(Journals(sources[..k + 1]), cursors, tail)))
  {
    assert sources[k] in sources;
    CheckpointTakesTail(sources, k, cursors, tail);
  }

  lemma {:induction false} PreparationsRun(env: Env, sys: Sys, a: Attempt, sources: seq<Source>, k: nat,
                                           tail: string -> string)
    requires sources == SourcesOf(env, a.req.text) && Preparable(sources, tail) && k <= |sources|
    requires sys.pc == At(Preparing(0), a)
    ensures Execute(env, sys, Preparations(sources, tail)[..k])
         == sys.(pc := At(Preparing(k), a),
                 db := sys.db.(cursors := AtTails(Journals(sources[..k]), sys.db.cursors, tail)))
  {
    if k == 0 {
      assert AtTails(Journals(sources[..0]), sys.db.cursors, tail) == sys.db.cursors;
    } else {
      var before := Preparations(sources, tail)[..k - 1];
      PreparationsSnoc(sources, tail, k);
      ExecuteSnoc(env, sys, before, FINE(tail(sources[k - 1].name)));
      PreparationsRun(env, sys, a, sources, k - 1, tail);
      PreparedOne(env, Execute(env, sys, before), a, sources, k - 1, sys.db.cursors, tail);
    }
  }

  /** The old pollers leave one by one. */
  function Exits(n: nat): seq<Step> { seq(n, i => Exit(0)) }

  lemma {:induction false} ExitsRun(env: Env, sys: Sys, a: Attempt)
    requires sys.pc == At(Draining, a)
    ensures Execute(env, sys, Exits(|sys.mem.running|)) == sys.(mem := sys.mem.(running := []))
    decreases |sys.mem.running|
  {
    if sys.mem.running != [] {
      var n := |sys.mem.running|;
      assert Exits(n)[1..] == Exits(n - 1);
      assert sys.mem.running[..0] + sys.mem.running[1..] == sys.mem.running[1..];
      ExitsRun(env, Apply(env, sys, Exit(0)), a);
    }
  }

  /** The revisions with text among them under this status; a text that was retained before stays as it was. */
  function WithRevision(revisions: map<string, Row>, text: string, status: RevisionStatus): map<string, Row> {
    revisions[text := Row(if text in revisions then revisions[text].yaml else text, status)]
  }

  lemma CheckedAndSurveyed(env: Env, sys: Sys, req: Request, live: bool)
    requires sys.pc == At(Checked, Attempt(req, live, [])) && sys.disk.file == req.base
    ensures var created := FreshNames(SourcesOf(env, req.text), sys.db.cursors, ActiveSources(env, sys.mem.current));
      Execute(env, sys, [FINE(""), FINE(""), FINE("")])
      == sys.(pc := At(Preparing(0), Attempt(req, live, created)),
              past := sys.past.(prior := sys.db.cursors, moved := map[], lapsed := false))
  {
    var s1 := Apply(env, sys, FINE(""));
    var s2 := Apply(env, s1, FINE(""));
    var s3 := Apply(env, s2, FINE(""));
    assert Execute(env, sys, [FINE(""), FINE(""), FINE("")]) == Execute(env, s1, [FINE(""), FINE("")]);
    assert Execute(env, s1, [FINE(""), FINE("")]) == Execute(env, s2, [FINE("")]);
    ExecuteOne(env, s2, FINE(""));
  }

  /** From the drained pollers to the end. */
  lemma DrainedAndCommitted(env: Env, sys: Sys, a: Attempt)
    requires sys.pc == At(Draining, a) && sys.mem.running == [] && sys.disk.file == a.req.base
    ensures var text := a.req.text;
      Execute(env, sys, seq(8, i => FINE("")))
      == Sys(Disk(text, None), sys.db.(revisions := WithRevision(sys.db.revisions, text, Active)),
             Memory(Some(text), Jobs(env, Some(text)), sys.mem.blocked), Idle,
             sys.past.(held := sys.past.held + {text}, vetted := sys.past.vetted[text := a.live], edited := false))
  {
    var text := a.req.text;
    var f := FINE("");
    var s1 := sys.(pc := At(Drained, a));
    var s2 := sys.(pc := At(Rechecked, a));
    var s3 := sys.(pc := At(Audited, a));
    var s4 := sys.(pc := At(Retained, a), db := sys.db.(revisions := WithRevision(sys.db.revisions, text, Prepared)));
    assert Apply(env, sys, f) == s1 && Apply(env, s1, f) == s2 && Apply(env, s2, f) == s3 && Apply(env, s3, f) == s4;
    ExecuteFour(env, sys, f, s1, s2, s3, s4);
    CommitRuns(env, s4, a, sys.db.revisions);
    assert seq(8, i => f) == seq(4, i => f) + seq(4, i => f);
    ExecuteJoins(env, sys, seq(4, i => f), seq(4, i => f));
  }

  lemma ExecuteFour(env: Env, s: Sys, f: Step, s1: Sys, s2: Sys, s3: Sys, s4: Sys)
    requires Apply(env, s, f) == s1 && Apply(env, s1, f) == s2 && Apply(env, s2, f) == s3 && Apply(env, s3, f) == s4
    ensures Execute(env, s, seq(4, i => f)) == s4
  {
    assert seq(4, i => f) == [f] + ([f] + ([f] + [f]));
    ExecuteJoins(env, s, [f], [f] + ([f] + [f]));
    ExecuteJoins(env, s1, [f], [f] + [f]);
    ExecuteJoins(env, s2, [f], [f]);
    ExecuteOne(env, s, f);
    ExecuteOne(env, s1, f);
    ExecuteOne(env, s2, f);
    ExecuteOne(env, s3, f);
  }

  lemma RenamedAndStored(env: Env, sys: Sys, a: Attempt)
    requires sys.pc == At(Retained, a)
    ensures var text := a.req.text;
      Apply(env, Apply(env, sys, FINE("")), FINE(""))
      == Sys(Disk(text, None), sys.db, Memory(Some(text), sys.mem.running, sys.mem.blocked), At(Committed, a),
             sys.past.(held := sys.past.held + {text}, vetted := sys.past.vetted[text := a.live], edited := false))
  {
    assert Apply(env, sys, FINE("")).pc == At(Replaced, a);
  }

  lemma StartedAndRecorded(env: Env, sys: Sys, a: Attempt, before: map<string, Row>)
    requires sys.pc == At(Committed, a) && sys.db.revisions == WithRevision(before, a.req.text, Prepared)
    ensures Apply(env, Apply(env, sys, FINE("")), FINE(""))
         == Sys(sys.disk, sys.db.(revisions := WithRevision(before, a.req.text, Active)),
                sys.mem.(running := Jobs(env, sys.mem.current)), Idle, sys.past)
  {
    assert Apply(env, sys, FINE("")).pc == At(Started, a);
    assert Retain(sys.db.revisions, a.req.text, Active) == WithRevision(before, a.req.text, Active);
  }

  lemma CommitRuns(env: Env, sys: Sys, a: Attempt, before: map<string, Row>)
    requires sys.pc == At(Retained, a) && sys.db.revisions == WithRevision(before, a.req.text, Prepared)
    ensures var text := a.req.text;
      Execute(env, sys, seq(4, i => FINE("")))
      == Sys(Disk(text, None), sys.db.(revisions := WithRevision(before, text, Active)),
             Memory(Some(text), Jobs(env, Some(text)), sys.mem.blocked), Idle,
             sys.past.(held := sys.past.held + {text}, vetted := sys.past.vetted[text := a.live], edited := false))
  {
    var f := FINE("");
    var s1 := Apply(env, sys, f);
    var s2 := Apply(env, s1, f);
    var s3 := Apply(env, s2, f);
    RenamedAndStored(env, sys, a);
    StartedAndRecorded(env, s2, a, before);
    ExecuteFour(env, sys, f, s1, s2, s3, Apply(env, s3, f));
  }

  /** The statements of one attempt. */
  function Statements(sources: seq<Source>, pollers: nat, tail: string -> string): seq<Step> {
    [FINE(""), FINE(""), FINE("")] + Preparations(sources, tail) + [FINE(""), FINE("")] + Exits(pollers)
    + seq(8, i => FINE(""))
  }

  /** An attempt that meets no fault and no interference ends with the requested text in the file, past undoing,
      current, retained as active and polled by exactly its pollers; with every journal it reads at the tail
      unless it had a position, and every other checkpoint, and whatever else is durable, as it was. */
  lemma UndisturbedAttemptActivates(env: Env, sys: Sys, req: Request, live: bool, tail: string -> string)
    requires sys.pc == At(Checked, Attempt(req, live, [])) && sys.disk.file == req.base
    requires Preparable(SourcesOf(env, req.text), tail)
    ensures var (text, sources) := (req.text, SourcesOf(env, req.text));
      var end := Execute(env, sys, Statements(sources, |sys.mem.running|, tail));
      && end.disk == Disk(text, None)
      && end.db == Durable(AtTails(Journals(sources), sys.db.cursors, tail),
                           WithRevision(sys.db.revisions, text, Active), sys.db.gate)
      && end.mem == Memory(Some(text), Jobs(env, Some(text)), sys.mem.blocked)
      && end.pc == Idle && !end.past.edited && end.past.events == sys.past.events
      && end.past.held == sys.past.held + {text} && end.past.vetted == sys.past.vetted[text := live]
  {
    var (sources, n) := (SourcesOf(env, req.text), |sys.mem.running|);
    var created := FreshNames(sources, sys.db.cursors, ActiveSources(env, sys.mem.current));
    var a := Attempt(req, live, created);
    var s1 := Execute(env, sys, [FINE(""), FINE(""), FINE("")]);
    var s2 := Execute(env, s1, Preparations(sources, tail));
    var s3 := Execute(env, s2, [FINE(""), FINE("")]);
    CheckedAndSurveyed(env, sys, req, live);
    PreparedAll(env, s1, a, sources, tail);
    PreparedDrains(env, s2, a, sources);
    ExitsRun(env, s3, a);
    DrainedAndCommitted(env, Execute(env, s3, Exits(n)), a);
    StatementsJoin(env, sys, sources, n, tail);
  }

  lemma PreparedAll(env: Env, sys: Sys, a: Attempt, sources: seq<Source>, tail: string -> string)
    requires sources == SourcesOf(env, a.req.text) && Preparable(sources, tail) && sys.pc == At(Preparing(0), a)
    ensures Execute(env, sys, Preparations(sources, tail))
         == sys.(pc := At(Preparing(|sources|), a),
                 db := sys.db.(cursors := AtTails(Journals(sources), sys.db.cursors, tail)))
  {
    PreparationsRun(env, sys, a, sources, |sources|, tail);
    assert Preparations(sources, tail)[..|sources|] == Preparations(sources, tail) && sources[..|sources|] == sources;
  }

  lemma PreparedDrains(env: Env, sys: Sys, a: Attempt, sources: seq<Source>)
    requires sources == SourcesOf(env, a.req.text) && sys.pc == At(Preparing(|sources|), a)
    ensures Execute(env, sys, [FINE(""), FINE("")]) == sys.(pc := At(Draining, a))
  {
    var s1 := Apply(env, sys, FINE(""));
    assert Execute(env, sys, [FINE(""), FINE("")]) == Execute(env, s1, [FINE("")]);
    ExecuteOne(env, s1, FINE(""));
  }

  lemma StatementsJoin(env: Env, sys: Sys, sources: seq<Source>, n: nat, tail: string -> string)
    ensures var s1 := Execute(env, sys, [FINE(""), FINE(""), FINE("")]);
      var s2 := Execute(env, s1, Preparations(sources, tail));
      var s3 := Execute(env, s2, [FINE(""), FINE("")]);
      Execute(env, sys, Statements(sources, n, tail)) == Execute(env, Execute(env, s3, Exits(n)), seq(8, i => FINE("")))
  {
    var (first, then_, drain, exits) :=
      ([FINE(""), FINE(""), FINE("")], Preparations(sources, tail), [FINE(""), FINE("")], Exits(n));
    ExecuteJoins(env, sys, first + then_ + drain + exits, seq(8, i => FINE("")));
    ExecuteJoins(env, sys, first + then_ + drain, exits);
    ExecuteJoins(env, sys, first + then_, drain);
    ExecuteJoins(env, sys, first, then_);
  }

  // ---- A statement that fails ----

  /** A source of no known kind, or a journal without a position when none was found, unless it is paused. */
  predicate Unprepared(s: Source, cursors: Rows, cursor: string) {
    && !s.paused
    && (s.kind.OtherSource?
        || (s.kind.SystemdJournal? && cursor == "" && (s.name !in cursors || cursors[s.name] == "")))
  }

  /** Before the survey a failure, or a file that someone else changed, just ends the attempt. From the survey to
      the drain it leads to the cleanup of what the survey found missing, after the drain the old pollers are
      back as well, and a write that failed may have landed. Past the rename nothing turns back: only the mark
      that the revision is active can be missing. */
  lemma FailingStatement(env: Env, sys: Sys, a: Attempt, cursor: string, landed: bool, ok: bool)
    requires sys.pc.At? && sys.pc.attempt == a && sys.pc.phase != Draining
    requires sys.pc.phase.Preparing? ==> sys.pc.phase.next < |SourcesOf(env, a.req.text)|
    requires ok ==>
      || ((sys.pc.phase.Checked? || sys.pc.phase.Drained?) && sys.disk.file != a.req.base)
      || (sys.pc.phase.Preparing? && Unprepared(SourcesOf(env, a.req.text)[sys.pc.phase.next], sys.db.cursors, cursor))
    ensures var sys' := Apply(env, sys, Next(ok, cursor, landed));
      var undone := sys.(pc := Cleaning(a.created));
      var resumed := undone.(mem := sys.mem.(running := Jobs(env, sys.mem.current)));
      match sys.pc.phase
      case Checked => sys' == sys.(pc := Idle)
      case Inspected => sys' == sys.(pc := Idle)
      case Surveyed => sys' == undone
      case Preparing(k) =>
        var s := SourcesOf(env, a.req.text)[k];
        sys' == if landed && cursor != "" && s.kind == SystemdJournal && !s.paused && Position(sys.db.cursors, s.name) == ""
                then undone.(db := sys.db.(cursors := sys.db.cursors[s.name := cursor])) else undone
      case Ready => sys' == undone
      case Drained => sys' == resumed
      case Rechecked => sys' == resumed
      case Audited =>
        sys' == if landed
                then resumed.(db := sys.db.(revisions := WithRevision(sys.db.revisions, a.req.text, Prepared)))
                else resumed
      case Retained => sys' == resumed
      case Started => sys' == sys.(pc := Idle)
      case _ => sys' == Apply(env, sys, Next(true, cursor, landed))
  {
  }

  /** A drain ends only when no poller is left, and a rename whose directory was not synced can be undone. */
  lemma SlowStatements(env: Env, sys: Sys, a: Attempt, ok: bool, cursor: string)
    requires sys.pc.At? && sys.pc.attempt == a
    ensures sys.pc.phase == Draining ==>
      Apply(env, sys, Next(ok, cursor, false)) == if sys.mem.running == [] then sys.(pc := At(Drained, a)) else sys
    ensures sys.pc.phase == Retained ==>
      Apply(env, sys, Next(true, cursor, false))
      == sys.(pc := At(Replaced, a), disk := Disk(a.req.text, Some(sys.disk.file)), past := sys.past.(edited := false))
  {
  }

  /** The cleanup deletes each row it can, and then the process is idle again. */
  lemma {:induction false} CleanupDeletes(env: Env, sys: Sys, rest: seq<string>)
    requires sys.pc == Cleaning(rest)
    ensures Execute(env, sys, seq(|rest| + 1, i => FINE("")))
         == sys.(pc := Idle, db := sys.db.(cursors := sys.db.cursors - set n | n in rest))
    ensures rest != [] ==>
      Apply(env, sys, Next(false, "", false)) == sys.(pc := Cleaning(rest[1..]), past := sys.past.(lapsed := true))
    decreases |rest|
  {
    var steps := seq(|rest| + 1, i => FINE(""));
    if rest == [] {
      assert steps == [FINE("")];
      ExecuteOne(env, sys, FINE(""));
      assert sys.db.cursors - {} == sys.db.cursors;
    } else {
      var sys' := Apply(env, sys, FINE(""));
      assert steps[1..] == seq(|rest|, i => FINE(""));
      CleanupDeletes(env, sys', rest[1..]);
      assert sys.db.cursors - {rest[0]} - (set n | n in rest[1..]) == sys.db.cursors - set n | n in rest;
    }
  }

  // ---- Coming up ----

  lemma BootedOne(env: Env, sys: Sys, text: string, sources: seq<Source>, k: nat, cursors: Rows, tail: string -> string)
    requires sources == SourcesOf(env, text) && Preparable(sources, tail) && k < |sources|
    requires sys.pc == Booting(text, k) && sys.db.cursors == AtTails(Journals(sources[..k]), cursors, tail)
    ensures Apply(env, sys, FINE(tail(sources[k].name)))
         == sys.(pc := Booting(text, k + 1),
                 db := sys.db.(cursors := AtTails(Journals(sources[..k + 1]), cursors, tail)))
  {
    assert sources[k] in sources;
    CheckpointTakesTail(sources, k, cursors, tail);
  }

  lemma {:induction false} BootPrepares(env: Env, sys: Sys, text: string, sources: seq<Source>, k: nat,
                                        tail: string -> string)
    requires sources == SourcesOf(env, text) && Preparable(sources, tail) && k <= |sources|
    requires sys.pc == Booting(text, 0)
    ensures Execute(env, sys, Preparations(sources, tail)[..k])
         == sys.(pc := Booting(text, k),
                 db := sys.db.(cursors := AtTails(Journals(sources[..k]), sys.db.cursors, tail)))
  {
    if k == 0 {
      assert AtTails(Journals(sources[..0]), sys.db.cursors, tail) == sys.db.cursors;
    } else {
      var before := Preparations(sources, tail)[..k - 1];
      PreparationsSnoc(sources, tail, k);
      ExecuteSnoc(env, sys, before, FINE(tail(sources[k - 1].name)));
      BootPrepares(env, sys, text, sources, k - 1, tail);
      BootedOne(env, Execute(env, sys, before), text, sources, k - 1, sys.db.cursors, tail);
    }
  }

  lemma BootEnds(env: Env, sys: Sys, text: string)
    requires sys.pc == Booting(text, |SourcesOf(env, text)|)
    ensures Execute(env, sys, [FINE(""), FINE("")])
         == Sys(sys.disk, sys.db.(revisions := WithRevision(sys.db.revisions, text, Active)),
                Memory(Some(text), Jobs(env, Some(text)), sys.mem.blocked), Idle, sys.past.(held := {text}))
  {
    var s1 := Apply(env, sys, FINE(""));
    assert s1.pc == Booted(text);
    assert Execute(env, sys, [FINE(""), FINE("")]) == Execute(env, s1, [FINE("")]);
    ExecuteOne(env, s1, FINE(""));
  }

  /** A process that comes up without a fault takes the file as it is: current, retained as active, polled by
      exactly its pollers, its journals at the tail unless they had a position; and it is stopped exactly if
      the stop was durable. */
  lemma UndisturbedBoot(env: Env, sys: Sys, tail: string -> string)
    requires sys.pc == Dead && sys.disk.file != "" && env.parse(sys.disk.file).Some?
    requires Preparable(SourcesOf(env, sys.disk.file), tail)
    ensures var (text, sources) := (sys.disk.file, SourcesOf(env, sys.disk.file));
      Execute(env, sys, [FINE("")] + Preparations(sources, tail) + [FINE(""), FINE("")])
      == Sys(sys.disk,
             Durable(AtTails(Journals(sources), sys.db.cursors, tail),
                     WithRevision(sys.db.revisions, text, Active), sys.db.gate),
             Memory(Some(text), Jobs(env, Some(text)), sys.db.gate), Idle, sys.past.(held := {text}, edited := false))
  {
    var (text, sources) := (sys.disk.file, SourcesOf(env, sys.disk.file));
    var prepare := Preparations(sources, tail);
    var s1 := Apply(env, sys, FINE(""));
    ExecuteJoins(env, sys, [FINE("")] + prepare, [FINE(""), FINE("")]);
    ExecuteJoins(env, sys, [FINE("")], prepare);
    ExecuteOne(env, sys, FINE(""));
    BootPrepares(env, s1, text, sources, |sources|, tail);
    assert prepare[..|sources|] == prepare && sources[..|sources|] == sources;
    BootEnds(env, Execute(env, s1, prepare), text);
  }

  /** Without a file it comes up idle, with nothing to poll. A file that does not decode, or a statement that
      fails, leaves no process, and of what it wrote only what had landed. */
  lemma FailingBoot(env: Env, sys: Sys, ok: bool, cursor: string, landed: bool)
    ensures var sys' := Apply(env, sys, Next(ok, cursor, landed));
      var down := sys.(pc := Dead, mem := Memory(None, [], sys.mem.blocked), past := sys.past.(held := {}));
      match sys.pc
      case Dead =>
        && (!ok || (sys.disk.file != "" && env.parse(sys.disk.file).None?) ==> sys' == sys)
        && (ok && sys.disk.file == "" ==>
              sys' == sys.(pc := Idle, mem := sys.mem.(blocked := sys.db.gate), past := sys.past.(edited := false)))
      case Booting(text, k) =>
        if k < |SourcesOf(env, text)| then
          var s := SourcesOf(env, text)[k];
          (!ok || Unprepared(s, sys.db.cursors, cursor) ==>
             sys' == if landed && cursor != "" && s.kind == SystemdJournal && !s.paused && Position(sys.db.cursors, s.name) == ""
                     then down.(db := sys.db.(cursors := sys.db.cursors[s.name := cursor])) else down)
        else
          (!ok ==>
             sys' == if landed then down.(db := sys.db.(revisions := WithRevision(sys.db.revisions, text, Active))) else down)
      case Booted(_) => !ok ==> sys' == down
      case _ => true
  {
  }

  /** So the first startup on a machine ends with nothing but the file's own revision on record, its journals at
      their tails, and the stop open. */
  lemma FirstBootIsOpen(env: Env, file: string, tail: string -> string)
    requires file != "" && env.parse(file).Some? && Preparable(SourcesOf(env, file), tail)
    ensures var sources := SourcesOf(env, file);
      Execute(env, Start(file), [FINE("")] + Preparations(sources, tail) + [FINE(""), FINE("")])
      == Sys(Disk(file, None),
             Durable(map n | n in Journals(sources) :: tail(n), map[file := Row(file, Active)], false),
             Memory(Some(file), Jobs(env, Some(file)), false), Idle,
             History({file}, map[], map[], false, map[], map[], false))
  {
    UndisturbedBoot(env, Start(file), tail);
    var names := Journals(SourcesOf(env, file));
    assert AtTails(names, map[], tail) == map n | n in names :: tail(n);
  }

  /** The stop becomes durable only once it is closed, and an evaluation records a text that is not on record
      and leaves one that is alone. */
  lemma StopAndEvaluation(env: Env, sys: Sys, text: string)
    ensures Apply(env, sys, CloseGate) == sys.(mem := sys.mem.(blocked := true))
    ensures Apply(env, sys, PersistGate) == if sys.mem.blocked then sys.(db := sys.db.(gate := true)) else sys
    ensures var revisions := Apply(env, sys, Evaluate(text)).db.revisions;
      && text in revisions
      && (text in sys.db.revisions ==> revisions == sys.db.revisions)
      && (text !in sys.db.revisions ==> revisions == sys.db.revisions[text := Row(text, Evaluated)])
  {
  }
}
