/** Activating a configuration (cmd/mrmr/control_config.go:37-72 and 406-580) and reconciling it after a
    restart (cmd/mrmr/managed.go:92-156 and 413-440), one statement at a time. The environment may
    interleave poller progress, ingests, evaluations, the safety stop, outside edits of the file and
    crashes with every statement, and any statement may fail.

    A revision, the SHA-256 of a configuration's text, is modelled by the text itself; "" stands for an
    absent file. */
module Activation {
  import opened Domain
  import opened Configuration
  import opened Checkpoints

  /** live: the request consented to live notifications and the safety stop was open. created: the
      sources whose checkpoint row did not exist when the attempt surveyed them. */
  datatype Attempt = Attempt(req: Request, live: bool, created: seq<string>)

  /** What a request proposes, against which text, and whether it consents to live notifications. */
  datatype Request = Request(text: string, base: string, allowLive: bool)

  datatype RevisionStatus = Prepared | Active | Evaluated
  datatype Row = Row(yaml: string, status: RevisionStatus)

  /** One polling goroutine: a source, and the snapshot it feeds. */
  datatype Runner = Runner(name: string, text: string)

  /** What has been done so far; the next statement is the one that follows it in activate. */
  datatype Phase =
    | Checked | Inspected | Surveyed | Preparing(next: nat) | Ready
    | Draining | Drained | Rechecked | Audited | Retained | Replaced | Committed | Started

  /** At: activate is running. Cleaning: a failed activate is running its deferred cleanup. The last
      three are the process starting up, or not running at all. */
  datatype Pc =
    | Idle
    | At(phase: Phase, attempt: Attempt)
    | Cleaning(rest: seq<string>)
    | Booting(text: string, next: nat)
    | Booted(text: string)
    | Dead

  /** previous is what a crash may bring back when the directory was never synced after a rename. */
  datatype Disk = Disk(file: string, previous: Option<string>)

  datatype Durable = Durable(cursors: Rows, revisions: map<string, Row>, gate: bool)

  datatype Memory = Memory(current: Option<string>, running: seq<Runner>, blocked: bool)

  /** held: the snapshots this process has made current, which requests and pollers may still hold.
      events: the revision recorded with each event. vetted: activated texts, and whether each was
      checked with consent to live notifications and the stop open. edited: the file was changed by
      someone else since this process read or wrote it. prior, moved, lapsed: the checkpoints when the
      attempt surveyed them, what its running pollers last wrote since, and whether a cleanup statement
      failed. */
  datatype History = History(held: set<string>, events: map<Id, string>, vetted: map<string, bool>,
                             edited: bool, prior: Rows, moved: Rows, lapsed: bool)

  datatype Sys = Sys(disk: Disk, db: Durable, mem: Memory, pc: Pc, past: History)

  /** parse decodes and validates; an empty text never does. serverOk: the listener and database
      settings equal the ones the process started with. */
  datatype Env = Env(parse: string -> Option<Config>, serverOk: Config -> bool)

  datatype Step =
    | Begin(req: Request, webhookReady: string -> bool, readable: bool)
    | Next(ok: bool, cursor: string, landed: bool)
    | Exit(k: nat)
    | PollerWrites(name: string, cursor: string)
    | Record(event: Id, text: string)
    | Evaluate(text: string)
    | CloseGate
    | PersistGate
    | Edit(text: string)
    | Crash(restore: bool)

  // ---- Reading configurations ----

  function SourcesOf(env: Env, text: string): seq<Source> {
    match env.parse(text)
    case Some(c) => c.sources
    case None => []
  }

  function JobsFrom(sources: seq<Source>, text: string): seq<Runner> {
    if sources == [] then []
    else (if sources[0].paused then [] else [Runner(sources[0].name, text)]) + JobsFrom(sources[1..], text)
  }

  /** The pollers a snapshot runs: one for each source that is not paused. */
  function Jobs(env: Env, current: Option<string>): seq<Runner> {
    match current
    case None => []
    case Some(text) => JobsFrom(SourcesOf(env, text), text)
  }

  function ActiveSources(env: Env, current: Option<string>): seq<Source> {
    match current
    case Some(text) => SourcesOf(env, text)
    case None => []
  }

  function TextOf(current: Option<string>): string {
    if current.Some? then current.value else ""
  }

  predicate RunsIn(sources: seq<Source>, name: string) {
    exists s | s in sources :: s.name == name && !s.paused
  }

  /** Fields that may change under an existing name without a new cursor are erased; an omitted journal
      scope is the system scope. */
  function Identity(s: Source): Source {
    s.(every := 0, paused := false, priority := "", units := [],
       scope := if s.kind == SystemdJournal && s.scope == "" then "system" else s.scope)
  }

  predicate SameIdentities(before: seq<Source>, after: seq<Source>) {
    forall b, a | b in before && a in after && a.name == b.name :: Identity(a) == Identity(b)
  }

  predicate CheckpointsPresent(before: seq<Source>, cursors: Rows) {
    forall s | s in before && s.kind == SystemdJournal && !s.paused :: Position(cursors, s.name) != ""
  }

  predicate HasLiveJournal(before: seq<Source>) {
    exists s | s in before :: s.kind == SystemdJournal && !s.paused
  }

  predicate Admissible(env: Env, sys: Sys, req: Request, consent: Consent, readable: bool) {
    && env.parse(req.text).Some? && req.text != ""
    && req.base == TextOf(sys.mem.current)
    && var c := env.parse(req.text).value;
       && env.serverOk(c)
       && EffectsAllowed(c, consent)
       && (sys.mem.current.Some? ==>
             var before := SourcesOf(env, sys.mem.current.value);
             (readable || !HasLiveJournal(before)) && CheckpointsPresent(before, sys.db.cursors)
             && SameIdentities(before, c.sources))
  }

  /** Names whose checkpoint row preparation would create: no row yet, and no poller of the current
      snapshot that may create it meanwhile. */
  function FreshNames(sources: seq<Source>, cursors: Rows, running: seq<Source>): seq<string> {
    if sources == [] then []
    else (if sources[0].name in cursors || RunsIn(running, sources[0].name) then [] else [sources[0].name])
         + FreshNames(sources[1..], cursors, running)
  }

  // ---- One statement ----

  function After(sys: Sys, phase: Phase): Sys
    requires sys.pc.At?
  {
    sys.(pc := At(phase, sys.pc.attempt))
  }

  /** Every failure once the deferred cleanup is armed. */
  function Abandon(sys: Sys): Sys
    requires sys.pc.At?
  {
    sys.(pc := Cleaning(sys.pc.attempt.created))
  }

  /** A failure after draining also restarts the old pollers. */
  function Resume(env: Env, sys: Sys): Sys
    requires sys.pc.At?
  {
    Abandon(sys).(mem := sys.mem.(running := Jobs(env, sys.mem.current)))
  }

  /** Preparing one source. Only a journal without a checkpoint writes: it takes its starting position,
      unless that fails; landed means the row was written although the write reported failure. */
  function Checkpoint(s: Source, cursors: Rows, ok: bool, cursor: string, landed: bool): Rows {
    if !s.paused && s.kind == SystemdJournal && Position(cursors, s.name) == "" && cursor != "" && (ok || landed)
    then cursors[s.name := cursor] else cursors
  }

  predicate PreparedOk(s: Source, cursors: Rows, ok: bool, cursor: string) {
    ok && (s.paused || s.kind == HttpPoller
           || (s.kind == SystemdJournal && (Position(cursors, s.name) != "" || cursor != "")))
  }

  /** Keeps the text of an existing row. */
  function Retain(revisions: map<string, Row>, text: string, status: RevisionStatus): map<string, Row> {
    revisions[text := if text in revisions then revisions[text].(status := status) else Row(text, status)]
  }

  function SetCursors(sys: Sys, cursors: Rows): Sys {
    sys.(db := sys.db.(cursors := cursors))
  }

  function SetRevisions(sys: Sys, revisions: map<string, Row>): Sys {
    sys.(db := sys.db.(revisions := revisions))
  }

  function RetainIf(sys: Sys, written: bool, text: string, status: RevisionStatus): Sys {
    if written then SetRevisions(sys, Retain(sys.db.revisions, text, status)) else sys
  }

  /** The survey arms the deferred cleanup of created. */
  function Survey(sys: Sys, created: seq<string>): Sys
    requires sys.pc.At?
  {
    sys.(pc := At(Surveyed, sys.pc.attempt.(created := created)),
         past := sys.past.(prior := sys.db.cursors, moved := map[], lapsed := false))
  }

  /** The rename. Unless the directory is then synced, a crash may still undo it. */
  function ReplaceFile(sys: Sys, synced: bool): Sys
    requires sys.pc.At?
  {
    After(sys, Replaced).(disk := Disk(sys.pc.attempt.req.text, if synced then None else Some(sys.disk.file)),
                          past := sys.past.(edited := false))
  }

  function StoreSnapshot(sys: Sys): Sys
    requires sys.pc.At?
  {
    var a := sys.pc.attempt;
    After(sys, Committed).(mem := sys.mem.(current := Some(a.req.text)),
                           past := sys.past.(held := sys.past.held + {a.req.text},
                                             vetted := sys.past.vetted[a.req.text := a.live]))
  }

  function ReadAtBoot(sys: Sys, pc: Pc): Sys {
    sys.(pc := pc, mem := sys.mem.(blocked := sys.db.gate), past := sys.past.(edited := false))
  }

  function BootSnapshot(sys: Sys, text: string): Sys {
    RetainIf(sys, true, text, Active).(mem := sys.mem.(current := Some(text)), past := sys.past.(held := {text}),
                                       pc := Booted(text))
  }

  /** A poller records how far it got. */
  function Progress(sys: Sys, name: string, cursor: string): Sys {
    SetCursors(sys, sys.db.cursors[name := cursor]).(past := sys.past.(moved := sys.past.moved[name := cursor]))
  }

  /** From the file's first check to the survey of checkpoints; nothing needs undoing yet. */
  function EarlyNext(env: Env, sys: Sys, ok: bool): Sys
    requires sys.pc.At?
  {
    var req := sys.pc.attempt.req;
    if sys.pc.phase.Checked? then if ok && sys.disk.file == req.base then After(sys, Inspected) else sys.(pc := Idle)
    else if !ok then sys.(pc := Idle)
    else
      var created := FreshNames(SourcesOf(env, req.text), sys.db.cursors, ActiveSources(env, sys.mem.current));
      Survey(sys, created)
  }

  function PrepareNext(env: Env, sys: Sys, k: nat, ok: bool, cursor: string, landed: bool): Sys
    requires sys.pc.At?
  {
    var sources := SourcesOf(env, sys.pc.attempt.req.text);
    if k >= |sources| then After(sys, Ready)
    else
      var s := sources[k];
      var written := SetCursors(sys, Checkpoint(s, sys.db.cursors, ok, cursor, landed));
      if PreparedOk(s, sys.db.cursors, ok, cursor) then After(written, Preparing(k + 1)) else Abandon(written)
  }

  /** After the drain: recheck the file, audit the intent, retain the text, replace the file. */
  function DrainedNext(env: Env, sys: Sys, ok: bool, landed: bool): Sys
    requires sys.pc.At?
  {
    var req := sys.pc.attempt.req;
    if sys.pc.phase.Drained? then if ok && sys.disk.file == req.base then After(sys, Rechecked) else Resume(env, sys)
    else if sys.pc.phase.Rechecked? then if ok then After(sys, Audited) else Resume(env, sys)
    else if sys.pc.phase.Audited? then
      var written := RetainIf(sys, ok || landed, req.text, Prepared);
      if ok then After(written, Retained) else Resume(env, written)
    else if !ok then Resume(env, sys)
    else ReplaceFile(sys, landed)
  }

  function CommitNext(env: Env, sys: Sys, ok: bool): Sys
    requires sys.pc.At?
  {
    var req := sys.pc.attempt.req;
    if sys.pc.phase.Replaced? then
      StoreSnapshot(sys)
    else if sys.pc.phase.Committed? then After(sys, Started).(mem := sys.mem.(running := Jobs(env, sys.mem.current)))
    else RetainIf(sys, ok, req.text, Active).(pc := Idle)
  }

  function NextInAttempt(env: Env, sys: Sys, ok: bool, cursor: string, landed: bool): Sys
    requires sys.pc.At?
  {
    match sys.pc.phase
    case Checked => EarlyNext(env, sys, ok)
    case Inspected => EarlyNext(env, sys, ok)
    case Surveyed => if ok then After(sys, Preparing(0)) else Abandon(sys)
    case Preparing(k) => PrepareNext(env, sys, k, ok, cursor, landed)
    case Ready => if ok then After(sys, Draining) else Abandon(sys)
    case Draining => if sys.mem.running == [] then After(sys, Drained) else sys
    case Drained => DrainedNext(env, sys, ok, landed)
    case Rechecked => DrainedNext(env, sys, ok, landed)
    case Audited => DrainedNext(env, sys, ok, landed)
    case Retained => DrainedNext(env, sys, ok, landed)
    case Replaced => CommitNext(env, sys, ok)
    case Committed => CommitNext(env, sys, ok)
    case Started => CommitNext(env, sys, ok)
  }

  function Down(sys: Sys): Sys {
    sys.(pc := Dead, mem := sys.mem.(current := None, running := []), past := sys.past.(held := {}))
  }

  function CleanupNext(sys: Sys, rest: seq<string>, ok: bool): Sys {
    if rest == [] then sys.(pc := Idle)
    else if ok then sys.(pc := Cleaning(rest[1..]), db := sys.db.(cursors := sys.db.cursors - {rest[0]}))
    else sys.(pc := Cleaning(rest[1..]), past := sys.past.(lapsed := true))
  }

  /** Startup reads the durable stop and the file, which is its authority. */
  function Startup(env: Env, sys: Sys, ok: bool): Sys {
    if !ok || (sys.disk.file != "" && env.parse(sys.disk.file).None?) then sys
    else ReadAtBoot(sys, if sys.disk.file == "" then Idle else Booting(sys.disk.file, 0))
  }

  function BootNext(env: Env, sys: Sys, text: string, k: nat, ok: bool, cursor: string, landed: bool): Sys {
    var sources := SourcesOf(env, text);
    if k < |sources| then
      var written := SetCursors(sys, Checkpoint(sources[k], sys.db.cursors, ok, cursor, landed));
      if PreparedOk(sources[k], sys.db.cursors, ok, cursor) then written.(pc := Booting(text, k + 1)) else Down(written)
    else if !ok then Down(RetainIf(sys, landed, text, Active))
    else BootSnapshot(sys, text)
  }

  function NextElsewhere(env: Env, sys: Sys, ok: bool, cursor: string, landed: bool): Sys
    requires !sys.pc.At?
  {
    match sys.pc
    case Cleaning(rest) => CleanupNext(sys, rest, ok)
    case Dead => Startup(env, sys, ok)
    case Booting(text, k) => BootNext(env, sys, text, k, ok, cursor, landed)
    case Booted(_) => if ok then sys.(mem := sys.mem.(running := Jobs(env, sys.mem.current)), pc := Idle) else Down(sys)
    case Idle => sys
  }

  predicate Polls(running: seq<Runner>, name: string) {
    exists r | r in running :: r.name == name
  }

  function Apply(env: Env, sys: Sys, a: Step): Sys {
    match a
    case Begin(req, webhookReady, readable) =>
      var consent := Consent(req.allowLive, sys.mem.blocked, webhookReady);
      if sys.pc == Idle && Admissible(env, sys, req, consent, readable)
      then sys.(pc := At(Checked, Attempt(req, consent.allowLive && !consent.blocked, []))) else sys
    case Next(ok, cursor, landed) =>
      if sys.pc.At? then NextInAttempt(env, sys, ok, cursor, landed) else NextElsewhere(env, sys, ok, cursor, landed)
    case Exit(k) =>
      if sys.pc.At? && sys.pc.phase == Draining && k < |sys.mem.running|
      then sys.(mem := sys.mem.(running := sys.mem.running[..k] + sys.mem.running[k + 1..])) else sys
    case PollerWrites(name, cursor) =>
      if Polls(sys.mem.running, name) && cursor != ""
      then Progress(sys, name, cursor) else sys
    case Record(event, text) =>
      if text in sys.past.held && event !in sys.past.events
      then sys.(past := sys.past.(events := sys.past.events[event := text])) else sys
    case Evaluate(text) =>
      if text in sys.db.revisions then sys else SetRevisions(sys, sys.db.revisions[text := Row(text, Evaluated)])
    case CloseGate => sys.(mem := sys.mem.(blocked := true))
    case PersistGate => if sys.mem.blocked then sys.(db := sys.db.(gate := true)) else sys
    case Edit(text) => sys.(disk := sys.disk.(file := text), past := sys.past.(edited := true))
    case Crash(restore) =>
      Down(sys).(disk := Disk(if restore && sys.disk.previous.Some? then sys.disk.previous.value else sys.disk.file, None))
  }

  function Execute(env: Env, sys: Sys, steps: seq<Step>): Sys
    decreases |steps|
  {
    if steps == [] then sys else Execute(env, Apply(env, sys, steps[0]), steps[1..])
  }

  /** A machine on which the process has never run. */
  function Start(file: string): Sys {
    Sys(Disk(file, None), Durable(map[], map[], false), Memory(None, [], false), Dead,
        History({}, map[], map[], false, map[], map[], false))
  }

  // ---- The promises ----

  predicate BeforeDrain(phase: Phase) { phase.Surveyed? || phase.Preparing? || phase.Ready? }

  predicate AfterDrain(phase: Phase) { phase.Drained? || phase.Rechecked? || phase.Audited? || phase.Retained? }

  /** Whether activate has passed its point of no return. */
  predicate PastCommit(phase: Phase) { phase.Replaced? || phase.Committed? || phase.Started? }

  /** Absent outside edits, the file and the active snapshot agree, except between the two statements
      that replace the one and then the other. */
  ghost predicate Agrees(env: Env, sys: Sys) {
    match sys.pc
    case Dead => sys.mem.current == None
    case Booting(text, _) =>
      sys.mem.current == None && env.parse(text).Some? && (!sys.past.edited ==> sys.disk.file == text)
    case Booted(text) => sys.mem.current == Some(text) && (!sys.past.edited ==> sys.disk.file == text)
    case At(Replaced, a) => !sys.past.edited ==> sys.disk.file == a.req.text
    case _ => !sys.past.edited ==> sys.disk.file == TextOf(sys.mem.current)
  }

  /** Exactly the active snapshot's unpaused pollers run, except while a committing attempt has
      drained them. */
  ghost predicate Polling(env: Env, sys: Sys) {
    match sys.pc
    case Dead => sys.mem.running == []
    case Booting(_, _) => sys.mem.running == []
    case Booted(_) => sys.mem.running == []
    case At(phase, _) =>
      if phase == Draining then forall r | r in sys.mem.running :: r in Jobs(env, sys.mem.current)
      else if AfterDrain(phase) || phase.Replaced? || phase.Committed? then sys.mem.running == []
      else sys.mem.running == Jobs(env, sys.mem.current)
    case _ => sys.mem.running == Jobs(env, sys.mem.current)
  }

  /** Every revision an event recorded, and every snapshot in use, has a retained row holding exactly
      the text it names. */
  ghost predicate Retains(sys: Sys) {
    && (forall t | t in sys.db.revisions :: sys.db.revisions[t].yaml == t)
    && (forall t | t in sys.past.held :: t in sys.db.revisions)
    && (forall e | e in sys.past.events :: sys.past.events[e] in sys.db.revisions)
    && (sys.mem.current.Some? ==> sys.mem.current.value in sys.past.held)
    && (sys.pc.At? && (sys.pc.phase.Retained? || PastCommit(sys.pc.phase)) ==>
          sys.pc.attempt.req.text in sys.db.revisions)
  }

  /** The effect check has confined what this text can do. */
  ghost predicate Vets(env: Env, text: string, live: bool) {
    env.parse(text).Some? && Confined(Snapshot(env.parse(text).value, text), live)
  }

  /** Every activated text is confined as it was checked, and an attempt replaces the snapshot it was
      based on. */
  ghost predicate Vetted(env: Env, sys: Sys) {
    && (forall t {:trigger t in sys.past.vetted} | t in sys.past.vetted :: Vets(env, t, sys.past.vetted[t]))
    && (sys.pc.At? ==>
          && Vets(env, sys.pc.attempt.req.text, sys.pc.attempt.live)
          && if sys.pc.phase.Committed? || sys.pc.phase.Started? then sys.mem.current == Some(sys.pc.attempt.req.text)
             else sys.pc.attempt.req.base == TextOf(sys.mem.current))
  }

  /** No prior checkpoint is lost, and a nonempty one changes only through its running poller. */
  ghost predicate PriorKept(prior: Rows, cursors: Rows, moved: Rows) {
    forall n | n in prior :: n in cursors && (prior[n] != "" && n !in moved ==> cursors[n] == prior[n])
  }

  /** Any other row was created by a running poller or is one of extra. */
  ghost predicate NoStray(prior: Rows, cursors: Rows, moved: Rows, extra: seq<string>) {
    forall n | n in cursors :: n in prior || n in moved || n in extra
  }

  /** A failed attempt deletes only rows that did not exist and that no poller of the current snapshot
      can have created. */
  ghost predicate Deletable(env: Env, current: Option<string>, prior: Rows, moved: Rows, extra: seq<string>) {
    forall n {:trigger n in extra} | n in extra :: n !in prior && n !in moved && !RunsIn(ActiveSources(env, current), n)
  }

  /** While a snapshot is active its journals keep their checkpoints, and an attempt that reuses a name
      reuses the identity behind it. */
  ghost predicate Anchored(env: Env, current: Option<string>, cursors: Rows, text: string) {
    && CheckpointsPresent(ActiveSources(env, current), cursors)
    && SameIdentities(ActiveSources(env, current), SourcesOf(env, text))
  }

  /** Every source of an attempt had its row surveyed. */
  ghost predicate Listed(env: Env, current: Option<string>, prior: Rows, created: seq<string>, text: string) {
    forall s | s in SourcesOf(env, text) ::
      s.name in prior || s.name in created || RunsIn(ActiveSources(env, current), s.name)
  }

  ghost predicate Preserves(env: Env, sys: Sys) {
    match sys.pc
    case At(phase, a) =>
      && (phase.Committed? || phase.Started? || Anchored(env, sys.mem.current, sys.db.cursors, a.req.text))
      && (phase.Checked? || phase.Inspected?
          || (PriorKept(sys.past.prior, sys.db.cursors, sys.past.moved)
              && NoStray(sys.past.prior, sys.db.cursors, sys.past.moved, a.created)
              && (phase.Committed? || phase.Started?
                  || (Deletable(env, sys.mem.current, sys.past.prior, sys.past.moved, a.created)
                      && Listed(env, sys.mem.current, sys.past.prior, a.created, a.req.text)))))
    case Cleaning(rest) =>
      && PriorKept(sys.past.prior, sys.db.cursors, sys.past.moved)
      && (sys.past.lapsed || NoStray(sys.past.prior, sys.db.cursors, sys.past.moved, rest))
      && Deletable(env, sys.mem.current, sys.past.prior, sys.past.moved, rest)
    case _ => true
  }

  /** What running pollers wrote is there as they last wrote it. */
  ghost predicate MovedKept(sys: Sys) {
    forall n | n in sys.past.moved :: n in sys.db.cursors && sys.db.cursors[n] == sys.past.moved[n]
  }

  ghost predicate SysOk(env: Env, sys: Sys) {
    Agrees(env, sys) && Polling(env, sys) && Retains(sys) && Vetted(env, sys) && Preserves(env, sys)
  }
}
