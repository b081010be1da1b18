/** The manager as written (cmd/mrmr/control_config.go:37-72 and 406-580, cmd/mrmr/managed.go:413-440):
    statements over its fields, the file and the database, each proved to be one step of the protocol,
    with anything the environment does in between. */
module Managers {
  import opened Domain
  import opened PolicyRules
  import opened Configuration
  import opened Checkpoints
  import opened Sums
  import opened Activation
  import opened ActivationRuns

  /** What the environment may do between two statements of a live process. */
  predicate Outside(a: Step) {
    a.PollerWrites? || a.Record? || a.Evaluate? || a.CloseGate? || a.PersistGate? || a.Edit?
  }

  predicate AllOutside(steps: seq<Step>) {
    forall k | 0 <= k < |steps| :: Outside(steps[k])
  }

  /** How each statement of one activation turns out. A journal's starting position is tail(k);
      cancelled and failed statements are false. */
  datatype Outcomes = Outcomes(readable: bool, inspected: bool, surveyed: bool, modelReady: bool,
                               prepared: nat -> bool, tail: nat -> string, landed: nat -> bool, requestLive: bool,
                               rechecked: bool, audited: bool, retained: bool, retainLanded: bool,
                               renamed: bool, synced: bool, finished: bool, cleaned: nat -> bool)

  /** Nobody else touches the file. */
  ghost predicate Quiet(steps: seq<Step>) {
    forall k | 0 <= k < |steps| :: !steps[k].Edit?
  }

  ghost predicate AllQuiet(meanwhile: nat -> seq<Step>) {
    forall n: nat :: Quiet(meanwhile(n))
  }

  ghost predicate Undisturbed(meanwhile: nat -> nat -> seq<Step>) {
    forall m: nat :: AllQuiet(meanwhile(m))
  }

  predicate Possible(s: Source) { s.paused || !s.kind.OtherSource? }

  /** Source k is of a kind that can be prepared, and nothing failed in preparing it. */
  ghost predicate PreparesAt(f: Outcomes, sources: seq<Source>, k: nat) {
    k < |sources| && f.prepared(k) && Possible(sources[k])
  }

  ghost predicate PreparesWell(f: Outcomes, sources: seq<Source>, n: nat) {
    forall k: nat {:trigger PreparesAt(f, sources, k)} | k < n :: PreparesAt(f, sources, k)
  }

  /** A journal that is to run has a position to start from. */
  predicate Starts(s: Source, tail: string) { s.paused || s.kind != SystemdJournal || tail != "" }

  ghost predicate StartsAt(f: Outcomes, sources: seq<Source>, k: nat) {
    k < |sources| && Starts(sources[k], f.tail(k))
  }

  ghost predicate HasTails(f: Outcomes, sources: seq<Source>) {
    forall k: nat {:trigger StartsAt(f, sources, k)} | k < |sources| :: StartsAt(f, sources, k)
  }

  lemma PreparesMore(f: Outcomes, sources: seq<Source>, k: nat)
    requires k < |sources|
    ensures PreparesWell(f, sources, k) && f.prepared(k) && Possible(sources[k]) ==> PreparesWell(f, sources, k + 1)
    ensures PreparesWell(f, sources, |sources|) ==> f.prepared(k) && Possible(sources[k])
    ensures HasTails(f, sources) ==> Starts(sources[k], f.tail(k))
  {
    assert PreparesAt(f, sources, k) <==> f.prepared(k) && Possible(sources[k]);
    assert StartsAt(f, sources, k) <==> Starts(sources[k], f.tail(k));
  }

  /** No statement from the readiness check to the rename failed. */
  ghost predicate Switches(f: Outcomes, sources: seq<Source>) {
    && f.modelReady && PreparesWell(f, sources, |sources|) && f.requestLive
    && f.rechecked && f.audited && f.retained && f.renamed
  }

  /** Nor one before it. */
  ghost predicate Favours(f: Outcomes, sources: seq<Source>) {
    f.inspected && f.surveyed && Switches(f, sources)
  }

  lemma {:induction false} ExecuteThen(env: Env, sys: Sys, steps: seq<Step>, a: Step)
    ensures Execute(env, sys, steps + [a]) == Apply(env, Execute(env, sys, steps), a)
    decreases |steps|
  {
    if steps == [] {
      assert [a][1..] == [];
    } else {
      assert (steps + [a])[1..] == steps[1..] + [a];
      ExecuteThen(env, Apply(env, sys, steps[0]), steps[1..], a);
    }
  }

  lemma FreshFrom(sources: seq<Source>, i: nat, cursors: Rows, active: seq<Source>)
    requires i < |sources|
    ensures FreshNames(sources[i..], cursors, active)
         == (if sources[i].name in cursors || RunsIn(active, sources[i].name) then [] else [sources[i].name])
            + FreshNames(sources[i + 1..], cursors, active)
  {
  }

  lemma JobsStep(sources: seq<Source>, i: nat, text: string)
    requires i < |sources|
    ensures JobsFrom(sources[i..], text)
         == (if sources[i].paused then [] else [Runner(sources[i].name, text)]) + JobsFrom(sources[i + 1..], text)
  {
  }

  method StartEach(sources: seq<Source>, text: string) returns (running: seq<Runner>)
    ensures running == JobsFrom(sources, text)
  {
    running := [];
    for i := 0 to |sources|
      invariant running + JobsFrom(sources[i..], text) == JobsFrom(sources, text)
    {
      JobsStep(sources, i, text);
      if !sources[i].paused {
        running := running + [Runner(sources[i].name, text)];
      }
    }
  }

  class Manager {
    const env: Env
    var file: string
    var current: Option<string>
    var running: seq<Runner>
    var blocked: bool
    var cursors: Rows
    var revisions: map<string, Row>
    var gate: bool
    ghost var previous: Option<string>
    ghost var pc: Pc
    ghost var past: History
    ghost var origin: Sys
    ghost var trace: seq<Step>

    constructor (env: Env, text: string)
      ensures this.env == env && Follows() && pc == Dead && origin == Start(text) && trace == []
      ensures SysOk(env, origin)
    {
      this.env := env;
      file, current, running, blocked, gate := text, None, [], false, false;
      cursors, revisions := map[], map[];
      previous, pc, past := None, Dead, History({}, map[], map[], false, map[], map[], false);
      origin, trace := Start(text), [];
      new;
      StartOk(env, text);
    }

    ghost function State(): Sys
      reads this
    {
      Sys(Disk(file, previous), Durable(cursors, revisions, gate), Memory(current, running, blocked), pc, past)
    }

    /** The fields are where the recorded steps lead. */
    ghost predicate Follows()
      reads this
    {
      State() == Execute(env, origin, trace)
    }

    /** Neither the process nor anyone else changed the file. */
    twostate predicate FileUntouched()
      reads this
    {
      file == old(file) && past.edited == old(past.edited)
    }

    ghost method Note(a: Step, before: Sys)
      requires before == Execute(env, origin, trace) && State() == Apply(env, before, a)
      modifies this`trace
      ensures trace == old(trace) + [a] && Follows()
    {
      ExecuteThen(env, origin, trace, a);
      trace := trace + [a];
    }

    /** One notification-only, consented and unblocked outcome after another. */
    method PolicyPasses(p: Policy, k: Consent) returns (ok: bool)
      ensures ok == PolicyAllowed(p, k)
    {
      if !OutcomeAllowed(p.default, k) {
        return false;
      }
      for i := 0 to |p.rules|
        invariant forall j | 0 <= j < i :: OutcomeAllowed(p.rules[j].then_, k)
      {
        if !OutcomeAllowed(p.rules[i].then_, k) {
          return false;
        }
      }
      ok := true;
    }

    method EffectsPass(c: Config, k: Consent) returns (ok: bool)
      ensures ok == EffectsAllowed(c, k)
    {
      ok := PolicyPasses(c.policy, k);
      if !ok {
        return;
      }
      var names := KeysOf(c.monitors);
      for i := 0 to |names|
        invariant forall j | 0 <= j < i :: PolicyAllowed(c.monitors[names[j]].policy, k)
      {
        ok := PolicyPasses(c.monitors[names[i]].policy, k);
        if !ok {
          assert names[i] in c.monitors;
          return;
        }
      }
      forall name | name in c.monitors ensures PolicyAllowed(c.monitors[name].policy, k) {
        assert name in names;
      }
      ok := true;
    }

    method SourcesPass(before: seq<Source>, after: seq<Source>, readable: bool) returns (ok: bool)
      ensures ok <==> (readable || !HasLiveJournal(before)) && CheckpointsPresent(before, cursors) && SameIdentities(before, after)
    {
      for i := 0 to |before|
        invariant forall j | 0 <= j < i && before[j].kind == SystemdJournal && !before[j].paused ::
          readable && Position(cursors, before[j].name) != ""
        invariant forall j, a | 0 <= j < i && a in after && a.name == before[j].name ::
          Identity(a) == Identity(before[j])
      {
        if before[i].kind == SystemdJournal && !before[i].paused && (!readable || Position(cursors, before[i].name) == "") {
          assert before[i] in before;
          return false;
        }
        for n := 0 to |after|
          invariant forall m | 0 <= m < n && after[m].name == before[i].name ::
            Identity(after[m]) == Identity(before[i])
        {
          if after[n].name == before[i].name && Identity(after[n]) != Identity(before[i]) {
            assert before[i] in before && after[n] in after;
            return false;
          }
        }
      }
      ok := true;
    }

    // ---- The environment ----

    method Interfere(a: Step)
      requires Follows() && Outside(a)
      modifies this
      ensures Follows() && trace == old(trace) + [a] && origin == old(origin)
      ensures pc == old(pc) && current == old(current) && running == old(running)
      ensures !a.Edit? ==> FileUntouched()
    {
      ghost var before := State();
      match a {
        case PollerWrites(name, cursor) =>
          if (exists r | r in running :: r.name == name) && cursor != "" {
            cursors := cursors[name := cursor];
            past := past.(moved := past.moved[name := cursor]);
          }
        case Record(event, text) =>
          if text in past.held && event !in past.events {
            past := past.(events := past.events[event := text]);
          }
        case Evaluate(text) =>
          if text !in revisions {
            revisions := revisions[text := Row(text, Evaluated)];
          }
        case CloseGate =>
          blocked := true;
        case PersistGate =>
          gate := gate || blocked;
        case Edit(text) =>
          file := text;
          past := past.(edited := true);
      }
      Note(a, before);
    }

    /** Whatever happens before the next statement. */
    method Meanwhile(steps: seq<Step>)
      requires Follows() && AllOutside(steps)
      modifies this
      ensures Follows() && origin == old(origin) && trace == old(trace) + steps
      ensures pc == old(pc) && current == old(current) && running == old(running)
      ensures Quiet(steps) ==> FileUntouched()
    {
      for i := 0 to |steps|
        invariant Follows() && origin == old(origin) && trace == old(trace) + steps[..i]
        invariant pc == old(pc) && current == old(current) && running == old(running)
        invariant Quiet(steps) ==> FileUntouched()
      {
        Interfere(steps[i]);
      }
    }

    // ---- Before anything changes ----

    method Admit(req: Request, webhookReady: string -> bool, readable: bool) returns (ok: bool)
      requires Follows() && pc == Idle
      modifies this`pc, this`trace
      ensures Follows() && old(trace) <= trace
      ensures ok <==> AdmissibleNow(old(State()), req, webhookReady, readable)
      ensures ok ==> pc.At? && pc.phase == Checked && pc.attempt.req == req && env.parse(req.text).Some?
      ensures !ok ==> pc == Idle
    {
      if req.text == "" || req.base != TextOf(current) {
        return false;
      }
      var parsed := env.parse(req.text);
      if parsed.None? || !env.serverOk(parsed.value) {
        return false;
      }
      var consent := Consent(req.allowLive, blocked, webhookReady);
      ok := EffectsPass(parsed.value, consent);
      if !ok {
        return;
      }
      if current.Some? {
        ok := SourcesPass(SourcesOf(env, current.value), parsed.value.sources, readable);
        if !ok {
          return;
        }
      }
      ghost var before := State();
      pc := At(Checked, Attempt(req, req.allowLive && !blocked, []));
      Note(Begin(req, webhookReady, readable), before);
    }

    /** An attempt of req stands at phase. */
    ghost predicate Stands(req: Request, created: seq<string>, phase: Phase)
      reads this
    {
      pc.At? && pc.phase == phase && pc.attempt.req == req && pc.attempt.created == created
    }

    method InspectFile(req: Request, readOk: bool, meanwhile: seq<Step>) returns (ok: bool)
      requires Follows() && pc.At? && pc.phase == Checked && pc.attempt.req == req && AllOutside(meanwhile)
      modifies this
      ensures Follows() && origin == old(origin) && old(trace) <= trace && current == old(current)
      ensures pc == if ok then At(Inspected, old(pc).attempt) else Idle
      ensures ok ==> readOk
      ensures Quiet(meanwhile) ==> FileUntouched() && ok == (readOk && file == req.base)
    {
      Meanwhile(meanwhile);
      ghost var before := State();
      ok := readOk && file == req.base;
      pc := if ok then At(Inspected, pc.attempt) else Idle;
      Note(Next(readOk, "", false), before);
    }

    /** The sources whose checkpoint row only this attempt can create. */
    method MissingRows(sources: seq<Source>, active: seq<Source>) returns (created: seq<string>)
      ensures created == FreshNames(sources, cursors, active)
    {
      created := [];
      for i := 0 to |sources|
        invariant created + FreshNames(sources[i..], cursors, active) == FreshNames(sources, cursors, active)
      {
        FreshFrom(sources, i, cursors, active);
        if sources[i].name !in cursors && !RunsIn(active, sources[i].name) {
          created := created + [sources[i].name];
        }
      }
    }

    method Survey(req: Request, readOk: bool, meanwhile: seq<Step>) returns (ok: bool, created: seq<string>)
      requires Follows() && pc.At? && pc.phase == Inspected && pc.attempt.req == req && AllOutside(meanwhile)
      modifies this
      ensures Follows() && origin == old(origin) && old(trace) <= trace && current == old(current) && ok == readOk
      ensures if ok then Stands(req, created, Surveyed) else pc == Idle
      ensures Quiet(meanwhile) ==> FileUntouched()
    {
      Meanwhile(meanwhile);
      ghost var before := State();
      ok, created := readOk, [];
      if ok {
        created := MissingRows(SourcesOf(env, req.text), ActiveSources(env, current));
        pc := At(Surveyed, pc.attempt.(created := created));
        past := past.(prior := cursors, moved := map[], lapsed := false);
      } else {
        pc := Idle;
      }
      Note(Next(readOk, "", false), before);
    }

    // ---- Preparation ----

    method CheckModels(req: Request, created: seq<string>, ready: bool, meanwhile: seq<Step>) returns (ok: bool)
      requires Follows() && Stands(req, created, Surveyed) && AllOutside(meanwhile)
      modifies this
      ensures Follows() && origin == old(origin) && old(trace) <= trace && current == old(current) && ok == ready
      ensures if ok then Stands(req, created, Preparing(0)) else pc == Cleaning(created)
      ensures Quiet(meanwhile) ==> FileUntouched()
    {
      Meanwhile(meanwhile);
      ghost var before := State();
      ok := ready;
      pc := if ok then At(Preparing(0), pc.attempt) else Cleaning(created);
      Note(Next(ready, "", false), before);
    }

    method PrepareSource(req: Request, created: seq<string>, k: nat, prepared: bool, tail: string, landed: bool,
                         meanwhile: seq<Step>) returns (ok: bool)
      requires Follows() && Stands(req, created, Preparing(k)) && k < |SourcesOf(env, req.text)| && AllOutside(meanwhile)
      modifies this
      ensures Follows() && origin == old(origin) && old(trace) <= trace && current == old(current)
      ensures Quiet(meanwhile) ==> FileUntouched()
      ensures if ok then Stands(req, created, Preparing(k + 1)) else pc == Cleaning(created)
      ensures ok ==> prepared && Possible(SourcesOf(env, req.text)[k])
      ensures prepared && Possible(SourcesOf(env, req.text)[k]) && Starts(SourcesOf(env, req.text)[k], tail) ==> ok
    {
      Meanwhile(meanwhile);
      ok := WriteCheckpoint(req, created, k, prepared, tail, landed);
    }

    method WriteCheckpoint(req: Request, created: seq<string>, k: nat, prepared: bool, tail: string,
                           landed: bool) returns (ok: bool)
      requires Follows() && Stands(req, created, Preparing(k)) && k < |SourcesOf(env, req.text)|
      modifies this`cursors, this`pc, this`trace
      ensures Follows() && old(trace) <= trace
      ensures if ok then Stands(req, created, Preparing(k + 1)) else pc == Cleaning(created)
      ensures ok ==> prepared && Possible(SourcesOf(env, req.text)[k])
      ensures prepared && Possible(SourcesOf(env, req.text)[k]) && Starts(SourcesOf(env, req.text)[k], tail) ==> ok
    {
      ghost var before := State();
      var s := SourcesOf(env, req.text)[k];
      ok := prepared;
      if !s.paused {
        match s.kind {
          case HttpPoller =>
          case SystemdJournal =>
            if Position(cursors, s.name) == "" {
              if tail != "" && (ok || landed) {
                cursors := cursors[s.name := tail];
              }
              ok := ok && tail != "";
            }
          case OtherSource(_) =>
            ok := false;
        }
      }
      pc := if ok then At(Preparing(k + 1), pc.attempt) else Cleaning(created);
      Note(Next(prepared, tail, landed), before);
    }

    method PrepareSources(req: Request, created: seq<string>, f: Outcomes,
                          meanwhile: nat -> seq<Step>) returns (ok: bool)
      requires Follows() && Stands(req, created, Preparing(0)) && forall n: nat :: AllOutside(meanwhile(n))
      modifies this
      ensures Follows() && origin == old(origin) && old(trace) <= trace && current == old(current)
      ensures if ok then Stands(req, created, Preparing(|SourcesOf(env, req.text)|)) else pc == Cleaning(created)
      ensures var sources := SourcesOf(env, req.text);
        && (ok ==> PreparesWell(f, sources, |sources|))
        && (PreparesWell(f, sources, |sources|) && HasTails(f, sources) ==> ok)
      ensures AllQuiet(meanwhile) ==> FileUntouched()
    {
      var sources := SourcesOf(env, req.text);
      ghost var quiet := AllQuiet(meanwhile);
      ok := true;
      for k := 0 to |sources|
        invariant Follows() && origin == old(origin) && old(trace) <= trace && current == old(current)
        invariant Stands(req, created, Preparing(k))
        invariant PreparesWell(f, sources, k)
        invariant quiet ==> FileUntouched()
      {
        PreparesMore(f, sources, k);
        assert quiet ==> Quiet(meanwhile(k));
        ok := PrepareSource(req, created, k, f.prepared(k), f.tail(k), f.landed(k), meanwhile(k));
        if !ok {
          return;
        }
      }
      ok := true;
    }

    method Prepare(req: Request, created: seq<string>, f: Outcomes, meanwhile: nat -> seq<Step>) returns (ok: bool)
      requires Follows() && Stands(req, created, Preparing(0)) && forall n: nat :: AllOutside(meanwhile(n))
      modifies this
      ensures Follows() && origin == old(origin) && old(trace) <= trace && current == old(current)
      ensures if ok then Stands(req, created, Draining) else pc == Cleaning(created)
      ensures var sources := SourcesOf(env, req.text);
        && (ok ==> PreparesWell(f, sources, |sources|) && f.requestLive)
        && (PreparesWell(f, sources, |sources|) && HasTails(f, sources) && f.requestLive ==> ok)
      ensures AllQuiet(meanwhile) ==> FileUntouched()
    {
      ok := PrepareSources(req, created, f, meanwhile);
      if ok {
        ok := ConfirmRequest(req, created, f.requestLive);
      }
    }

    /** The request may have been cancelled while it was prepared. */
    method ConfirmRequest(req: Request, created: seq<string>, live: bool) returns (ok: bool)
      requires Follows() && Stands(req, created, Preparing(|SourcesOf(env, req.text)|))
      modifies this`pc, this`trace
      ensures Follows() && old(trace) <= trace && ok == live
      ensures if ok then Stands(req, created, Draining) else pc == Cleaning(created)
    {
      ghost var before := State();
      pc := At(Ready, pc.attempt);
      Note(Next(true, "", false), before);
      before := State();
      ok := live;
      pc := if ok then At(Draining, pc.attempt) else Cleaning(created);
      Note(Next(live, "", false), before);
    }

    // ---- The switch ----

    /** Closing the stop channel and waiting for every poller, which may still make progress. */
    method Drain(req: Request, created: seq<string>, meanwhile: nat -> seq<Step>)
      requires Follows() && Stands(req, created, Draining) && forall n: nat :: AllOutside(meanwhile(n))
      modifies this
      ensures Follows() && origin == old(origin) && old(trace) <= trace && current == old(current)
      ensures Stands(req, created, Drained) && running == []
      ensures AllQuiet(meanwhile) ==> FileUntouched()
    {
      var n: nat := 0;
      while running != []
        invariant Follows() && origin == old(origin) && old(trace) <= trace && current == old(current)
        invariant Stands(req, created, Draining)
        invariant AllQuiet(meanwhile) ==> FileUntouched()
        decreases |running|
      {
        Meanwhile(meanwhile(n));
        PollerExits(req, created);
        n := n + 1;
      }
      ghost var before := State();
      pc := At(Drained, pc.attempt);
      Note(Next(true, "", false), before);
    }

    method PollerExits(req: Request, created: seq<string>)
      requires Follows() && Stands(req, created, Draining) && running != []
      modifies this`running, this`trace
      ensures Follows() && old(trace) <= trace && running == old(running)[1..]
    {
      ghost var before := State();
      running := running[..0] + running[1..];
      Note(Exit(0), before);
    }

    method StartSources()
      modifies this`running
      ensures running == Jobs(env, current)
    {
      running := [];
      if current.Some? {
        running := StartEach(SourcesOf(env, current.value), current.value);
      }
    }

    method Recheck(req: Request, created: seq<string>, readOk: bool, meanwhile: seq<Step>) returns (ok: bool)
      requires Follows() && Stands(req, created, Drained) && AllOutside(meanwhile)
      modifies this
      ensures Follows() && origin == old(origin) && old(trace) <= trace && current == old(current)
      ensures if ok then Stands(req, created, Rechecked) else pc == Cleaning(created)
      ensures ok ==> readOk
      ensures Quiet(meanwhile) ==> FileUntouched() && (readOk && file == req.base ==> ok)
    {
      Meanwhile(meanwhile);
      ghost var before := State();
      ok := readOk && file == req.base;
      if !ok {
        StartSources();
      }
      pc := if ok then At(Rechecked, pc.attempt) else Cleaning(created);
      Note(Next(readOk, "", false), before);
    }

    method AuditIntent(req: Request, created: seq<string>, audited: bool, meanwhile: seq<Step>) returns (ok: bool)
      requires Follows() && Stands(req, created, Rechecked) && AllOutside(meanwhile)
      modifies this
      ensures Follows() && origin == old(origin) && old(trace) <= trace && current == old(current)
      ensures if ok then Stands(req, created, Audited) else pc == Cleaning(created)
      ensures ok == audited
      ensures Quiet(meanwhile) ==> FileUntouched()
    {
      Meanwhile(meanwhile);
      ghost var before := State();
      ok := audited;
      if !ok {
        StartSources();
      }
      pc := if ok then At(Audited, pc.attempt) else Cleaning(created);
      Note(Next(audited, "", false), before);
    }

    method RetainRevision(req: Request, created: seq<string>, retained: bool, landed: bool,
                          meanwhile: seq<Step>) returns (ok: bool)
      requires Follows() && Stands(req, created, Audited) && AllOutside(meanwhile)
      modifies this
      ensures Follows() && origin == old(origin) && old(trace) <= trace && current == old(current)
      ensures if ok then Stands(req, created, Retained) else pc == Cleaning(created)
      ensures ok == retained
      ensures Quiet(meanwhile) ==> FileUntouched()
    {
      Meanwhile(meanwhile);
      ok := WriteRevision(req, created, retained, landed);
    }

    method WriteRevision(req: Request, created: seq<string>, retained: bool, landed: bool) returns (ok: bool)
      requires Follows() && Stands(req, created, Audited)
      modifies this`revisions, this`running, this`pc, this`trace
      ensures Follows() && old(trace) <= trace
      ensures if ok then Stands(req, created, Retained) else pc == Cleaning(created)
      ensures ok == retained
    {
      ghost var before := State();
      ok := retained;
      if ok || landed {
        revisions := Retain(revisions, req.text, Prepared);
      }
      if !ok {
        StartSources();
      }
      pc := if ok then At(Retained, pc.attempt) else Cleaning(created);
      Note(Next(retained, "", landed), before);
    }

    /** A synced temporary file renamed over the old one: the whole text or none of it. */
    method ReplaceConfig(req: Request, created: seq<string>, renamed: bool, synced: bool,
                         meanwhile: seq<Step>) returns (ok: bool)
      requires Follows() && Stands(req, created, Retained) && AllOutside(meanwhile)
      modifies this
      ensures Follows() && origin == old(origin) && old(trace) <= trace && current == old(current)
      ensures if ok then Stands(req, created, Replaced) else pc == Cleaning(created)
      ensures ok == renamed
      ensures ok ==> file == req.text && !past.edited
      ensures !ok && Quiet(meanwhile) ==> FileUntouched()
    {
      Meanwhile(meanwhile);
      ok := Rename(req, created, renamed, synced);
    }

    method Rename(req: Request, created: seq<string>, renamed: bool, synced: bool) returns (ok: bool)
      requires Follows() && Stands(req, created, Retained)
      modifies this`file, this`previous, this`past, this`running, this`pc, this`trace
      ensures Follows() && old(trace) <= trace
      ensures if ok then Stands(req, created, Replaced) else pc == Cleaning(created)
      ensures ok == renamed
      ensures if ok then file == req.text && !past.edited else FileUntouched()
      ensures ok ==> previous == if synced then None else Some(old(file))
    {
      ghost var before := State();
      ok := renamed;
      if ok {
        previous := if synced then None else Some(file);
        file := req.text;
        past := past.(edited := false);
        pc := At(Replaced, pc.attempt);
      } else {
        StartSources();
        pc := Cleaning(created);
      }
      Note(Next(renamed, "", synced), before);
    }

    method StoreCurrent(req: Request, created: seq<string>, meanwhile: seq<Step>)
      requires Follows() && Stands(req, created, Replaced) && AllOutside(meanwhile)
      modifies this
      ensures Follows() && origin == old(origin) && old(trace) <= trace
      ensures Stands(req, created, Committed) && current == Some(req.text)
      ensures Quiet(meanwhile) ==> FileUntouched()
    {
      Meanwhile(meanwhile);
      ghost var before := State();
      current := Some(req.text);
      past := past.(held := past.held + {req.text}, vetted := past.vetted[req.text := pc.attempt.live]);
      pc := At(Committed, pc.attempt);
      Note(Next(true, "", false), before);
    }

    method StartNew(req: Request, created: seq<string>, meanwhile: seq<Step>)
      requires Follows() && Stands(req, created, Committed) && AllOutside(meanwhile)
      modifies this
      ensures Follows() && origin == old(origin) && old(trace) <= trace && current == old(current)
      ensures Stands(req, created, Started)
      ensures Quiet(meanwhile) ==> FileUntouched()
    {
      Meanwhile(meanwhile);
      ghost var before := State();
      StartSources();
      pc := At(Started, pc.attempt);
      Note(Next(true, "", false), before);
    }

    method RecordActive(req: Request, created: seq<string>, finished: bool, meanwhile: seq<Step>)
      requires Follows() && Stands(req, created, Started) && AllOutside(meanwhile)
      modifies this
      ensures Follows() && origin == old(origin) && old(trace) <= trace && current == old(current) && pc == Idle
      ensures Quiet(meanwhile) ==> FileUntouched()
    {
      Meanwhile(meanwhile);
      ghost var before := State();
      if finished {
        revisions := Retain(revisions, req.text, Active);
      }
      pc := Idle;
      Note(Next(finished, "", false), before);
    }

    /** Past the rename nothing turns back; a failed status update leaves the new snapshot active. */
    method Commit(req: Request, created: seq<string>, finished: bool, meanwhile: nat -> seq<Step>)
      requires Follows() && Stands(req, created, Replaced) && forall n: nat :: AllOutside(meanwhile(n))
      modifies this
      ensures Follows() && origin == old(origin) && old(trace) <= trace
      ensures pc == Idle && current == Some(req.text)
      ensures AllQuiet(meanwhile) ==> FileUntouched()
    {
      StoreCurrent(req, created, meanwhile(0));
      StartNew(req, created, meanwhile(1));
      RecordActive(req, created, finished, meanwhile(2));
    }

    /** The deferred cleanup of a failed attempt. */
    method CleanUp(created: seq<string>, cleaned: nat -> bool, meanwhile: nat -> seq<Step>)
      requires Follows() && pc == Cleaning(created) && forall n: nat :: AllOutside(meanwhile(n))
      modifies this
      ensures Follows() && origin == old(origin) && old(trace) <= trace
      ensures pc == Idle && current == old(current)
      ensures AllQuiet(meanwhile) ==> FileUntouched()
    {
      for i := 0 to |created|
        invariant Follows() && origin == old(origin) && old(trace) <= trace && current == old(current)
        invariant pc == Cleaning(created[i..])
        invariant AllQuiet(meanwhile) ==> FileUntouched()
      {
        Meanwhile(meanwhile(i));
        DeleteRow(created[i..], cleaned(i));
      }
      ghost var before := State();
      pc := Idle;
      Note(Next(true, "", false), before);
    }

    method DeleteRow(rest: seq<string>, ok: bool)
      requires Follows() && pc == Cleaning(rest) && rest != []
      modifies this`cursors, this`past, this`pc, this`trace
      ensures Follows() && old(trace) <= trace && pc == Cleaning(rest[1..]) && FileUntouched()
      ensures cursors == if ok then old(cursors) - {rest[0]} else old(cursors)
    {
      ghost var before := State();
      if ok {
        cursors := cursors - {rest[0]};
      } else {
        past := past.(lapsed := true);
      }
      pc := Cleaning(rest[1..]);
      Note(Next(ok, "", false), before);
    }

    // ---- The whole operation ----

    method ConfirmSwitch(req: Request, created: seq<string>, f: Outcomes,
                         meanwhile: nat -> seq<Step>) returns (ok: bool)
      requires Follows() && Stands(req, created, Drained) && forall n: nat :: AllOutside(meanwhile(n))
      modifies this
      ensures Follows() && origin == old(origin) && old(trace) <= trace && current == old(current)
      ensures if ok then Stands(req, created, Audited) else pc == Cleaning(created)
      ensures ok ==> f.rechecked && f.audited
      ensures f.rechecked && f.audited && old(file) == req.base && AllQuiet(meanwhile) ==> ok
      ensures AllQuiet(meanwhile) ==> FileUntouched()
    {
      ok := Recheck(req, created, f.rechecked, meanwhile(0));
      if ok {
        ok := AuditIntent(req, created, f.audited, meanwhile(1));
      }
    }

    method PerformSwitch(req: Request, created: seq<string>, f: Outcomes,
                         meanwhile: nat -> seq<Step>) returns (ok: bool)
      requires Follows() && Stands(req, created, Audited) && forall n: nat :: AllOutside(meanwhile(n))
      modifies this
      ensures Follows() && origin == old(origin) && old(trace) <= trace && current == old(current)
      ensures if ok then Stands(req, created, Replaced) else pc == Cleaning(created)
      ensures ok == (f.retained && f.renamed)
      ensures ok ==> file == req.text && !past.edited
      ensures !ok && AllQuiet(meanwhile) ==> FileUntouched()
    {
      ok := RetainRevision(req, created, f.retained, f.retainLanded, meanwhile(2));
      if ok {
        ok := ReplaceConfig(req, created, f.renamed, f.synced, meanwhile(3));
      }
    }

    /** Readiness and preparation; the request must still be live. */
    method GetReady(req: Request, created: seq<string>, f: Outcomes,
                    meanwhile: nat -> nat -> seq<Step>) returns (ok: bool)
      requires Follows() && Stands(req, created, Surveyed) && forall m: nat, n: nat :: AllOutside(meanwhile(m)(n))
      modifies this
      ensures Follows() && origin == old(origin) && old(trace) <= trace && current == old(current)
      ensures if ok then Stands(req, created, Draining) else pc == Cleaning(created)
      ensures var sources := SourcesOf(env, req.text);
        && (ok ==> f.modelReady && PreparesWell(f, sources, |sources|) && f.requestLive)
        && (f.modelReady && PreparesWell(f, sources, |sources|) && HasTails(f, sources) && f.requestLive ==> ok)
      ensures AllQuiet(meanwhile(0)) && AllQuiet(meanwhile(1)) ==> FileUntouched()
    {
      assert AllQuiet(meanwhile(0)) ==> Quiet(meanwhile(0)(0));
      ok := CheckModels(req, created, f.modelReady, meanwhile(0)(0));
      if ok {
        ok := Prepare(req, created, f, meanwhile(1));
      }
    }

    /** From readiness to the end of the drain. */
    method Quiesce(req: Request, created: seq<string>, f: Outcomes,
                   meanwhile: nat -> nat -> seq<Step>) returns (ok: bool)
      requires Follows() && Stands(req, created, Surveyed) && forall m: nat, n: nat :: AllOutside(meanwhile(m)(n))
      modifies this
      ensures Follows() && origin == old(origin) && old(trace) <= trace && current == old(current)
      ensures if ok then Stands(req, created, Drained) else pc == Cleaning(created)
      ensures var sources := SourcesOf(env, req.text);
        && (ok ==> f.modelReady && PreparesWell(f, sources, |sources|) && f.requestLive)
        && (f.modelReady && PreparesWell(f, sources, |sources|) && HasTails(f, sources) && f.requestLive ==> ok)
      ensures Undisturbed(meanwhile) ==> FileUntouched()
    {
      ok := GetReady(req, created, f, meanwhile);
      if ok {
        Drain(req, created, meanwhile(2));
      }
    }

    /** Everything once the cleanup is armed. */
    method Attempted(req: Request, created: seq<string>, f: Outcomes,
                     meanwhile: nat -> nat -> seq<Step>) returns (ok: bool)
      requires Follows() && Stands(req, created, Surveyed) && forall m: nat, n: nat :: AllOutside(meanwhile(m)(n))
      modifies this
      ensures Follows() && origin == old(origin) && old(trace) <= trace && current == old(current)
      ensures if ok then Stands(req, created, Replaced) else pc == Cleaning(created)
      ensures var sources := SourcesOf(env, req.text);
        && (ok ==> Switches(f, sources))
        && (Switches(f, sources) && HasTails(f, sources) && old(file) == req.base && Undisturbed(meanwhile) ==> ok)
      ensures ok ==> file == req.text && !past.edited
      ensures !ok && Undisturbed(meanwhile) ==> FileUntouched()
    {
      ok := Quiesce(req, created, f, meanwhile);
      if ok {
        ok := ConfirmSwitch(req, created, f, meanwhile(3));
      }
      if ok {
        ok := PerformSwitch(req, created, f, meanwhile(3));
      }
    }

    ghost predicate AdmissibleNow(sys: Sys, req: Request, webhookReady: string -> bool, readable: bool) {
      Admissible(env, sys, req, Consent(req.allowLive, sys.mem.blocked, webhookReady), readable)
    }

    /** Everything before the cleanup is armed. */
    method Propose(req: Request, webhookReady: string -> bool, f: Outcomes,
                   meanwhile: nat -> seq<Step>) returns (ok: bool, created: seq<string>)
      requires Follows() && pc == Idle && forall n: nat :: AllOutside(meanwhile(n))
      modifies this
      ensures Follows() && origin == old(origin) && old(trace) <= trace && current == old(current)
      ensures if ok then Stands(req, created, Surveyed) else pc == Idle
      ensures ok ==> AdmissibleNow(old(State()), req, webhookReady, f.readable) && f.inspected && f.surveyed
      ensures old(file) == req.base && AllQuiet(meanwhile) ==>
        (ok <==> AdmissibleNow(old(State()), req, webhookReady, f.readable) && f.inspected && f.surveyed)
      ensures AllQuiet(meanwhile) ==> FileUntouched()
    {
      created := [];
      ok := Admit(req, webhookReady, f.readable);
      if ok {
        ok := InspectFile(req, f.inspected, meanwhile(0));
      }
      if ok {
        ok, created := Survey(req, f.surveyed, meanwhile(1));
      }
    }

    /** activate. Whatever fails and whatever else happens meanwhile, it is a run of the protocol that
        ends idle, with the new snapshot current if it committed and the old one otherwise; so every
        promise of the protocol holds on every exit. It commits only what is admissible and only if no
        statement up to the rename failed; and then it does commit, if the file is the one the request
        was based on, nobody edits it meanwhile, and every journal has a position to start from. Unless
        someone else edits it the file then holds the new text, and without a commit what it held. */
    method Activate(req: Request, webhookReady: string -> bool, f: Outcomes,
                    meanwhile: nat -> nat -> seq<Step>) returns (committed: bool)
      requires Follows() && pc == Idle && SysOk(env, origin)
      requires forall m: nat, n: nat :: AllOutside(meanwhile(m)(n))
      modifies this
      ensures Follows() && origin == old(origin) && old(trace) <= trace && pc == Idle
      ensures current == if committed then Some(req.text) else old(current)
      ensures committed ==> AdmissibleNow(old(State()), req, webhookReady, f.readable) && Favours(f, SourcesOf(env, req.text))
      ensures old(file) == req.base && Undisturbed(meanwhile) && HasTails(f, SourcesOf(env, req.text)) ==>
        (committed <==> AdmissibleNow(old(State()), req, webhookReady, f.readable) && Favours(f, SourcesOf(env, req.text)))
      ensures SysOk(env, State())
      ensures (!past.edited ==> file == TextOf(current)) && running == Jobs(env, current)
      ensures Undisturbed(meanwhile) ==>
        if committed then file == req.text && !past.edited else FileUntouched()
      ensures Undisturbed(meanwhile) && !old(past.edited) ==> file == TextOf(current)
    {
      committed := false;
      var ok, created := Propose(req, webhookReady, f, meanwhile(4));
      if ok {
        committed := Attempted(req, created, f, meanwhile);
        if committed {
          Commit(req, created, f.finished, meanwhile(5));
        } else {
          CleanUp(created, f.cleaned, meanwhile(6));
        }
      }
      EveryRunKeeps(env, origin, trace);
    }

    // ---- Startup ----

    /** The file is startup authority; the durable stop is read before anything can run. */
    method ReadAtStartup(ok: bool) returns (text: Option<string>, idle: bool)
      requires Follows() && pc == Dead
      modifies this`blocked, this`pc, this`past, this`trace
      ensures Follows() && old(trace) <= trace
      ensures text.Some? ==> text.value == file && pc == Booting(file, 0) && !idle && !past.edited
      ensures text.None? ==> if idle then pc == Idle && file == "" && !past.edited else pc == Dead
      ensures text.Some? <==> ok && file != "" && env.parse(file).Some?
      ensures idle <==> ok && file == ""
    {
      ghost var before := State();
      text, idle := None, false;
      if ok && (file == "" || env.parse(file).Some?) {
        blocked := gate;
        past := past.(edited := false);
        if file == "" {
          idle := true;
          pc := Idle;
        } else {
          text := Some(file);
          pc := Booting(file, 0);
        }
      }
      Note(Next(ok, "", false), before);
    }

    method BootSource(text: string, k: nat, prepared: bool, tail: string, landed: bool,
                      meanwhile: seq<Step>) returns (ok: bool)
      requires Follows() && pc == Booting(text, k) && k < |SourcesOf(env, text)| && AllOutside(meanwhile)
      modifies this
      ensures Follows() && origin == old(origin) && old(trace) <= trace
      ensures pc == if ok then Booting(text, k + 1) else Dead
      ensures ok ==> prepared && Possible(SourcesOf(env, text)[k])
      ensures prepared && Possible(SourcesOf(env, text)[k]) && Starts(SourcesOf(env, text)[k], tail) ==> ok
      ensures Quiet(meanwhile) ==> FileUntouched()
    {
      Meanwhile(meanwhile);
      ok := BootCheckpoint(text, k, prepared, tail, landed);
    }

    method BootCheckpoint(text: string, k: nat, prepared: bool, tail: string, landed: bool) returns (ok: bool)
      requires Follows() && pc == Booting(text, k) && k < |SourcesOf(env, text)|
      modifies this`cursors, this`current, this`running, this`pc, this`past, this`trace
      ensures Follows() && old(trace) <= trace && FileUntouched()
      ensures pc == if ok then Booting(text, k + 1) else Dead
      ensures ok ==> prepared && Possible(SourcesOf(env, text)[k])
      ensures prepared && Possible(SourcesOf(env, text)[k]) && Starts(SourcesOf(env, text)[k], tail) ==> ok
    {
      ghost var before := State();
      var s := SourcesOf(env, text)[k];
      ok := PreparedOk(s, cursors, prepared, tail);
      cursors := Checkpoint(s, cursors, prepared, tail, landed);
      if ok {
        pc := Booting(text, k + 1);
      } else {
        Fall();
      }
      Note(Next(prepared, tail, landed), before);
    }

    /** The process exits. */
    method Fall()
      modifies this`current, this`running, this`pc, this`past
      ensures State() == Down(old(State()))
    {
      current, running := None, [];
      pc, past := Dead, past.(held := {});
    }

    method BootRevision(text: string, retained: bool, landed: bool) returns (ok: bool)
      requires Follows() && pc.Booting? && pc.text == text && pc.next >= |SourcesOf(env, text)|
      modifies this`revisions, this`current, this`running, this`pc, this`past, this`trace
      ensures Follows() && old(trace) <= trace && FileUntouched()
      ensures if ok then pc == Booted(text) && current == Some(text) else pc == Dead
      ensures ok == retained
    {
      ghost var before := State();
      ok := retained;
      if ok || landed {
        revisions := Retain(revisions, text, Active);
      }
      if ok {
        current := Some(text);
        past := past.(held := {text});
        pc := Booted(text);
      } else {
        Fall();
      }
      Note(Next(retained, "", landed), before);
    }

    method Serve(text: string, bound: bool) returns (ok: bool)
      requires Follows() && pc == Booted(text) && current == Some(text)
      modifies this`current, this`running, this`pc, this`past, this`trace
      ensures Follows() && old(trace) <= trace && FileUntouched()
      ensures if ok then pc == Idle && current == Some(text) else pc == Dead
      ensures ok == bound
    {
      ghost var before := State();
      ok := bound;
      if ok {
        StartSources();
        pc := Idle;
      } else {
        Fall();
      }
      Note(Next(bound, "", false), before);
    }

    /** Recording the revision, binding the listeners and starting the pollers. */
    method BringUp(text: string, f: Outcomes, early: seq<Step>, late: seq<Step>) returns (up: bool)
      requires Follows() && pc.Booting? && pc.text == text && pc.next >= |SourcesOf(env, text)|
      requires AllOutside(early) && AllOutside(late)
      modifies this
      ensures Follows() && origin == old(origin) && old(trace) <= trace
      ensures if up then pc == Idle && current == Some(text) else pc == Dead
      ensures up == (f.retained && f.finished)
      ensures Quiet(early) && Quiet(late) ==> FileUntouched()
    {
      Meanwhile(early);
      up := BootRevision(text, f.retained, f.retainLanded);
      if up {
        Meanwhile(late);
        up := Serve(text, f.finished);
      }
    }

    /** The text decodes, and no statement of a startup from it failed. */
    ghost predicate Comes(f: Outcomes, text: string) {
      env.parse(text).Some? && PreparesWell(f, SourcesOf(env, text), |SourcesOf(env, text)|) && f.retained && f.finished
    }

    /** Startup of a managed process, with anything else happening between its statements. It comes up
        with the text the file held when it was read as its snapshot, or not at all: at all only if that
        text is absent or decodes and no statement fails, and then always, if every journal has a position
        to start from. Either way it leaves the file alone. */
    method Boot(f: Outcomes, meanwhile: nat -> seq<Step>) returns (up: bool)
      requires Follows() && pc == Dead && SysOk(env, origin) && forall n: nat :: AllOutside(meanwhile(n))
      modifies this
      ensures Follows() && origin == old(origin) && old(trace) <= trace
      ensures pc == if up then Idle else Dead
      ensures up ==> TextOf(current) == old(file) && running == Jobs(env, current)
      ensures up ==> f.readable && (old(file) == "" || Comes(f, old(file)))
      ensures f.readable && (old(file) == "" || (Comes(f, old(file)) && HasTails(f, SourcesOf(env, old(file))))) ==> up
      ensures AllQuiet(meanwhile) ==> file == old(file) && (up ==> !past.edited)
      ensures up && !past.edited ==> file == TextOf(current)
      ensures SysOk(env, State())
    {
      var text, idle := ReadAtStartup(f.readable);
      up := idle;
      if text.Some? {
        up := BootFrom(text.value, f, meanwhile);
      }
      EveryRunKeeps(env, origin, trace);
    }

    method BootSources(text: string, f: Outcomes, meanwhile: nat -> seq<Step>) returns (ok: bool)
      requires Follows() && pc == Booting(text, 0) && forall n: nat :: AllOutside(meanwhile(n))
      modifies this
      ensures Follows() && origin == old(origin) && old(trace) <= trace
      ensures pc == if ok then Booting(text, |SourcesOf(env, text)|) else Dead
      ensures var sources := SourcesOf(env, text);
        && (ok ==> PreparesWell(f, sources, |sources|))
        && (PreparesWell(f, sources, |sources|) && HasTails(f, sources) ==> ok)
      ensures AllQuiet(meanwhile) ==> FileUntouched()
    {
      var sources := SourcesOf(env, text);
      ok := true;
      for k := 0 to |sources|
        invariant Follows() && origin == old(origin) && old(trace) <= trace && pc == Booting(text, k)
        invariant PreparesWell(f, sources, k)
        invariant AllQuiet(meanwhile) ==> FileUntouched()
      {
        PreparesMore(f, sources, k);
        assert AllQuiet(meanwhile) ==> Quiet(meanwhile(k));
        ok := BootSource(text, k, f.prepared(k), f.tail(k), f.landed(k), meanwhile(k));
        if !ok {
          return;
        }
      }
      ok := true;
    }

    method BootFrom(text: string, f: Outcomes, meanwhile: nat -> seq<Step>) returns (up: bool)
      requires Follows() && pc == Booting(text, 0) && forall n: nat :: AllOutside(meanwhile(n))
      modifies this
      ensures Follows() && origin == old(origin) && old(trace) <= trace
      ensures if up then pc == Idle && current == Some(text) else pc == Dead
      ensures var sources := SourcesOf(env, text);
        && (up ==> PreparesWell(f, sources, |sources|) && f.retained && f.finished)
        && (PreparesWell(f, sources, |sources|) && HasTails(f, sources) && f.retained && f.finished ==> up)
      ensures AllQuiet(meanwhile) ==> FileUntouched()
    {
      var n := |SourcesOf(env, text)|;
      up := BootSources(text, f, meanwhile);
      if up {
        assert AllQuiet(meanwhile) ==> Quiet(meanwhile(n)) && Quiet(meanwhile(n + 1));
        up := BringUp(text, f, meanwhile(n), meanwhile(n + 1));
      }
    }
  }
}
