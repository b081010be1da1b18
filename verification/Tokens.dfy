/** Saving a rotated sign-in before using it (internal/superhuman/store.go:113-201). */
module Tokens {
  import opened Domain

  /** bearer: the token type is "Bearer" up to case. */
  datatype Grant = Grant(access: string, refresh: string, expiry: Option<int>, bearer: bool)

  /** What write accepts. The record's other parts never change after they were validated on load. */
  predicate Writable(g: Grant) {
    g.access != "" && g.refresh != "" && g.expiry.Some? && g.bearer
  }

  /** The comparison that decides whether a grant changed; it does not look at the token type. */
  predicate SameGrant(a: Grant, b: Grant) {
    a.access == b.access && a.refresh == b.refresh && a.expiry == b.expiry
  }

  /** The file, and what a power loss may put back in its place because a rename was never synced. */
  datatype Disk = Disk(saved: Grant, fallbacks: set<Grant>)

  /** A save fails before its rename, after it, or not at all. */
  datatype Fault = NotRenamed | NotSynced | NoFault

  function Write(d: Disk, g: Grant, fault: Fault): (Disk, bool) {
    if !Writable(g) || fault == NotRenamed then (d, false)
    else if fault == NotSynced then (Disk(g, d.fallbacks + {d.saved}), false)
    else (Disk(g, {}), true)
  }

  /** The authorization server's answer; an omitted refresh token means the old one stays good. */
  datatype Reply = RefreshFails | Refreshed(grant: Grant)

  function Renewed(held: Grant, g: Grant): Grant {
    if g.refresh == "" then g.(refresh := held.refresh) else g
  }

  /** One call's surroundings: the clock, the server, and the two saves it may attempt. */
  datatype Inputs = Inputs(expired: bool, reply: Reply, pending: Fault, renewal: Fault)

  datatype Session = Session(record: Grant, dirty: bool)

  datatype Outcome = Outcome(session: Session, disk: Disk, token: Option<Grant>, presented: Option<string>)

  function TokenResult(s: Session, d: Disk, x: Inputs): Outcome {
    var (d1, flushed) := if s.dirty then Write(d, s.record, x.pending) else (d, true);
    if !flushed then Outcome(s, d1, None, None)
    else if !x.expired && s.record.access != "" then Outcome(Session(s.record, false), d1, Some(s.record), None)
    else
      match x.reply
      case RefreshFails => Outcome(Session(s.record, false), d1, None, Some(s.record.refresh))
      case Refreshed(g) =>
        var token := Renewed(s.record, g);
        if SameGrant(token, s.record) then Outcome(Session(s.record, false), d1, Some(token), Some(s.record.refresh))
        else
          var (d2, saved) := Write(d1, token, x.renewal);
          Outcome(Session(token, !saved), d2, if saved then Some(token) else None, Some(s.record.refresh))
  }

  /** A saved grant that has not expired is handed out as it is: nothing is written and the server is not
      asked. */
  lemma FreshGrantIsReused(s: Session, d: Disk, x: Inputs)
    requires !s.dirty && !x.expired && s.record.access != ""
    ensures TokenResult(s, d, x) == Outcome(s, d, Some(s.record), None)
  {
  }

  /** Otherwise the held refresh token goes out. A refresh that fails yields no token and changes nothing. */
  lemma FailedRefreshYieldsNothing(s: Session, d: Disk, x: Inputs)
    requires !s.dirty && (x.expired || s.record.access == "") && x.reply.RefreshFails?
    ensures TokenResult(s, d, x) == Outcome(s, d, None, Some(s.record.refresh))
  {
  }

  /** One that succeeds hands out the new grant exactly when it brings nothing new or could be saved whole:
      with an access token, a refresh token, an expiry and the bearer type, and no fault. One that could
      not be saved is held instead, and a rename that was not synced leaves what it replaced recoverable. */
  lemma RenewalIsSaved(s: Session, d: Disk, x: Inputs)
    requires !s.dirty && (x.expired || s.record.access == "") && x.reply.Refreshed?
    ensures var g := x.reply.grant;
      var token := Grant(g.access, if g.refresh == "" then s.record.refresh else g.refresh, g.expiry, g.bearer);
      var whole := g.access != "" && token.refresh != "" && g.expiry.Some? && g.bearer;
      TokenResult(s, d, x)
      == if token == s.record.(bearer := g.bearer) then Outcome(s, d, Some(token), Some(s.record.refresh))
         else if whole && x.renewal == NoFault
         then Outcome(Session(token, false), Disk(token, {}), Some(token), Some(s.record.refresh))
         else Outcome(Session(token, true),
                      if whole && x.renewal == NotSynced then Disk(token, d.fallbacks + {d.saved}) else d,
                      None, Some(s.record.refresh))
  {
  }

  /** An unsaved grant is saved before anything else; once it is, the call goes on as with a saved one. */
  lemma UnsavedIsSavedFirst(s: Session, d: Disk, x: Inputs)
    requires s.dirty && x.pending == NoFault
    requires s.record.access != "" && s.record.refresh != "" && s.record.expiry.Some? && s.record.bearer
    ensures TokenResult(s, d, x) == TokenResult(Session(s.record, false), Disk(s.record, {}), x)
  {
  }

  // ---- The store and the token source as written ----

  class CredentialStore {
    var saved: Grant
    ghost var fallbacks: set<Grant>

    constructor (g: Grant)
      ensures State() == Disk(g, {})
    {
      saved, fallbacks := g, {};
    }

    ghost function State(): Disk
      reads this
    {
      Disk(saved, fallbacks)
    }

    method Save(g: Grant, fault: Fault) returns (ok: bool)
      modifies this
      ensures (State(), ok) == Write(old(State()), g, fault)
    {
      if !Writable(g) || fault == NotRenamed {
        return false;
      }
      fallbacks := if fault == NotSynced then fallbacks + {saved} else {};
      saved := g;
      ok := fault == NoFault;
    }
  }

  class PersistingTokens {
    const store: CredentialStore
    var record: Grant
    var dirty: bool

    /** A new process starts from the file. */
    constructor (store: CredentialStore)
      ensures this.store == store && State() == Session(store.saved, false)
    {
      this.store := store;
      record, dirty := store.saved, false;
    }

    ghost function State(): Session
      reads this
    {
      Session(record, dirty)
    }

    method Token(x: Inputs) returns (token: Option<Grant>, ghost presented: Option<string>)
      modifies this, store
      ensures Outcome(State(), store.State(), token, presented) == TokenResult(old(State()), old(store.State()), x)
    {
      presented := None;
      if dirty {
        var flushed := store.Save(record, x.pending);
        if !flushed {
          return None, None;
        }
        dirty := false;
      }
      if !x.expired && record.access != "" {
        return Some(record), None;
      }
      presented := Some(record.refresh);
      if x.reply.RefreshFails? {
        return None, presented;
      }
      var renewed := Renewed(record, x.reply.grant);
      if !SameGrant(renewed, record) {
        record, dirty := renewed, true;
        var saved := store.Save(record, x.renewal);
        if !saved {
          return None, presented;
        }
        dirty := false;
      }
      return Some(renewed), presented;
    }
  }

  // ---- Every run of calls and crashes ----

  /** memory is absent while no process holds the grant. retired: refresh tokens the server has replaced.
      lost: some process died before the replacement it held in memory was saved. */
  datatype Life = Life(disk: Disk, memory: Option<Session>, retired: set<string>, lost: bool)

  /** restore: a power loss that undoes unsynced renames back to this grant. */
  datatype Step = Open | Call(inputs: Inputs) | Crash(restore: Option<Grant>)

  /** What the file may hold after a power loss. */
  function Recoverable(d: Disk): set<Grant> { d.fallbacks + {d.saved} }

  /** The server never hands out a refresh token again once it has replaced it. */
  ghost predicate Legal(life: Life, a: Step) {
    match a
    case Open => life.memory.None?
    case Call(x) =>
      && life.memory.Some?
      && (x.reply.Refreshed? ==> Renewed(life.memory.value.record, x.reply.grant).refresh !in life.retired)
    case Crash(restore) => restore.Some? ==> restore.value in Recoverable(life.disk)
  }

  function Retire(retired: set<string>, s: Session, o: Outcome): set<string> {
    if o.presented.Some? && o.session.record.refresh != s.record.refresh then retired + {s.record.refresh} else retired
  }

  function Apply(life: Life, a: Step): Life {
    match a
    case Open => if life.memory.Some? then life else life.(memory := Some(Session(life.disk.saved, false)))
    case Call(x) =>
      if life.memory.None? then life
      else
        var o := TokenResult(life.memory.value, life.disk, x);
        Life(o.disk, Some(o.session), Retire(life.retired, life.memory.value, o), life.lost)
    case Crash(restore) =>
      Life(match restore case None => life.disk case Some(g) => Disk(g, {}), None, life.retired,
           life.lost || (life.memory.Some? && life.memory.value.dirty))
  }

  /** A grant held clean is the one on disk, and while nothing was lost no process holds, or can load, a
      refresh token the server has replaced. */
  ghost predicate LifeOk(life: Life) {
    && (life.memory.Some? && !life.memory.value.dirty ==> SameGrant(life.memory.value.record, life.disk.saved))
    && (!life.lost ==>
          && (life.memory.Some? ==> life.memory.value.record.refresh !in life.retired)
          && (life.memory.None? || !life.memory.value.dirty ==> life.disk.saved.refresh !in life.retired && life.disk.fallbacks == {}))
  }

  lemma StepKeeps(life: Life, a: Step)
    requires LifeOk(life) && Legal(life, a)
    ensures LifeOk(Apply(life, a))
  {
  }

  /** However many saves follow each other and fail, before or after their renames, the file holds, and a
      power loss can bring back, only a whole grant: one that could come back before or one of those
      saved since. After a save that reported success it is the grant saved, and nothing else can come
      back; it succeeds exactly for a writable grant that met no fault. */
  lemma {:induction false} SavesAreAtomic(d: Disk, saves: seq<(Grant, Fault)>)
    ensures Recoverable(Saves(d, saves)) <= Recoverable(d) + set w | w in saves :: w.0
    ensures saves != [] ==>
      var (g, fault) := saves[|saves| - 1];
      var (before, after) := (Saves(d, saves[..|saves| - 1]), Saves(d, saves));
      && (Write(before, g, fault).1 <==> Writable(g) && fault == NoFault)
      && (Write(before, g, fault).1 ==> Recoverable(after) == {g})
      && (!Write(before, g, fault).1 ==> after == before || (after.saved == g && before.saved in after.fallbacks))
    decreases |saves|
  {
    if saves != [] {
      var init, last := saves[..|saves| - 1], saves[|saves| - 1];
      SavesAreAtomic(d, init);
      assert last in saves && forall w | w in init :: w in saves;
      assert Recoverable(Saves(d, saves)) <= Recoverable(Saves(d, init)) + {last.0};
    }
  }

  function Saves(d: Disk, saves: seq<(Grant, Fault)>): Disk
    decreases |saves|
  {
    if saves == [] then d
    else Write(Saves(d, saves[..|saves| - 1]), saves[|saves| - 1].0, saves[|saves| - 1].1).0
  }

  /** A caller is only ever given a token whose grant the file holds; if this call had anything to save,
      the save is past undoing. */
  lemma TokensAreSavedFirst(life: Life, x: Inputs)
    requires LifeOk(life) && life.memory.Some?
    ensures var o := TokenResult(life.memory.value, life.disk, x);
      o.token.Some? ==>
        && o.token.value.access == o.disk.saved.access && o.token.value.refresh == o.disk.saved.refresh
        && o.token.value.expiry == o.disk.saved.expiry
        && !o.session.dirty
        && (life.memory.value.dirty || !SameGrant(o.token.value, life.memory.value.record) ==> o.disk.fallbacks == {})
  {
  }

  /** A renewal that brings no refresh token keeps the old one; one that brings another replaces it. */
  lemma OmittedRefreshIsKept(s: Session, d: Disk, x: Inputs)
    requires x.reply.Refreshed?
    ensures var o := TokenResult(s, d, x);
      o.presented.Some? ==>
        && o.presented.value == s.record.refresh
        && o.session.record.refresh == if x.reply.grant.refresh == "" then s.record.refresh else x.reply.grant.refresh
  {
  }

  /** A grant that could not be saved is kept, and not used: until a save succeeds no token is handed
      out and the server is not asked again. */
  lemma UnsavedIsKept(s: Session, d: Disk, x: Inputs)
    requires s.dirty && (x.pending != NoFault || !Writable(s.record))
    ensures var o := TokenResult(s, d, x); o.session == s && o.token == None && o.presented == None
  {
  }

  function Run(life: Life, steps: seq<Step>): Life
    decreases |steps|
  {
    if steps == [] then life else Run(Apply(life, steps[0]), steps[1..])
  }

  ghost predicate AllLegal(life: Life, steps: seq<Step>)
    decreases |steps|
  {
    steps != [] ==> Legal(life, steps[0]) && AllLegal(Apply(life, steps[0]), steps[1..])
  }

  lemma {:induction false} EveryRunKeeps(life: Life, steps: seq<Step>)
    requires LifeOk(life) && AllLegal(life, steps)
    ensures LifeOk(Run(life, steps))
    decreases |steps|
  {
    if steps != [] {
      StepKeeps(life, steps[0]);
      EveryRunKeeps(Apply(life, steps[0]), steps[1..]);
    }
  }

  function SignedIn(g: Grant): Life { Life(Disk(g, {}), None, {}, false) }

  /** After any run of calls, failed saves and crashes from a sign-in: a replaced refresh token is
      presented only if some process died before its replacement was saved. */
  lemma RetiredIsNeverPresented(g: Grant, steps: seq<Step>, x: Inputs)
    requires AllLegal(SignedIn(g), steps) && Run(SignedIn(g), steps).memory.Some?
    ensures var life := Run(SignedIn(g), steps);
      var o := TokenResult(life.memory.value, life.disk, x);
      o.presented.Some? && o.presented.value in life.retired ==> life.lost
  {
    EveryRunKeeps(SignedIn(g), steps);
  }

  /** And nothing is lost but by a death that found a grant unsaved. */
  lemma LossNeedsADeath(g: Grant, steps: seq<Step>)
    ensures Run(SignedIn(g), steps).lost ==> exists i | 0 <= i < |steps| ::
      DiesUnsaved(Run(SignedIn(g), steps[..i]), steps[i])
  {
    LostOnTheWay(SignedIn(g), steps);
  }

  ghost predicate DiesUnsaved(life: Life, a: Step) {
    a.Crash? && match life.memory case Some(session) => session.dirty case None => false
  }

  lemma {:induction false} LostOnTheWay(life: Life, steps: seq<Step>)
    requires !life.lost
    ensures Run(life, steps).lost ==> exists i | 0 <= i < |steps| :: DiesUnsaved(Run(life, steps[..i]), steps[i])
    decreases |steps|
  {
    if steps != [] {
      var next := Apply(life, steps[0]);
      if next.lost {
        assert steps[..0] == [];
        assert DiesUnsaved(Run(life, steps[..0]), steps[0]);
      } else {
        LostOnTheWay(next, steps[1..]);
        forall i | 0 <= i < |steps| - 1 ensures Run(life, steps[..i + 1]) == Run(next, steps[1..][..i]) {
          assert steps[..i + 1][1..] == steps[1..][..i];
        }
        if Run(next, steps[1..]).lost {
          var i :| 0 <= i < |steps| - 1 && DiesUnsaved(Run(next, steps[1..][..i]), steps[1..][i]);
          assert DiesUnsaved(Run(life, steps[..i + 1]), steps[i + 1]);
        }
      }
    }
  }

  /** That window is real: rotation, a failed save, death, and the old refresh token goes out again. */
  lemma CrashWindow(g: Grant, g': Grant)
    requires g.refresh != g'.refresh && g'.refresh != ""
    ensures var rotate := Inputs(true, Refreshed(g'), NoFault, NotRenamed);
      var steps := [Open, Call(rotate), Crash(None), Open];
      AllLegal(SignedIn(g), steps)
      && var life := Run(SignedIn(g), steps);
         life.memory.Some? && life.lost
         && TokenResult(life.memory.value, life.disk, rotate).presented == Some(g.refresh) && g.refresh in life.retired
  {
    var rotate := Inputs(true, Refreshed(g'), NoFault, NotRenamed);
    var l0 := SignedIn(g);
    var l1 := Apply(l0, Open);
    var l2 := Apply(l1, Call(rotate));
    var l3 := Apply(l2, Crash(None));
    assert Run(l0, [Open, Call(rotate), Crash(None), Open]) == Run(l1, [Call(rotate), Crash(None), Open]);
    assert Run(l1, [Call(rotate), Crash(None), Open]) == Run(l2, [Crash(None), Open]);
    assert Run(l2, [Crash(None), Open]) == Run(l3, [Open]) == Run(Apply(l3, Open), []);
    assert AllLegal(Apply(l3, Open), []);
    assert AllLegal(l3, [Open]) && AllLegal(l2, [Crash(None), Open]) && AllLegal(l1, [Call(rotate), Crash(None), Open]);
  }
}
