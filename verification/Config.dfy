/** Configuration, its validator, and how it is turned into a running pipeline
    (internal/config/config.go, cmd/mrmr/managed.go:264-267, internal/runtime/runtime.go:172-181).
    The syntax of URLs, loopback addresses, environment names and unit names is a parameter, and so is
    whether a policy encodes as JSON. */
module Configuration {
  import opened Domain
  import opened Interpretations
  import opened PolicyRules

  datatype Syntax = Syntax(httpUrl: string -> bool, envName: string -> bool, unitName: string -> bool,
                           literalType: string -> bool, capability: string -> bool, loopback: string -> bool,
                           encodable: Policy -> bool)

  datatype Agent = Agent(endpoint: string, timeout: int, model: string, capabilities: seq<string>, readOnly: bool)

  datatype SourceKind = HttpPoller | SystemdJournal | OtherSource(name: string)
  datatype Source = Source(name: string, paused: bool, kind: SourceKind, url: string, every: int,
                           bearerEnv: string, itemPath: string, cursorField: string, subjectField: string,
                           timestampField: string, eventType: string, scope: string,
                           units: seq<string>, priority: string)

  datatype Monitor = Monitor(interpret: Interpretation, policy: Policy)

  /** One line of the pre-model filter (internal/filter/filter.go:44-135). */
  datatype FilterSpec = FilterSpec(field: string, op: string, value: Value)

  datatype Config = Config(server: string, dashboardAddr: string, dashboardHost: string, db: string,
                           filter: seq<FilterSpec>, models: map<string, ModelConfig>, interpret: Interpretation,
                           interpretByType: map<string, Interpretation>,
                           policy: Policy, agents: map<string, Agent>, sources: seq<Source>,
                           monitors: map<string, Monitor>)

  const SECOND: int := 1000

  const PRIORITIES := ["emerg", "alert", "crit", "err", "warning", "notice", "info", "debug"]

  /** Syslog numbering: smaller is more severe. */
  function JournalPriority(name: string): (r: Option<nat>)
    ensures r.Some? ==> r.value < |PRIORITIES| && PRIORITIES[r.value] == name
    ensures r.None? ==> name !in PRIORITIES
  {
    PriorityFrom(name, 0)
  }

  function PriorityFrom(name: string, from: nat): (r: Option<nat>)
    requires from <= |PRIORITIES|
    ensures r.Some? ==> from <= r.value < |PRIORITIES| && PRIORITIES[r.value] == name
    ensures r.None? ==> name !in PRIORITIES[from..]
    decreases |PRIORITIES| - from
  {
    if from == |PRIORITIES| then None
    else if PRIORITIES[from] == name then Some(from)
    else PriorityFrom(name, from + 1)
  }

  /** Syslog's own numbers for the eight names. */
  lemma PriorityNumbers()
    ensures JournalPriority("emerg") == Some(0) && JournalPriority("alert") == Some(1)
    ensures JournalPriority("crit") == Some(2) && JournalPriority("err") == Some(3)
    ensures JournalPriority("warning") == Some(4) && JournalPriority("notice") == Some(5)
    ensures JournalPriority("info") == Some(6) && JournalPriority("debug") == Some(7)
    ensures forall name :: JournalPriority(name).Some? <==>
      name in ["emerg", "alert", "crit", "err", "warning", "notice", "info", "debug"]
  {
    PriorityIs(0);
    PriorityIs(1);
    PriorityIs(2);
    PriorityIs(3);
    PriorityIs(4);
    PriorityIs(5);
    PriorityIs(6);
    PriorityIs(7);
  }

  lemma PriorityIs(k: nat)
    requires k < |PRIORITIES|
    ensures JournalPriority(PRIORITIES[k]) == Some(k)
  {
    var r := JournalPriority(PRIORITIES[k]);
    assert r.Some? && PRIORITIES[r.value] == PRIORITIES[k];
  }

  // ---- What a valid configuration is ----

  predicate LowerAlphanumeric(c: char) { 'a' <= c <= 'z' || '0' <= c <= '9' }

  /** A lowercase DNS label. */
  predicate LabelOk(part: string) {
    && 1 <= |part| <= 63
    && LowerAlphanumeric(part[0]) && LowerAlphanumeric(part[|part| - 1])
    && forall c | c in part :: LowerAlphanumeric(c) || c == '-'
  }

  predicate HostOk(host: string) {
    1 <= |host| <= 253 && forall part | part in Split(host, '.') :: LabelOk(part)
  }

  /** The read-only listener is off, or has both a loopback address and an exact host name. */
  predicate DashboardOk(addr: string, host: string, sx: Syntax) {
    (addr == "" && host == "") || (sx.loopback(addr) && HostOk(host))
  }

  const SCALAR_ROOTS := {"type", "source", "subject"}
  const MAP_ROOTS := {"data", "metadata"}

  /** A path that addresses something a filter can compare, with or without a leading "event.". */
  predicate PathOk(field: string) {
    var parts := Split(if "event." <= field then field[6..] else field, '.');
    && field != "" && "" !in parts
    && (if |parts| == 1 then parts[0] in SCALAR_ROOTS else parts[0] in MAP_ROOTS)
  }

  predicate FilterOk(f: FilterSpec) {
    && PathOk(f.field) && f.op in {"", "eq", "neq"}
    && (f.value.Text? || f.value.Bool? || f.value.Number? || f.value.Literal?)
  }

  predicate RoleOk(m: ModelConfig, sx: Syntax) {
    && !m.role.OtherRole?
    && (m.role == AgentRole ==> m.provider == OpenAICompatible && sx.httpUrl(m.baseUrl) && m.model != "")
  }

  predicate FieldOk(f: Field) {
    && !f.kind.OtherField?
    && (f.kind != NumberField ==> f.minimum.None? && f.maximum.None?)
    && (f.minimum.Some? && f.maximum.Some? ==> f.minimum.value <= f.maximum.value)
  }

  predicate InterpretationOk(models: map<string, ModelConfig>, spec: Interpretation) {
    && spec.model != "" && spec.model in models
    && var m := models[spec.model];
       && m.role != AgentRole
       && m.baseUrl != ""
       && match m.provider
          case OpenAICompatible =>
            if spec.questions != map[] then spec.prompt == "" && spec.schema == map[] && ValidQuestions(spec.questions)
            else spec.prompt != "" && spec.schema != map[] && forall name | name in spec.schema ::
              FieldOk(spec.schema[name])
          case OtherProvider(_) => false
          case _ =>
            && (m.provider == TypeSafe ==> m.apiKeyEnv != "")
            && spec.prompt == "" && spec.schema == map[] && ValidQuestions(spec.questions)
  }

  /** How many of the mutually exclusive outcomes are set. */
  function CountSet(t: Then): nat {
    (if t.notify.Some? then 1 else 0) + (if t.action.Some? then 1 else 0)
    + (if t.delegate.Some? then 1 else 0) + (if t.ignore then 1 else 0)
  }

  predicate NotifyOk(n: Notify, sx: Syntax) {
    match n.via
    case Stdout => n.webhookEnv == ""
    case Discord => sx.envName(n.webhookEnv)
    case OtherVia(_) => false
  }

  predicate ActionOk(a: Action, sx: Syntax) {
    match a.kind
    case Http => a.url != "" && sx.httpUrl(a.url)
    case Emit => a.eventType != ""
    case OtherAction(_) => false
  }

  predicate DelegateOk(d: Delegate, agents: map<string, Agent>, sx: Syntax) {
    && (d.completionEventType != "" ==> d.emitCompletion)
    && sx.literalType(d.completionEventType)
    && d.agent != "" && d.agent in agents
  }

  predicate ThenOk(t: Then, agents: map<string, Agent>, sx: Syntax) {
    && CountSet(t) <= 1
    && (t.notify.Some? ==> NotifyOk(t.notify.value, sx))
    && (t.action.Some? ==> ActionOk(t.action.value, sx))
    && (t.delegate.Some? ==> DelegateOk(t.delegate.value, agents, sx))
    && (CountSet(t) == 0 ==> t.shadow)
  }

  predicate AgentOk(a: Agent, models: map<string, ModelConfig>, sx: Syntax) {
    && (a.timeout == 0 || SECOND <= a.timeout <= 300 * SECOND)
    && a.endpoint != "" && sx.httpUrl(a.endpoint)
    && (a.model != "" ==> a.model in models && models[a.model].role == AgentRole)
    && (forall name | name in a.capabilities :: sx.capability(name))
  }

  predicate UnitsOk(units: seq<string>, sx: Syntax) {
    && 1 <= |units| <= 32
    && (forall i | 0 <= i < |units| :: |units[i]| <= 255 && sx.unitName(units[i]))
    && (forall i, j | 0 <= i < j < |units| :: units[i] != units[j])
  }

  predicate SourceOk(s: Source, sx: Syntax) {
    && s.name != ""
    && (match s.kind
        case HttpPoller => s.url != "" && s.units == [] && s.priority == "" && s.scope == ""
        case SystemdJournal =>
          && (s.scope == "" || s.scope == "system" || s.scope == "user")
          && s.url == "" && s.bearerEnv == "" && s.itemPath == "" && s.cursorField == ""
          && s.subjectField == "" && s.timestampField == ""
          && UnitsOk(s.units, sx)
          && JournalPriority(s.priority).Some?
        case OtherSource(_) => false)
    && s.every >= SECOND
    && s.eventType != ""
  }

  predicate PolicyOk(p: Policy, agents: map<string, Agent>, sx: Syntax) {
    && (forall i | 0 <= i < |p.rules| :: p.rules[i].conds != map[] && ThenOk(p.rules[i].then_, agents, sx))
    && sx.encodable(p) && ThenOk(p.default, agents, sx)
  }

  predicate DistinctNames(sources: seq<Source>) {
    forall i, j | 0 <= i < j < |sources| :: sources[i].name != sources[j].name
  }

  predicate ModelsOk(models: map<string, ModelConfig>, sx: Syntax) {
    forall name | name in models :: RoleOk(models[name], sx)
  }

  predicate OverridesOk(byType: map<string, Interpretation>, models: map<string, ModelConfig>) {
    forall kind | kind in byType :: !Blank(kind) && InterpretationOk(models, byType[kind])
  }

  predicate FiltersOk(filter: seq<FilterSpec>) {
    forall i | 0 <= i < |filter| :: FilterOk(filter[i])
  }

  predicate AgentsOk(agents: map<string, Agent>, models: map<string, ModelConfig>, sx: Syntax) {
    forall name | name in agents :: AgentOk(agents[name], models, sx)
  }

  predicate SourcesOk(sources: seq<Source>, sx: Syntax) {
    DistinctNames(sources) && forall i | 0 <= i < |sources| :: SourceOk(sources[i], sx)
  }

  predicate Names(sources: seq<Source>, name: string) {
    exists i | 0 <= i < |sources| :: sources[i].name == name
  }

  predicate WatchesOk(monitors: map<string, Monitor>, sources: seq<Source>, models: map<string, ModelConfig>) {
    forall name | name in monitors :: Names(sources, name) && InterpretationOk(models, monitors[name].interpret)
  }

  predicate MonitorPoliciesOk(monitors: map<string, Monitor>, agents: map<string, Agent>, sx: Syntax) {
    forall name | name in monitors :: PolicyOk(monitors[name].policy, agents, sx)
  }

  predicate Valid(c: Config, sx: Syntax) {
    && DashboardOk(c.dashboardAddr, c.dashboardHost, sx)
    && ModelsOk(c.models, sx)
    && InterpretationOk(c.models, c.interpret)
    && OverridesOk(c.interpretByType, c.models)
    && FiltersOk(c.filter)
    && AgentsOk(c.agents, c.models, sx)
    && SourcesOk(c.sources, sx)
    && WatchesOk(c.monitors, c.sources, c.models)
    && PolicyOk(c.policy, c.agents, sx)
    && MonitorPoliciesOk(c.monitors, c.agents, sx)
  }

  // ---- The validator, with its counters and seen-sets ----

  method ValidateThen(t: Then, agents: map<string, Agent>, sx: Syntax) returns (ok: bool)
    ensures ok <==> ThenOk(t, agents, sx)
  {
    var chosenCount := 0;
    var chosen := [t.notify.Some?, t.action.Some?, t.delegate.Some?, t.ignore];
    for i := 0 to |chosen|
      invariant chosenCount == (if i > 0 && chosen[0] then 1 else 0) + (if i > 1 && chosen[1] then 1 else 0)
                      + (if i > 2 && chosen[2] then 1 else 0) + (if i > 3 && chosen[3] then 1 else 0)
    {
      if chosen[i] {
        chosenCount := chosenCount + 1;
      }
    }
    if chosenCount > 1 {
      return false;
    }
    if t.notify.Some? && !NotifyOk(t.notify.value, sx) {
      return false;
    }
    if t.action.Some? && !ActionOk(t.action.value, sx) {
      return false;
    }
    if t.delegate.Some? && !DelegateOk(t.delegate.value, agents, sx) {
      return false;
    }
    return chosenCount > 0 || t.shadow;
  }

  method ValidateDashboard(c: Config, sx: Syntax) returns (ok: bool)
    ensures ok <==> DashboardOk(c.dashboardAddr, c.dashboardHost, sx)
  {
    if c.dashboardAddr != "" || c.dashboardHost != "" {
      if !sx.loopback(c.dashboardAddr) || |c.dashboardHost| == 0 || |c.dashboardHost| > 253 {
        return false;
      }
      var labels := Split(c.dashboardHost, '.');
      for i := 0 to |labels|
        invariant forall j | 0 <= j < i :: LabelOk(labels[j])
      {
        if !LabelOk(labels[i]) {
          return false;
        }
      }
    }
    ok := true;
  }

  /** The checks of one path, in the order they are made. */
  method ValidatePath(field: string) returns (ok: bool)
    ensures ok <==> PathOk(field)
  {
    if field == "" {
      return false;
    }
    var path := if "event." <= field then field[6..] else field;
    var parts := Split(path, '.');
    for i := 0 to |parts|
      invariant "" !in parts[..i]
    {
      if parts[i] == "" {
        return false;
      }
      assert parts[..i + 1] == parts[..i] + [parts[i]];
    }
    assert parts[..|parts|] == parts;
    match parts[0] {
      case "type" => ok := |parts| == 1;
      case "source" => ok := |parts| == 1;
      case "subject" => ok := |parts| == 1;
      case "data" => ok := |parts| > 1;
      case "metadata" => ok := |parts| > 1;
      case _ => ok := false;
    }
  }

  method ValidateFilter(filter: seq<FilterSpec>) returns (ok: bool)
    ensures ok <==> FiltersOk(filter)
  {
    for i := 0 to |filter|
      invariant forall j | 0 <= j < i :: FilterOk(filter[j])
    {
      var f := filter[i];
      ok := ValidatePath(f.field);
      if !ok || f.op !in {"", "eq", "neq"} || !(f.value.Text? || f.value.Bool? || f.value.Number? || f.value.Literal?) {
        assert !FilterOk(filter[i]);
        return false;
      }
    }
    ok := true;
  }

  method ValidatePolicy(p: Policy, agents: map<string, Agent>, sx: Syntax) returns (ok: bool)
    ensures ok <==> PolicyOk(p, agents, sx)
  {
    for i := 0 to |p.rules|
      invariant forall j | 0 <= j < i :: p.rules[j].conds != map[] && ThenOk(p.rules[j].then_, agents, sx)
    {
      if p.rules[i].conds == map[] {
        return false;
      }
      ok := ValidateThen(p.rules[i].then_, agents, sx);
      if !ok {
        return;
      }
    }
    if !sx.encodable(p) {
      return false;
    }
    ok := ValidateThen(p.default, agents, sx);
  }

  method ValidateUnits(units: seq<string>, sx: Syntax) returns (ok: bool)
    ensures ok <==> UnitsOk(units, sx)
  {
    if |units| == 0 || |units| > 32 {
      return false;
    }
    var seen: set<string> := {};
    for i := 0 to |units|
      invariant seen == set u | u in units[..i]
      invariant forall j | 0 <= j < i :: |units[j]| <= 255 && sx.unitName(units[j])
      invariant forall j, k | 0 <= j < k < i :: units[j] != units[k]
    {
      if |units[i]| > 255 || !sx.unitName(units[i]) {
        return false;
      }
      if units[i] in seen {
        var j :| 0 <= j < i && units[..i][j] == units[i];
        assert units[j] == units[i];
        return false;
      }
      forall j | 0 <= j < i ensures units[j] != units[i] {
        assert units[..i][j] in seen;
      }
      seen := seen + {units[i]};
    }
    return true;
  }

  method ValidateSources(sources: seq<Source>, sx: Syntax) returns (ok: bool, seen: set<string>)
    ensures ok <==> SourcesOk(sources, sx)
    ensures ok ==> forall name :: name in seen <==> Names(sources, name)
  {
    seen := {};
    for i := 0 to |sources|
      invariant forall name :: name in seen <==> exists j | 0 <= j < i :: sources[j].name == name
      invariant forall j | 0 <= j < i :: SourceOk(sources[j], sx)
      invariant DistinctNames(sources[..i])
    {
      var s := sources[i];
      if s.name in seen {
        var j :| 0 <= j < i && sources[j].name == s.name;
        return false, seen;
      }
      var units := true;
      if s.kind == SystemdJournal {
        units := ValidateUnits(s.units, sx);
      }
      if !units || !SourceOk(s, sx) {
        return false, seen;
      }
      assert sources[..i + 1] == sources[..i] + [s];
      seen := seen + {s.name};
    }
    assert sources[..|sources|] == sources;
    return true, seen;
  }

  method Validate(c: Config, sx: Syntax) returns (ok: bool)
    ensures ok <==> Valid(c, sx)
  {
    ok := ValidateDashboard(c, sx);
    if !ok {
      return false;
    }
    if !(forall name | name in c.models :: RoleOk(c.models[name], sx)) {
      return false;
    }
    if !InterpretationOk(c.models, c.interpret) {
      return false;
    }
    if exists kind | kind in c.interpretByType ::
        Blank(kind) || !InterpretationOk(c.models, c.interpretByType[kind]) {
      return false;
    }
    ok := ValidateFilter(c.filter);
    if !ok {
      return false;
    }
    if !(forall name | name in c.agents :: AgentOk(c.agents[name], c.models, sx)) {
      return false;
    }
    var seen;
    ok, seen := ValidateSources(c.sources, sx);
    if !ok {
      return false;
    }
    if exists name | name in c.monitors ::
        name !in seen || !InterpretationOk(c.models, c.monitors[name].interpret) {
      return false;
    }
    ok := ValidatePolicy(c.policy, c.agents, sx);
    if ok {
      ok := ValidateMonitors(c.monitors, c.agents, sx);
    }
  }

  method ValidateMonitors(monitors: map<string, Monitor>, agents: map<string, Agent>, sx: Syntax) returns (ok: bool)
    ensures ok <==> MonitorPoliciesOk(monitors, agents, sx)
  {
    var rest := monitors.Keys;
    while rest != {}
      invariant rest <= monitors.Keys
      invariant forall name | name in monitors.Keys - rest :: PolicyOk(monitors[name].policy, agents, sx)
    {
      var name :| name in rest;
      ok := ValidatePolicy(monitors[name].policy, agents, sx);
      if !ok {
        return false;
      }
      rest := rest - {name};
    }
    return true;
  }

  // ---- Selection by event, as review and evaluation do it ----

  const ZERO_MODEL := ModelConfig(NoRole, OtherProvider(""), "", "", "")

  /** A missing map entry reads as the zero value. */
  function ModelNamed(models: map<string, ModelConfig>, name: string): ModelConfig {
    if name in models then models[name] else ZERO_MODEL
  }

  function InterpreterFor(c: Config, e: Event): Interpretation {
    if e.source in c.monitors then c.monitors[e.source].interpret
    else if e.kind in c.interpretByType then c.interpretByType[e.kind]
    else c.interpret
  }

  function PolicyFor(c: Config, e: Event): Policy {
    if e.source in c.monitors then c.monitors[e.source].policy else c.policy
  }

  // ---- The running pipeline built from a configuration ----

  datatype Runtime = Runtime(modelConfig: ModelConfig, modelKey: string, prompt: string, schema: Schema,
                             questions: Questions, policy: Policy, monitors: map<string, Monitor>,
                             interpretByType: map<string, Interpretation>, models: map<string, ModelConfig>,
                             agents: map<string, Agent>, revision: string)

  /** revision "" marks an unmanaged runtime, which records none. */
  function Snapshot(c: Config, revision: string): Runtime {
    Runtime(ModelNamed(c.models, c.interpret.model), c.interpret.model, c.interpret.prompt, c.interpret.schema,
            c.interpret.questions, c.policy, c.monitors, c.interpretByType, c.models, c.agents, revision)
  }

  datatype Route = Route(spec: Interpretation, model: ModelConfig, policy: Policy)

  /** Ingest's own selection: the runtime's fields first, then a monitor or a type override. */
  function SelectRoute(rt: Runtime, e: Event): Route {
    if e.source in rt.monitors then
      var m := rt.monitors[e.source];
      Route(m.interpret, ModelNamed(rt.models, m.interpret.model), m.policy)
    else if e.kind in rt.interpretByType then
      var spec := rt.interpretByType[e.kind];
      Route(spec, ModelNamed(rt.models, spec.model), rt.policy)
    else
      Route(Interpretation(rt.modelKey, rt.prompt, rt.schema, rt.questions), rt.modelConfig, rt.policy)
  }

  /** A monitor of the event's source decides both what is asked and by which policy; otherwise an override of
      its type decides what is asked, and the configuration's own policy judges. */
  lemma RouteOf(c: Config, revision: string, e: Event)
    ensures var r := SelectRoute(Snapshot(c, revision), e);
      && (e.source in c.monitors ==>
            r.spec == c.monitors[e.source].interpret && r.policy == c.monitors[e.source].policy)
      && (e.source !in c.monitors && e.kind in c.interpretByType ==>
            r.spec == c.interpretByType[e.kind] && r.policy == c.policy)
      && (e.source !in c.monitors && e.kind !in c.interpretByType ==> r.spec == c.interpret && r.policy == c.policy)
      && r.model == if r.spec.model in c.models then c.models[r.spec.model]
                    else ModelConfig(NoRole, OtherProvider(""), "", "", "")
  {
  }

  /** Every policy a runtime can select, including those of monitors whose source is paused. */
  ghost predicate Selectable(rt: Runtime, p: Policy) {
    p == rt.policy || exists name | name in rt.monitors :: p == rt.monitors[name].policy
  }

  /** Every outcome a policy can select. */
  ghost predicate Offers(p: Policy, t: Then) {
    t == p.default || exists i | 0 <= i < |p.rules| :: p.rules[i].then_ == t
  }

  // ---- Outcome, adapter and executed branch: three switches over the same record ----

  datatype Branch = NotifyBranch | ActionBranch | DelegateBranch | NoBranch

  /** execute tests notify, action, delegate. */
  function ExecutedBranch(t: Then): Branch {
    if t.notify.Some? then NotifyBranch
    else if t.action.Some? then ActionBranch
    else if t.delegate.Some? then DelegateBranch
    else NoBranch
  }

  datatype Adapter = ByVia(via: Via) | ByAction(kind: ActionKind) | ByAgent(agent: string) | NoAdapter

  function AdapterFor(t: Then): Adapter {
    if t.notify.Some? then ByVia(t.notify.value.via)
    else if t.action.Some? then ByAction(t.action.value.kind)
    else if t.delegate.Some? then ByAgent(t.delegate.value.agent)
    else NoAdapter
  }

  ghost predicate Coherent(t: Then) {
    match Outcome(t)
    case Acts => ExecutedBranch(t) == ActionBranch && AdapterFor(t) == ByAction(t.action.value.kind)
    case Delegates => ExecutedBranch(t) == DelegateBranch && AdapterFor(t) == ByAgent(t.delegate.value.agent)
    case Notifies => ExecutedBranch(t) == NotifyBranch && AdapterFor(t) == ByVia(t.notify.value.via)
    case Ignores => ExecutedBranch(t) == NoBranch && AdapterFor(t) == NoAdapter
  }

  /** None of execute's or delegate's "unsupported", "unknown" or misconfiguration returns applies. */
  ghost predicate Supported(rt: Runtime, t: Then) {
    match ExecutedBranch(t)
    case NotifyBranch => !t.notify.value.via.OtherVia?
    case ActionBranch => !t.action.value.kind.OtherAction?
    case DelegateBranch =>
      && t.delegate.value.agent in rt.agents
      && var a := rt.agents[t.delegate.value.agent];
         && (a.timeout == 0 || SECOND <= a.timeout <= 300 * SECOND)
         && (a.model != "" ==> a.model in rt.models && rt.models[a.model].role == AgentRole)
    case NoBranch => true
  }

  /** An outcome that is one thing is carried out as that and recorded under its means: the way a message
      goes, the kind of action, or the agent. */
  lemma AdaptersOf(n: Notify, a: Action, d: Delegate, ignore: bool, shadow: bool)
    ensures var t := Then(Some(n), None, None, ignore, shadow);
      ExecutedBranch(t) == NotifyBranch && AdapterFor(t) == ByVia(n.via)
    ensures var t := Then(None, Some(a), None, ignore, shadow);
      ExecutedBranch(t) == ActionBranch && AdapterFor(t) == ByAction(a.kind)
    ensures var t := Then(None, None, Some(d), ignore, shadow);
      ExecutedBranch(t) == DelegateBranch && AdapterFor(t) == ByAgent(d.agent)
    ensures var t := Then(None, None, None, ignore, shadow); ExecutedBranch(t) == NoBranch && AdapterFor(t) == NoAdapter
  {
  }

  /** The two tests disagree on a record with two outcomes set, so validation is needed. */
  lemma SwitchesAgreeIffCoherent(t: Then)
    ensures Coherent(t) <==> !(t.notify.Some? && (t.action.Some? || t.delegate.Some?))
  {
  }

  /** A record with both a notification and an action is named and reported as an action, and notifies. */
  lemma SwitchesDisagree(n: Notify, a: Action)
    ensures var t := Then(Some(n), Some(a), None, false, false);
      !Coherent(t) && CountSet(t) == 2 && Outcome(t) == Acts && ExecutedBranch(t) == NotifyBranch
  {
  }

  /** No call can reach interpretation's "agent model" or "unsupported provider" errors, or the
      answer validator's "unsupported type" default. */
  ghost predicate Interpretable(r: Route) {
    && r.model.role != AgentRole
    && !r.model.provider.OtherProvider?
    && (if r.model.provider == OpenAICompatible && r.spec.questions == map[]
        then r.spec.schema != map[] && forall name | name in r.spec.schema :: !r.spec.schema[name].kind.OtherField?
        else ValidQuestions(r.spec.questions))
  }

  lemma AcceptedSpecIsInterpretable(models: map<string, ModelConfig>, r: Route)
    requires InterpretationOk(models, r.spec) && r.model == models[r.spec.model]
    ensures Interpretable(r)
  {
  }

  lemma AcceptedOutcomeIsSupported(c: Config, revision: string, sx: Syntax, t: Then)
    requires ThenOk(t, c.agents, sx)
    requires forall name | name in c.agents :: AgentOk(c.agents[name], c.models, sx)
    ensures Coherent(t) && Supported(Snapshot(c, revision), t)
    ensures Outcome(t) == Ignores ==> t.ignore || t.shadow
  {
  }

  lemma RouteIsValid(c: Config, revision: string, sx: Syntax, e: Event)
    requires Valid(c, sx)
    ensures var route := SelectRoute(Snapshot(c, revision), e);
      InterpretationOk(c.models, route.spec) && PolicyOk(route.policy, c.agents, sx)
      && route.spec.model in c.models && route.model == c.models[route.spec.model]
  {
  }

  /** Validation soundness: whatever event arrives and whatever the model answers, a runtime built
      from an accepted configuration stays inside the supported cases. */
  lemma ValidationIsSound(c: Config, revision: string, sx: Syntax, e: Event, result: Fields, sem: Semantics)
    requires Valid(c, sx)
    ensures var rt := Snapshot(c, revision);
      var route := SelectRoute(rt, e);
      var t := EvaluateEvent(route.policy, result, e, sem).0;
      Interpretable(route) && Coherent(t) && Supported(rt, t)
      && (Outcome(t) == Ignores ==> t.ignore || t.shadow)
  {
    var route := SelectRoute(Snapshot(c, revision), e);
    RouteIsValid(c, revision, sx, e);
    AcceptedSpecIsInterpretable(c.models, route);
    AcceptedOutcomeIsSupported(c, revision, sx, EvaluateEvent(route.policy, result, e, sem).0);
  }

  /** Every source of an accepted configuration can be read: its kind is supported, a journal has a scope,
      units and a known priority, no two share a name and so a checkpoint row, and every monitor watches
      one of them. */
  lemma AcceptedSourcesAreReadable(c: Config, sx: Syntax)
    requires Valid(c, sx)
    ensures forall s | s in c.sources ::
      && !s.kind.OtherSource?
      && (s.kind == SystemdJournal ==>
            JournalPriority(s.priority).Some? && s.units != [] && (s.scope == "" || s.scope == "system" || s.scope == "user"))
    ensures forall s, t | s in c.sources && t in c.sources && s.name == t.name :: s == t
    ensures forall name | name in c.monitors :: exists s | s in c.sources :: s.name == name
  {
  }

  /** Operation and evaluation select the same interpreter, model and policy. */
  lemma EvaluationRoute(c: Config, revision: string, e: Event)
    ensures SelectRoute(Snapshot(c, revision), e)
         == Route(InterpreterFor(c, e), ModelNamed(c.models, InterpreterFor(c, e).model), PolicyFor(c, e))
  {
  }

  // ---- The effect check that activation makes before anything changes ----

  /** The state consulted by the check: consent given with the request, the safety stop, and which
      webhook references resolve to a valid connection. */
  datatype Consent = Consent(allowLive: bool, blocked: bool, webhookReady: string -> bool)

  predicate OutcomeAllowed(t: Then, k: Consent) {
    || Outcome(t) == Ignores
    || t.shadow
    || (t.notify.Some? && k.allowLive && !k.blocked
        && (t.notify.value.via == Discord ==> k.webhookReady(t.notify.value.webhookEnv)))
  }

  predicate PolicyAllowed(p: Policy, k: Consent) {
    OutcomeAllowed(p.default, k) && forall i | 0 <= i < |p.rules| :: OutcomeAllowed(p.rules[i].then_, k)
  }

  predicate EffectsAllowed(c: Config, k: Consent) {
    PolicyAllowed(c.policy, k) && forall name | name in c.monitors :: PolicyAllowed(c.monitors[name].policy, k)
  }

  /** What the check admits, over everything a runtime built from c can select: nothing to do, nothing done
      but recorded, or a notification that was consented to while the stop was open and whose webhook, if
      it needs one, resolves. */
  lemma AllowedExactly(c: Config, revision: string, k: Consent)
    ensures EffectsAllowed(c, k) <==> forall p, t | Selectable(Snapshot(c, revision), p) && Offers(p, t) ::
      || (t.notify.None? && t.action.None? && t.delegate.None?)
      || t.shadow
      || (t.notify.Some? && k.allowLive && !k.blocked
          && match t.notify.value.via case Discord => k.webhookReady(t.notify.value.webhookEnv) case _ => true)
  {
    var rt := Snapshot(c, revision);
    forall p | Selectable(rt, p) ensures PolicyAllowed(p, k) <==> forall t | Offers(p, t) :: OutcomeAllowed(t, k) {
      AllowedThroughout(p, k);
    }
    assert forall name | name in c.monitors :: Selectable(rt, c.monitors[name].policy);
    assert EffectsAllowed(c, k) <==> forall p | Selectable(rt, p) :: PolicyAllowed(p, k);
  }

  lemma AllowedThroughout(p: Policy, k: Consent)
    ensures PolicyAllowed(p, k) <==> forall t | Offers(p, t) :: OutcomeAllowed(t, k)
  {
    assert Offers(p, p.default);
    assert forall i | 0 <= i < |p.rules| :: Offers(p, p.rules[i].then_);
  }

  /** A runtime whose only possible live effect is a notification, and none at all unless live. */
  ghost predicate Confined(rt: Runtime, live: bool) {
    forall p, t | Selectable(rt, p) && Offers(p, t) ::
      t.shadow || ExecutedBranch(t) == NoBranch || (live && ExecutedBranch(t) == NotifyBranch)
  }

  /** The check reads an outcome's name while execute takes the first field set, and it does not ask
      whether the configuration was validated; it confines every runtime all the same. */
  lemma AllowedIsConfined(c: Config, revision: string, k: Consent)
    requires EffectsAllowed(c, k)
    ensures Confined(Snapshot(c, revision), k.allowLive && !k.blocked)
  {
  }

  lemma SelectedIsOffered(rt: Runtime, e: Event, result: Fields, sem: Semantics)
    ensures Selectable(rt, SelectRoute(rt, e).policy)
    ensures Offers(SelectRoute(rt, e).policy, EvaluateEvent(SelectRoute(rt, e).policy, result, e, sem).0)
  {
  }
}
