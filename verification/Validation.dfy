/** What the validator accepts, line by line (internal/config/config.go): a smallest configuration is valid,
    and each law says exactly which further line, or which change of one, keeps a valid configuration
    valid. */
module Validation {
  import opened Domain
  import opened Interpretations
  import opened PolicyRules
  import opened Configuration

  /** One model, one field to judge, and nothing to do. */
  function Smallest(server: string, db: string): Config {
    Config(server, "", "", db, [], map["m" := ModelConfig(NoRole, OpenAICompatible, "u", "", "")],
           Interpretation("m", "p", map["urgent" := Field(BooleanField, [], None, None)], map[]), map[],
           Policy([], IGNORE), map[], [], map[])
  }

  lemma SmallestIsValid(server: string, db: string, sx: Syntax)
    requires sx.encodable(Policy([], IGNORE))
    ensures Valid(Smallest(server, db), sx)
  {
    var c := Smallest(server, db);
    assert c.interpret.schema["urgent"] == Field(BooleanField, [], None, None);
    assert InterpretationOk(c.models, c.interpret);
  }

  // ---- Listener, models, agents ----

  /** The listener is off, or answers on a loopback address under a name of lowercase labels. */
  lemma DashboardIff(c: Config, sx: Syntax, addr: string, host: string)
    requires Valid(c, sx)
    ensures Valid(c.(dashboardAddr := addr, dashboardHost := host), sx) <==>
      || (addr == "" && host == "")
      || (sx.loopback(addr) && 1 <= |host| <= 253 && forall part | part in Split(host, '.') :: LabelOk(part))
  {
  }

  lemma LabelIff(part: string)
    ensures LabelOk(part) <==>
      && 1 <= |part| <= 63 && part[0] != '-' && part[|part| - 1] != '-'
      && forall i | 0 <= i < |part| :: 'a' <= part[i] <= 'z' || '0' <= part[i] <= '9' || part[i] == '-'
  {
    assert forall i | 0 <= i < |part| :: part[i] in part;
  }

  lemma WiderModels(models: map<string, ModelConfig>, name: string, m: ModelConfig, spec: Interpretation)
    requires name !in models && InterpretationOk(models, spec)
    ensures InterpretationOk(models[name := m], spec)
  {
    assert models[name := m][spec.model] == models[spec.model];
  }

  lemma WiderModelsForAgent(models: map<string, ModelConfig>, name: string, m: ModelConfig, a: Agent, sx: Syntax)
    requires name !in models && AgentOk(a, models, sx)
    ensures AgentOk(a, models[name := m], sx)
  {
  }

  lemma ModelsIff(models: map<string, ModelConfig>, name: string, m: ModelConfig, sx: Syntax)
    requires ModelsOk(models, sx) && name !in models
    ensures ModelsOk(models[name := m], sx) <==> RoleOk(m, sx)
  {
    assert models[name := m][name] == m;
  }

  /** A further model has no role or a known one; an agent's speaks the common protocol at an HTTP URL and
      is named there. */
  lemma ModelIff(c: Config, sx: Syntax, name: string, m: ModelConfig)
    requires Valid(c, sx) && name !in c.models
    ensures Valid(c.(models := c.models[name := m]), sx) <==>
      match m.role
      case OtherRole(_) => false
      case AgentRole => m.provider == OpenAICompatible && sx.httpUrl(m.baseUrl) && m.model != ""
      case _ => true
  {
    var wider := c.models[name := m];
    ModelsIff(c.models, name, m, sx);
    WiderModels(c.models, name, m, c.interpret);
    forall kind | kind in c.interpretByType ensures InterpretationOk(wider, c.interpretByType[kind]) {
      WiderModels(c.models, name, m, c.interpretByType[kind]);
    }
    forall n | n in c.agents ensures AgentOk(c.agents[n], wider, sx) {
      WiderModelsForAgent(c.models, name, m, c.agents[n], sx);
    }
    forall n | n in c.monitors ensures InterpretationOk(wider, c.monitors[n].interpret) {
      WiderModels(c.models, name, m, c.monitors[n].interpret);
    }
  }

  lemma WiderAgents(p: Policy, agents: map<string, Agent>, name: string, a: Agent, sx: Syntax)
    requires name !in agents && PolicyOk(p, agents, sx)
    ensures PolicyOk(p, agents[name := a], sx)
  {
    assert ThenOk(p.default, agents[name := a], sx);
    forall i | 0 <= i < |p.rules| ensures ThenOk(p.rules[i].then_, agents[name := a], sx) {
      assert ThenOk(p.rules[i].then_, agents, sx);
    }
  }

  lemma AgentsIff(agents: map<string, Agent>, models: map<string, ModelConfig>, name: string, a: Agent, sx: Syntax)
    requires AgentsOk(agents, models, sx) && name !in agents
    ensures AgentsOk(agents[name := a], models, sx) <==> AgentOk(a, models, sx)
  {
    assert agents[name := a][name] == a;
  }

  /** A further agent is reached at an HTTP URL, within one second to five minutes if bounded at all, runs on
      an agent's model if on any, and has well-formed capabilities. */
  lemma AgentIff(c: Config, sx: Syntax, name: string, a: Agent)
    requires Valid(c, sx) && name !in c.agents
    ensures Valid(c.(agents := c.agents[name := a]), sx) <==>
      && a.endpoint != "" && sx.httpUrl(a.endpoint)
      && (a.timeout == 0 || 1000 <= a.timeout <= 300_000)
      && (a.model == "" || (a.model in c.models && c.models[a.model].role == AgentRole))
      && forall capability | capability in a.capabilities :: sx.capability(capability)
  {
    AgentsIff(c.agents, c.models, name, a, sx);
    WiderAgents(c.policy, c.agents, name, a, sx);
    forall n | n in c.monitors ensures PolicyOk(c.monitors[n].policy, c.agents[name := a], sx) {
      WiderAgents(c.monitors[n].policy, c.agents, name, a, sx);
    }
  }

  // ---- Interpretations ----

  /** What is asked of a model: a prompt and a schema, or bounded questions, of one that is configured, has
      an address and is no agent's. Providers that judge take questions only, and one of them needs a key. */
  lemma InterpretationIff(models: map<string, ModelConfig>, spec: Interpretation)
    requires spec.model in models
    ensures InterpretationOk(models, spec) <==>
      var m := models[spec.model];
      && spec.model != "" && m.baseUrl != "" && !m.role.AgentRole?
      && match m.provider
         case OtherProvider(_) => false
         case OpenAICompatible =>
           if spec.questions == map[]
           then spec.prompt != "" && spec.schema != map[] && forall name | name in spec.schema :: FieldOk(spec.schema[name])
           else spec.prompt == "" && spec.schema == map[] && ValidQuestions(spec.questions)
         case TypeSafe => m.apiKeyEnv != "" && spec.prompt == "" && spec.schema == map[] && ValidQuestions(spec.questions)
         case LiquidD1 => spec.prompt == "" && spec.schema == map[] && ValidQuestions(spec.questions)
         case SystemOneProvider => spec.prompt == "" && spec.schema == map[] && ValidQuestions(spec.questions)
  {
  }

  /** A schema's field is a string, a number or a boolean; only a number is bounded, and its bounds admit
      something. */
  lemma FieldIff(enum: seq<Value>, low: real, high: real, name: string)
    ensures FieldOk(Field(StringField, enum, None, None)) && FieldOk(Field(BooleanField, enum, None, None))
    ensures !FieldOk(Field(OtherField(name), enum, None, None))
    ensures forall kind | kind == StringField || kind == BooleanField ::
      && !FieldOk(Field(kind, enum, Some(low), None)) && !FieldOk(Field(kind, enum, None, Some(high)))
      && !FieldOk(Field(kind, enum, Some(low), Some(high)))
    ensures FieldOk(Field(NumberField, enum, None, None)) && FieldOk(Field(NumberField, enum, Some(low), None))
         && FieldOk(Field(NumberField, enum, None, Some(high)))
    ensures FieldOk(Field(NumberField, enum, Some(low), Some(high))) <==> low <= high
  {
  }

  /** Each place that asks a model is held to that: the configuration's own, one for a type that is not blank,
      and one that watches a source, which must be configured and brings a policy of its own. */
  lemma InterpretersIff(c: Config, sx: Syntax, spec: Interpretation, name: string, p: Policy)
    requires Valid(c, sx)
    ensures Valid(c.(interpret := spec), sx) <==> InterpretationOk(c.models, spec)
    ensures Valid(c.(interpretByType := c.interpretByType[name := spec]), sx) <==>
      !Blank(name) && InterpretationOk(c.models, spec)
    ensures Valid(c.(monitors := c.monitors[name := Monitor(spec, p)]), sx) <==>
      (exists s | s in c.sources :: s.name == name) && InterpretationOk(c.models, spec) && PolicyOk(p, c.agents, sx)
    ensures InterpretationOk(c.models, spec) ==> spec.model in c.models
  {
    OverridesIff(c.interpretByType, c.models, name, spec);
    WatchesIff(c.monitors, c.sources, c.models, name, Monitor(spec, p));
    MonitorPoliciesIff(c.monitors, c.agents, name, Monitor(spec, p), sx);
    NamesIff(c.sources, name);
  }

  lemma OverridesIff(byType: map<string, Interpretation>, models: map<string, ModelConfig>, kind: string,
                     spec: Interpretation)
    requires OverridesOk(byType, models)
    ensures OverridesOk(byType[kind := spec], models) <==> !Blank(kind) && InterpretationOk(models, spec)
  {
    assert byType[kind := spec][kind] == spec;
  }

  lemma NamesIff(sources: seq<Source>, name: string)
    ensures Names(sources, name) <==> exists s | s in sources :: s.name == name
  {
  }

  lemma WatchesIff(monitors: map<string, Monitor>, sources: seq<Source>, models: map<string, ModelConfig>, name: string,
                   m: Monitor)
    requires WatchesOk(monitors, sources, models)
    ensures WatchesOk(monitors[name := m], sources, models) <==>
      Names(sources, name) && InterpretationOk(models, m.interpret)
  {
    assert monitors[name := m][name] == m;
  }

  lemma MonitorPoliciesIff(monitors: map<string, Monitor>, agents: map<string, Agent>, name: string, m: Monitor,
                           sx: Syntax)
    requires MonitorPoliciesOk(monitors, agents, sx)
    ensures MonitorPoliciesOk(monitors[name := m], agents, sx) <==> PolicyOk(m.policy, agents, sx)
  {
    assert monitors[name := m][name] == m;
  }

  // ---- Policies ----

  /** A further rule needs a condition, and it and a new default need a valid outcome; the policy as a whole
      must encode. */
  lemma PolicyIff(c: Config, sx: Syntax, rule: Rule, t: Then)
    requires Valid(c, sx)
    ensures var p := Policy(c.policy.rules + [rule], t);
      Valid(c.(policy := p), sx) <==>
        rule.conds != map[] && ThenOk(rule.then_, c.agents, sx) && ThenOk(t, c.agents, sx) && sx.encodable(p)
    ensures var p := Policy([], t);
      Valid(c.(policy := p), sx) <==> ThenOk(t, c.agents, sx) && sx.encodable(p)
  {
    RulesIff(c.policy, rule, t, c.agents, sx);
    assert c.(policy := Policy([], t)).policy.rules == [];
  }

  lemma RulesIff(q: Policy, rule: Rule, t: Then, agents: map<string, Agent>, sx: Syntax)
    requires PolicyOk(q, agents, sx)
    ensures var p := Policy(q.rules + [rule], t);
      PolicyOk(p, agents, sx) <==>
        rule.conds != map[] && ThenOk(rule.then_, agents, sx) && ThenOk(t, agents, sx) && sx.encodable(p)
  {
    var p := Policy(q.rules + [rule], t);
    assert p.rules[|q.rules|] == rule;
    assert forall i | 0 <= i < |q.rules| :: p.rules[i] == q.rules[i];
  }

  /** An outcome is valid when it is one thing: a notification to standard output without a webhook or to a
      webhook that is named, an HTTP request to a URL, a typed event, a task for a configured agent, or
      nothing. Naming none of them, even nothing, takes a shadow. */
  lemma OutcomeIff(t: Then, agents: map<string, Agent>, sx: Syntax)
    ensures ThenOk(t, agents, sx) <==>
      match t
      case Then(Some(n), None, None, false, _) =>
        (n.via.Stdout? && n.webhookEnv == "") || (n.via.Discord? && sx.envName(n.webhookEnv))
      case Then(None, Some(a), None, false, _) =>
        (a.kind.Http? && a.url != "" && sx.httpUrl(a.url)) || (a.kind.Emit? && a.eventType != "")
      case Then(None, None, Some(d), false, _) =>
        && d.agent != "" && d.agent in agents && sx.literalType(d.completionEventType)
        && (d.emitCompletion || d.completionEventType == "")
      case Then(None, None, None, true, _) => true
      case Then(None, None, None, false, shadow) => shadow
      case _ => false
  {
  }

  // ---- Filter and sources ----

  /** A further filter line compares a scalar with one of the event's own words, or with something inside its
      data or metadata, in either spelling of the path. */
  lemma FilterIff(c: Config, sx: Syntax, f: FilterSpec)
    requires Valid(c, sx)
    ensures Valid(c.(filter := c.filter + [f]), sx) <==>
      && PathOk(f.field) && (f.op == "" || f.op == "eq" || f.op == "neq")
      && match f.value case Null => false case List(_) => false case Object(_) => false case _ => true
  {
    var filter := c.filter + [f];
    assert filter[|c.filter|] == f && forall i | 0 <= i < |c.filter| :: filter[i] == c.filter[i];
    assert FiltersOk(filter) <==> FilterOk(f);
  }

  /** One of the event's own words, or a way into its data or metadata without empty steps. */
  predicate Comparable(path: string) {
    || path in ["type", "source", "subject"]
    || (var parts := Split(path, '.');
        |parts| > 1 && parts[0] in ["data", "metadata"] && forall part | part in parts :: part != "")
  }

  lemma OnePartIsAll(path: string)
    ensures |Split(path, '.')| == 1 ==> Split(path, '.') == [path]
  {
    SplitJoins(path, '.');
  }

  lemma WordIsOnePart(word: string)
    requires word in SCALAR_ROOTS
    ensures Split(word, '.') == [word]
  {
    WordIsLetters(word);
    NoSeparator(word);
  }

  lemma WordIsLetters(word: string)
    requires word in SCALAR_ROOTS
    ensures '.' !in word
  {
  }

  lemma ComparableParts(path: string)
    ensures Comparable(path) <==>
      var parts := Split(path, '.');
      "" !in parts && if |parts| == 1 then parts[0] in SCALAR_ROOTS else parts[0] in MAP_ROOTS
  {
    var parts := Split(path, '.');
    assert path in ["type", "source", "subject"] <==> path in SCALAR_ROOTS;
    if path in SCALAR_ROOTS {
      WordIsOnePart(path);
    }
    OnePartIsAll(path);
    if |parts| == 1 {
      assert parts[0] == path;
      assert "" in parts <==> path == "";
    }
  }

  lemma PathIff(path: string)
    ensures PathOk("event." + path) <==> Comparable(path)
    ensures !("event." <= path) ==> (PathOk(path) <==> Comparable(path))
  {
    assert ("event." + path)[6..] == path;
    ComparableParts(path);
  }

  lemma {:induction false} NoSeparator(s: string)
    requires '.' !in s
    ensures Split(s, '.') == [s]
  {
    if s != "" {
      NoSeparator(s[1..]);
      assert [s[0]] + s[1..] == s;
    }
  }

  lemma SourcesIff(sources: seq<Source>, s: Source, sx: Syntax)
    requires SourcesOk(sources, sx)
    ensures SourcesOk(sources + [s], sx) <==> !Names(sources, s.name) && SourceOk(s, sx)
  {
    var more := sources + [s];
    assert more[|sources|] == s && forall i | 0 <= i < |sources| :: more[i] == sources[i];
  }

  lemma MoreNames(monitors: map<string, Monitor>, sources: seq<Source>, models: map<string, ModelConfig>, s: Source)
    requires WatchesOk(monitors, sources, models)
    ensures WatchesOk(monitors, sources + [s], models)
  {
    forall name | name in monitors ensures Names(sources + [s], name) {
      var i :| 0 <= i < |sources| && sources[i].name == name;
      assert (sources + [s])[i].name == name;
    }
  }

  /** A further source has a name of its own, polls at most once a second and says what its events are. A feed
      has an address and nothing of a journal's; a journal has a known scope, one to thirty-two distinct
      units, a severity, and nothing of a feed's. */
  lemma SourceIff(c: Config, sx: Syntax, s: Source)
    requires Valid(c, sx)
    ensures Valid(c.(sources := c.sources + [s]), sx) <==>
      && s.name != "" && s.every >= 1000 && s.eventType != "" && (forall other | other in c.sources ::
        other.name != s.name)
      && match s.kind
         case HttpPoller => s.url != "" && s.units == [] && s.priority == "" && s.scope == ""
         case SystemdJournal =>
           && s.scope in ["", "system", "user"] && UnitsOk(s.units, sx) && JournalPriority(s.priority).Some?
           && s.url == s.bearerEnv == s.itemPath == s.cursorField == s.subjectField == s.timestampField == ""
         case OtherSource(_) => false
  {
    SourcesIff(c.sources, s, sx);
    NamesIff(c.sources, s.name);
    MoreNames(c.monitors, c.sources, c.models, s);
  }

  lemma UnitsIff(units: seq<string>, sx: Syntax)
    ensures UnitsOk(units, sx) <==>
      && units != [] && |units| < 33
      && forall i | 0 <= i < |units| :: |units[i]| < 256 && sx.unitName(units[i]) && units[i] !in units[..i]
  {
    forall i | 0 <= i < |units| ensures units[i] in units[..i] <==> exists j | 0 <= j < i :: units[j] == units[i] {
    }
  }
}
