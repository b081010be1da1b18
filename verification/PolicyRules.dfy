/** First-match policy evaluation (internal/policy/policy.go). How two scalars compare, and which
    events the pre-model filter admits, are parameters: both are pure and total in the source. */
module PolicyRules {
  import opened Domain

  datatype Semantics = Semantics(matches: (Value, Value) -> bool, passes: Event -> bool)

  datatype OutcomeName = Ignores | Notifies | Acts | Delegates

  /** The outcome's public name. It tests action, delegate, notify, in that order. */
  function Outcome(t: Then): OutcomeName {
    if t.action.Some? then Acts
    else if t.delegate.Some? then Delegates
    else if t.notify.Some? then Notifies
    else Ignores
  }

  function Split(s: string, sep: char): (parts: seq<string>)
    ensures |parts| >= 1
  {
    if s == "" then [""]
    else
      var rest := Split(s[1..], sep);
      if s[0] == sep then [""] + rest else [[s[0]] + rest[0]] + rest[1..]
  }

  function Join(parts: seq<string>, sep: char): string
    requires |parts| >= 1
  {
    if |parts| == 1 then parts[0] else parts[0] + [sep] + Join(parts[1..], sep)
  }

  /** A path names its fields without loss: the parts hold no separator and join back to the path. */
  lemma {:induction false} SplitJoins(s: string, sep: char)
    ensures Join(Split(s, sep), sep) == s
    ensures forall k | 0 <= k < |Split(s, sep)| :: sep !in Split(s, sep)[k]
  {
    if s != "" {
      SplitJoins(s[1..], sep);
      var rest := Split(s[1..], sep);
      if s[0] == sep {
        assert ([""] + rest)[1..] == rest;
        assert s == [s[0]] + s[1..];
      } else {
        var parts := [[s[0]] + rest[0]] + rest[1..];
        assert parts[1..] == rest[1..];
        assert s == [s[0]] + s[1..];
      }
    }
  }

  function TrimPrefix(s: string, prefix: string): string {
    if prefix <= s then s[|prefix|..] else s
  }

  function Lookup(current: Value, path: seq<string>): Option<Value> {
    if path == [] then Some(current)
    else if current.Object? && path[0] in current.fields then Lookup(current.fields[path[0]], path[1..])
    else None
  }

  /** Following a path in two legs is following it whole. */
  lemma {:induction false} LookupNests(v: Value, first: seq<string>, then_: seq<string>)
    ensures Lookup(v, first + then_)
         == match Lookup(v, first) case Some(inner) => Lookup(inner, then_) case None => None
    decreases |first|
  {
    if first == [] {
      assert first + then_ == then_;
    } else if v.Object? && first[0] in v.fields {
      assert (first + then_)[1..] == first[1..] + then_;
      LookupNests(v.fields[first[0]], first[1..], then_);
    }
  }

  function EventFacts(e: Event): Value {
    Object(map["type" := Text(e.kind), "source" := Text(e.source), "subject" := Text(e.subject),
               "depth" := Number(e.depth as real), "data" := Object(e.data)])
  }

  /** What a condition's key addresses: a fact of the event, or a field of the model's result. */
  function Addressed(key: string, result: Fields, e: Event): Option<Value> {
    if "event." <= key
    then Lookup(EventFacts(e), Split(TrimPrefix(key, "event."), '.'))
    else Lookup(Object(result), Split(TrimPrefix(key, "result."), '.'))
  }

  /** A key with the event's prefix addresses one of five facts of the event, or a way into its data; any other
      addresses the model's result, with or without its prefix. */
  lemma KeysAddress(name: string, result: Fields, e: Event)
    requires '.' !in name
    ensures Addressed("event." + name, result, e)
         == match name
            case "type" => Some(Text(e.kind))
            case "source" => Some(Text(e.source))
            case "subject" => Some(Text(e.subject))
            case "depth" => Some(Number(e.depth as real))
            case "data" => Some(Object(e.data))
            case _ => None
    ensures Addressed("event.data." + name, result, e) == if name in e.data then Some(e.data[name]) else None
    ensures Addressed(name, result, e) == Addressed("result." + name, result, e)
         == if name in result then Some(result[name]) else None
  {
    FactIsOneStep(name, result, e);
    FactsAre(name, e);
    DataIsOneStepFurther(name, result, e);
    OneStep(e.data, name);
    ResultIsOneStep(name, result, e);
    OneStep(result, name);
  }

  lemma OneStep(fields: Fields, name: string)
    ensures Lookup(Object(fields), [name]) == if name in fields then Some(fields[name]) else None
  {
    assert [name][1..] == [];
  }

  lemma FactsAre(name: string, e: Event)
    ensures Lookup(EventFacts(e), [name])
         == match name
            case "type" => Some(Text(e.kind))
            case "source" => Some(Text(e.source))
            case "subject" => Some(Text(e.subject))
            case "depth" => Some(Number(e.depth as real))
            case "data" => Some(Object(e.data))
            case _ => None
  {
    OneStep(EventFacts(e).fields, name);
  }

  lemma {:induction false} SplitWhole(s: string, sep: char)
    requires sep !in s
    ensures Split(s, sep) == [s]
  {
    if s != "" {
      SplitWhole(s[1..], sep);
      assert [s[0]] + s[1..] == s;
    }
  }

  lemma {:induction false} SplitFirst(s: string, rest: string, sep: char)
    requires sep !in s
    ensures Split(s + [sep] + rest, sep) == [s] + Split(rest, sep)
  {
    var whole := s + [sep] + rest;
    if s == "" {
      assert whole == [sep] + rest && whole[1..] == rest;
    } else {
      SplitFirst(s[1..], rest, sep);
      assert whole[1..] == s[1..] + [sep] + rest;
      assert [s[0]] + s[1..] == s;
    }
  }

  lemma FactIsOneStep(name: string, result: Fields, e: Event)
    requires '.' !in name
    ensures Addressed("event." + name, result, e) == Lookup(EventFacts(e), [name])
  {
    assert ("event." + name)[6..] == name;
    SplitWhole(name, '.');
  }

  lemma DataIsOneStepFurther(name: string, result: Fields, e: Event)
    requires '.' !in name
    ensures Addressed("event.data." + name, result, e) == Lookup(Object(e.data), [name])
  {
    var key := "event.data." + name;
    assert key == "event." + ("data." + name) && key[6..] == "data." + name == "data" + ['.'] + name;
    SplitFirst("data", name, '.');
    SplitWhole(name, '.');
    LookupNests(EventFacts(e), ["data"], [name]);
    assert ["data"] + [name] == [["data"][0]] + [name];
  }

  lemma ResultIsOneStep(name: string, result: Fields, e: Event)
    requires '.' !in name
    ensures Addressed(name, result, e) == Addressed("result." + name, result, e) == Lookup(Object(result), [name])
  {
    var long := "result." + name;
    assert long[7..] == name && long[0] == 'r' && !("event." <= long);
    assert "event."[5] == '.' && "result."[6] == '.';
    NoPrefix("event.", name, '.');
    NoPrefix("result.", name, '.');
    SplitWhole(name, '.');
  }

  lemma NoPrefix(prefix: string, s: string, c: char)
    requires c in prefix && c !in s
    ensures !(prefix <= s)
  {
  }

  predicate MatchesAll(conds: map<string, Value>, result: Fields, e: Event, sem: Semantics) {
    forall key | key in conds ::
      var got := Addressed(key, result, e);
      got.Some? && sem.matches(conds[key], got.value)
  }

  /** Conditions hold together, none of them of itself: each must address something, and match it as the
      wanted value. */
  lemma ConditionsConjoin(conds: map<string, Value>, key: string, want: Value, result: Fields, e: Event, sem: Semantics)
    requires key !in conds
    ensures MatchesAll(map[], result, e, sem)
    ensures MatchesAll(conds[key := want], result, e, sem) <==>
      && MatchesAll(conds, result, e, sem)
      && match Addressed(key, result, e) case Some(got) => sem.matches(want, got) case None => false
  {
    var more := conds[key := want];
    assert more[key] == want && forall k | k in conds :: more[k] == conds[k];
  }

  /** What a model answers cannot decide a condition on the event's own facts. */
  lemma ModelCannotDecideEventFacts(conds: map<string, Value>, r: Fields, q: Fields, e: Event, sem: Semantics)
    requires forall key | key in conds :: "event." <= key
    ensures MatchesAll(conds, r, e, sem) == MatchesAll(conds, q, e, sem)
  {
  }

  /** i is the first rule of p that matches, or -1 when none does. */
  ghost predicate IsFirstMatch(p: Policy, result: Fields, e: Event, sem: Semantics, i: int) {
    && -1 <= i < |p.rules|
    && (i >= 0 ==> MatchesAll(p.rules[i].conds, result, e, sem))
    && (forall j | 0 <= j < (if i >= 0 then i else |p.rules|) :: !MatchesAll(p.rules[j].conds, result, e, sem))
  }

  function EvaluateFrom(p: Policy, from: nat, result: Fields, e: Event, sem: Semantics): (r: (Then, int))
    requires from <= |p.rules|
    ensures r.1 == -1 || from <= r.1 < |p.rules|
    ensures r.1 >= 0 ==> MatchesAll(p.rules[r.1].conds, result, e, sem)
    ensures forall j | from <= j < (if r.1 >= 0 then r.1 else |p.rules|) ::
      !MatchesAll(p.rules[j].conds, result, e, sem)
    ensures r.0 == if r.1 >= 0 then p.rules[r.1].then_ else p.default
    decreases |p.rules| - from
  {
    if from == |p.rules| then (p.default, -1)
    else if MatchesAll(p.rules[from].conds, result, e, sem) then (p.rules[from].then_, from)
    else EvaluateFrom(p, from + 1, result, e, sem)
  }

  function EvaluateEvent(p: Policy, result: Fields, e: Event, sem: Semantics): (r: (Then, int))
    ensures IsFirstMatch(p, result, e, sem, r.1)
    ensures r.0 == if r.1 >= 0 then p.rules[r.1].then_ else p.default
  {
    EvaluateFrom(p, 0, result, e, sem)
  }

  /** An outcome is named after the one thing it does, whether or not it is a shadow. */
  lemma OutcomeNames(n: Notify, a: Action, d: Delegate, ignore: bool, shadow: bool)
    ensures Outcome(Then(Some(n), None, None, ignore, shadow)) == Notifies
    ensures Outcome(Then(None, Some(a), None, ignore, shadow)) == Acts
    ensures Outcome(Then(None, None, Some(d), ignore, shadow)) == Delegates
    ensures Outcome(Then(None, None, None, ignore, shadow)) == Ignores
  {
  }
}
