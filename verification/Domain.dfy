/** The records every stage handles: JSON values, events and their lineage, decisions, and the
    outcomes a policy can select (internal/event/event.go, internal/policy/policy.go).

    A SHA-256 digest is modelled by the value that was hashed, so equal digests mean equal values. */
module Domain {
  datatype Option<+T> = None | Some(value: T)

  type Id = string
  type Fields = map<string, Value>

  /** A JSON value. A number decoded with full precision keeps its text (Literal); a number decoded
      from a model answer is a float (Number). */
  datatype Value =
    | Null
    | Bool(b: bool)
    | Number(n: real)
    | Literal(text: string)
    | Text(s: string)
    | List(items: seq<Value>)
    | Object(fields: map<string, Value>)

  // Names that a configuration spells as text and the code compares with a fixed list. Other(name)
  // is any spelling outside that list.
  datatype Via = Stdout | Discord | OtherVia(name: string)
  datatype ActionKind = Http | Emit | OtherAction(name: string)

  datatype Notify = Notify(via: Via, message: string, webhookEnv: string)
  datatype Action = Action(kind: ActionKind, verb: string, url: string, body: string, eventType: string)
  datatype Delegate = Delegate(agent: string, prompt: string, emitCompletion: bool, completionEventType: string)

  /** The outcome a rule selects. Shadow is orthogonal: recorded, never performed. */
  datatype Then = Then(notify: Option<Notify>, action: Option<Action>, delegate: Option<Delegate>,
                       ignore: bool, shadow: bool)

  const IGNORE := Then(None, None, None, true, false)

  datatype Rule = Rule(conds: map<string, Value>, then_: Then)
  datatype Policy = Policy(rules: seq<Rule>, default: Then)

  /** Which line of a policy chose an outcome. */
  datatype RuleRef = ByDefault | ByRule(index: nat) | DecisionFailed

  datatype Provenance = Provenance(parent: Id, origin: Id, decision: Id, execution: Id,
                                   rule: RuleRef, policy: Policy, agent: string)

  /** sourceId is the stable identity a source supplied in its metadata, or "" for none. */
  datatype Event = Event(id: Id, kind: string, source: string, subject: string, data: Fields,
                         sourceId: string, depth: int, provenance: Option<Provenance>)

  datatype DecisionStatus = Ok | Invalid | Errored

  datatype Decision = Decision(id: Id, event: Id, interpreter: string, model: string,
                               status: DecisionStatus, result: Fields)

  /** The only values accepted as a stable source identity are strings and exact numbers; anything
      else yields "" so that unrelated records cannot share a synthetic identity. */
  function SourceEventId(v: Value): string {
    match v
    case Text(s) => s
    case Literal(text) => text
    case _ => ""
  }

  /** The (source, dedup_key) pair that identifies one delivery. */
  datatype DedupKey = BySourceId(id: string) | ByPayload(kind: string, subject: string, data: Fields)
  datatype Key = Key(source: string, dedup: DedupKey)

  function KeyOf(e: Event): Key {
    Key(e.source, if e.sourceId != "" then BySourceId(e.sourceId) else ByPayload(e.kind, e.subject, e.data))
  }

  /** Two deliveries are one exactly when a source supplied them under one name with one identity, or,
      where neither brought an identity, with the same type, subject and data. */
  lemma SameDeliveryIff(a: Event, b: Event)
    ensures KeyOf(a) == KeyOf(b) <==>
      && a.source == b.source && a.sourceId == b.sourceId
      && (a.sourceId == "" ==> a.kind == b.kind && a.subject == b.subject && a.data == b.data)
  {
  }
}
