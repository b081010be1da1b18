/** What a configuration may ask of a model, and what a flat answer must look like
    (internal/model/model.go, internal/model/decision.go, internal/model/typesafe.go). */
module Interpretations {
  import opened Domain

  datatype Role = NoRole | DecisionRole | AgentRole | OtherRole(name: string)
  datatype Provider = OpenAICompatible | TypeSafe | SystemOneProvider | LiquidD1 | OtherProvider(name: string)

  datatype ModelConfig = ModelConfig(role: Role, provider: Provider, baseUrl: string,
                                     apiKeyEnv: string, model: string)

  datatype FieldKind = StringField | NumberField | BooleanField | OtherField(name: string)
  datatype Field = Field(kind: FieldKind, enum: seq<Value>, minimum: Option<real>, maximum: Option<real>)
  type Schema = map<string, Field>

  /** YAML criteria after decoding: a map of strings, a list of strings, or something else. */
  datatype Criteria = Absent | Options(options: map<string, string>) | Levels(levels: seq<string>) | Malformed

  /** yes_no is the portable spelling of noul. */
  datatype Kind = Choice | YesNo | Noul | Score | OtherKind(name: string)
  datatype Question = Question(kind: Kind, instructions: string, criteria: Criteria)
  type Questions = map<string, Question>

  datatype Interpretation = Interpretation(model: string, prompt: string, schema: Schema, questions: Questions)

  predicate Blank(s: string) {
    forall c | c in s :: c in " \t\n\r\U{0B}\U{0C}\U{85}\U{A0}\U{1680}\U{2028}\U{2029}\U{202F}\U{205F}\U{3000}"
                         || '\U{2000}' <= c <= '\U{200A}'
  }

  predicate SafeQuestionId(s: string) {
    s != "" && forall c | c in s :: 'a' <= c <= 'z' || 'A' <= c <= 'Z' || '0' <= c <= '9' || c == '_' || c == '-'
  }

  predicate Normalizable(q: Question) {
    && !Blank(q.instructions)
    && (match q.kind
        case Choice =>
          && q.criteria.Options?
          && 2 <= |q.criteria.options| <= 255
          && (forall o {:trigger SafeQuestionId(o)} | o in q.criteria.options ::
                SafeQuestionId(o) && !Blank(q.criteria.options[o]))
        case Noul => YesNoCriteria(q.criteria)
        case YesNo => YesNoCriteria(q.criteria)
        case Score =>
          && q.criteria.Levels?
          && 2 <= |q.criteria.levels| <= 10
          && (forall level | level in q.criteria.levels :: !Blank(level))
        case _ => false)
  }

  predicate YesNoCriteria(c: Criteria) {
    || c.Absent?
    || (&& c.Options?
        && |c.options| == 2
        && "true" in c.options && !Blank(c.options["true"])
        && "false" in c.options && !Blank(c.options["false"]))
  }

  predicate ValidQuestions(questions: Questions) {
    questions != map[] && forall id | id in questions :: SafeQuestionId(id) && Normalizable(questions[id])
  }

  /** Scalars as they print; how the remaining values print is a parameter. */
  function Show(v: Value, other: Value -> string): string {
    match v
    case Text(s) => s
    case Literal(text) => text
    case Bool(b) => if b then "true" else "false"
    case _ => other(v)
  }

  predicate FieldAccepts(f: Field, v: Value, other: Value -> string) {
    && (match f.kind
        case StringField => v.Text?
        case NumberField =>
          && v.Number?
          && (f.minimum.Some? ==> f.minimum.value <= v.n)
          && (f.maximum.Some? ==> v.n <= f.maximum.value)
        case BooleanField => v.Bool?
        case _ => false)
    && (f.enum == [] || exists k | 0 <= k < |f.enum| :: Show(f.enum[k], other) == Show(v, other))
  }

  /** The exact shape of an accepted flat answer: every field, nothing else. */
  predicate Conforms(result: Fields, schema: Schema, other: Value -> string) {
    && (forall name | name in schema :: name in result && FieldAccepts(schema[name], result[name], other))
    && (forall name | name in result :: name in schema)
  }

  // ---- The same, character by character and kind by kind ----

  /** White space as Unicode has it, and nothing else, is blank; an identifier is ASCII letters, digits, '_' and
      '-'. */
  lemma CharactersIff(c: char, s: string, t: string)
    ensures Blank([c]) <==>
      var code := c as int;
      || 9 <= code <= 13 || code == 0x20 || code == 0x85 || code == 0xA0 || code == 0x1680
      || 0x2000 <= code <= 0x200A || code == 0x2028 || code == 0x2029 || code == 0x202F || code == 0x205F
      || code == 0x3000
    ensures SafeQuestionId([c]) <==>
      var code := c as int;
      48 <= code <= 57 || 65 <= code <= 90 || 97 <= code <= 122 || code == 95 || code == 45
    ensures Blank("") && (Blank(s + t) <==> Blank(s) && Blank(t))
    ensures !SafeQuestionId("") && (s != "" && t != "" ==> (SafeQuestionId(s + t) <==> SafeQuestionId(s) && SafeQuestionId(t)))
  {
    assert c in [c];
    assert forall x | x in s :: x in s + t;
    assert forall x | x in t :: x in s + t;
  }

  /** A question has instructions; a choice is between 2 to 255 identified and described options, a scale has
      2 to 10 described levels, and a yes-or-no question describes both answers or neither. */
  lemma QuestionIff(q: Question)
    ensures Normalizable(q) <==>
      && !Blank(q.instructions)
      && match (q.kind, q.criteria)
         case (Choice, Options(options)) =>
           2 <= |options| <= 255 && forall o {:trigger SafeQuestionId(o)} | o in options ::
             SafeQuestionId(o) && !Blank(options[o])
         case (Score, Levels(levels)) => 2 <= |levels| <= 10 && forall level | level in levels :: !Blank(level)
         case (YesNo, Absent) => true
         case (Noul, Absent) => true
         case (YesNo, Options(options)) =>
           options.Keys == {"true", "false"} && !Blank(options["true"]) && !Blank(options["false"])
         case (Noul, Options(options)) =>
           options.Keys == {"true", "false"} && !Blank(options["true"]) && !Blank(options["false"])
         case _ => false
  {
    if q.criteria.Options? {
      TwoKeys(q.criteria.options);
    }
  }

  lemma TwoKeys(options: map<string, string>)
    ensures options.Keys == {"true", "false"} <==> |options| == 2 && "true" in options && "false" in options
  {
    var both := {"true", "false"};
    assert "true" != "false";
    assert |both| == 2;
    if |options| == 2 && "true" in options && "false" in options {
      assert both <= options.Keys;
      assert |options.Keys - both| == |options.Keys| - |both|;
    }
  }

  /** Questions are valid when there are some, each identified and each valid. */
  lemma QuestionsIff(questions: Questions, id: string, q: Question)
    requires id !in questions && (questions == map[] || ValidQuestions(questions))
    ensures ValidQuestions(questions[id := q]) <==> SafeQuestionId(id) && Normalizable(q)
    ensures !ValidQuestions(map[])
  {
    assert questions[id := q][id] == q;
  }

  /** A value is accepted in the type of its field and within its bounds, both included; where the field lists
      values, only if it prints as one of them does. */
  lemma ValueIff(f: Field, v: Value, other: Value -> string)
    ensures FieldAccepts(f, v, other) <==>
      && (match (f.kind, v)
          case (StringField, Text(_)) => true
          case (BooleanField, Bool(_)) => true
          case (NumberField, Number(n)) =>
            !(f.minimum.Some? && n < f.minimum.value) && !(f.maximum.Some? && n > f.maximum.value)
          case _ => false)
      && (f.enum != [] ==> exists listed | listed in f.enum :: Show(listed, other) == Show(v, other))
    ensures forall s: string :: Show(Text(s), other) == Show(Literal(s), other) == s
    ensures Show(Bool(true), other) == "true" && Show(Bool(false), other) == "false"
  {
  }

  /** An answer conforms when it has exactly the fields of the schema, each accepted. */
  lemma ConformsIff(result: Fields, schema: Schema, other: Value -> string)
    ensures Conforms(result, schema, other) <==>
      result.Keys == schema.Keys && forall name | name in result && name in schema ::
        FieldAccepts(schema[name], result[name], other)
  {
    assert (forall name :: name in result <==> name in schema) <==> result.Keys == schema.Keys;
  }
}
