/** Bounded questions asked of an OpenAI-compatible model (internal/model/decision.go:115-171): the
    questions become a flat schema, and the answers are read back through type assertions that are
    safe only because the retry loop returned a conforming object. */
module OpenAIDecision {
  import opened Domain
  import opened Interpretations
  import opened RetryLoop
  import opened Sums

  datatype Judgment = Chosen(option: string) | YesOrNo(yes: bool) | Scored(score: real)

  ghost predicate FieldFor(f: Field, q: Question)
    requires Normalizable(q)
  {
    match q.kind
    case Choice =>
      && f.kind == StringField && f.minimum.None? && f.maximum.None?
      && |f.enum| == |q.criteria.options|
      && (forall k | 0 <= k < |f.enum| :: f.enum[k].Text? && f.enum[k].s in q.criteria.options)
      && (forall o {:trigger Text(o)} | o in q.criteria.options :: Text(o) in f.enum)
    case Score =>
      f == Field(NumberField, [], Some(0.0), Some((|q.criteria.levels| - 1) as real))
    case _ =>
      f == Field(BooleanField, [], None, None)
  }

  ghost predicate SchemaFor(schema: Schema, questions: Questions)
    requires forall id | id in questions :: Normalizable(questions[id])
  {
    && schema.Keys == questions.Keys
    && forall id {:trigger FieldFor(schema[id], questions[id])} | id in questions :: FieldFor(schema[id], questions[id])
  }

  method OptionField(options: map<string, string>) returns (f: Field)
    ensures f.kind == StringField && f.minimum.None? && f.maximum.None?
    ensures |f.enum| == |options|
    ensures forall k | 0 <= k < |f.enum| :: f.enum[k].Text? && f.enum[k].s in options
    ensures forall o {:trigger Text(o)} | o in options :: Text(o) in f.enum
  {
    var keys := KeysOf(options);
    var texts: seq<Value> := [];
    for i := 0 to |keys|
      invariant |texts| == i && forall k | 0 <= k < i :: texts[k] == Text(keys[k])
    {
      texts := texts + [Text(keys[i])];
    }
    f := Field(StringField, texts, None, None);
    forall o | o in options ensures Text(o) in f.enum {
      var k :| 0 <= k < |keys| && keys[k] == o;
      assert texts[k] == Text(o);
    }
  }

  method QuestionField(q: Question) returns (f: Field)
    requires Normalizable(q)
    ensures FieldFor(f, q)
  {
    match q.kind {
      case Choice => f := OptionField(q.criteria.options);
      case Score => f := Field(NumberField, [], Some(0.0), Some((|q.criteria.levels| - 1) as real));
      case _ => f := Field(BooleanField, [], None, None);
    }
  }

  /** The schema half of Decide. Every kind the validator admits yields a field. */
  method BuildSchema(questions: Questions) returns (schema: Schema)
    requires forall id | id in questions :: Normalizable(questions[id])
    ensures SchemaFor(schema, questions)
  {
    schema := map[];
    var rest := questions.Keys;
    while rest != {}
      invariant rest <= questions.Keys && schema.Keys == questions.Keys - rest
      invariant forall id | id in schema :: FieldFor(schema[id], questions[id])
    {
      var id :| id in rest;
      var f := QuestionField(questions[id]);
      schema, rest := schema[id := f], rest - {id};
    }
  }

  /** What an answer to a configured question may be. */
  ghost predicate Answers(j: Judgment, q: Question) {
    match q.kind
    case Choice => q.criteria.Options? && j.Chosen? && j.option in q.criteria.options
    case Score => q.criteria.Levels? && j.Scored? && 0.0 <= j.score <= (|q.criteria.levels| - 1) as real
    case _ => j.YesOrNo?
  }

  /** The answer as the JSON value it was read from. */
  function Encoded(j: Judgment): Value {
    match j
    case Chosen(option) => Text(option)
    case YesOrNo(yes) => Bool(yes)
    case Scored(score) => Number(score)
  }

  /** v has the dynamic type that the assertion for q expects, and an admissible value. */
  ghost predicate AssertionHolds(q: Question, v: Value) {
    match q.kind
    case Choice => q.criteria.Options? && v.Text? && v.s in q.criteria.options
    case Score => q.criteria.Levels? && v.Number? && 0.0 <= v.n <= (|q.criteria.levels| - 1) as real
    case _ => v.Bool?
  }

  /** The field built for a question accepts exactly its answers: enum membership is compared by printed form,
      yet a chosen option is a configured one, and every configured one can be chosen. */
  lemma AcceptedAssertion(f: Field, q: Question, v: Value, other: Value -> string)
    requires Normalizable(q) && FieldFor(f, q)
    ensures FieldAccepts(f, v, other) <==> AssertionHolds(q, v)
  {
    if q.kind == Choice && AssertionHolds(q, v) {
      assert v == Text(v.s) && v in f.enum;
    }
  }

  /** So an object conforms to the schema exactly when it answers exactly the questions, each admissibly. */
  lemma ConformingAssertions(questions: Questions, schema: Schema, raw: Fields, other: Value -> string)
    requires forall id | id in questions :: Normalizable(questions[id])
    requires SchemaFor(schema, questions)
    ensures Conforms(raw, schema, other) <==>
      raw.Keys == questions.Keys && forall id | id in questions && id in raw :: AssertionHolds(questions[id], raw[id])
  {
    ConformsIff(raw, schema, other);
    forall id | id in questions && id in raw
      ensures FieldAccepts(schema[id], raw[id], other) <==> AssertionHolds(questions[id], raw[id])
    {
      assert FieldFor(schema[id], questions[id]);
      AcceptedAssertion(schema[id], questions[id], raw[id], other);
    }
  }

  /** An option of its choice, a level of its scale, or a plain yes or no; and an answer is the very value it
      was read from. */
  lemma AdmissibleIff(q: Question, option: string, score: real, yes: bool)
    requires Normalizable(q)
    ensures q.kind == Choice ==>
      && (AssertionHolds(q, Text(option)) <==> option in q.criteria.options)
      && !AssertionHolds(q, Bool(yes)) && !AssertionHolds(q, Number(score))
    ensures q.kind == Score ==>
      && (AssertionHolds(q, Number(score)) <==> 0.0 <= score <= (|q.criteria.levels| - 1) as real)
      && !AssertionHolds(q, Bool(yes)) && !AssertionHolds(q, Text(option))
    ensures q.kind == YesNo || q.kind == Noul ==>
      AssertionHolds(q, Bool(yes)) && !AssertionHolds(q, Text(option)) && !AssertionHolds(q, Number(score))
    ensures forall j: Judgment ::
      && (Encoded(j) == Text(option) <==> j == Chosen(option))
      && (Encoded(j) == Number(score) <==> j == Scored(score)) && (Encoded(j) == Bool(yes) <==> j == YesOrNo(yes))
  {
  }

  /** One answer. The destructors .s, .b and .n stand for the source's unchecked type assertions. */
  method ReadAnswer(q: Question, v: Value) returns (j: Judgment)
    requires AssertionHolds(q, v)
    ensures Answers(j, q) && Encoded(j) == v
  {
    if q.kind == Choice {
      j := Chosen(v.s);
    } else if q.kind == Score {
      j := Scored(v.n);
    } else {
      j := YesOrNo(v.b);
    }
  }

  /** The reading half of Decide, over the object the retry loop accepted. */
  method ReadAnswers(questions: Questions, raw: Fields) returns (answers: map<string, Judgment>)
    requires raw.Keys == questions.Keys && forall id | id in questions :: AssertionHolds(questions[id], raw[id])
    ensures answers.Keys == questions.Keys
    ensures forall id | id in questions :: Answers(answers[id], questions[id]) && Encoded(answers[id]) == raw[id]
  {
    answers := map[];
    var rest := questions.Keys;
    while rest != {}
      invariant rest <= questions.Keys && answers.Keys == questions.Keys - rest
      invariant forall id | id in answers :: Answers(answers[id], questions[id]) && Encoded(answers[id]) == raw[id]
    {
      var id :| id in rest;
      var j := ReadAnswer(questions[id], raw[id]);
      answers, rest := answers[id := j], rest - {id};
    }
  }

  /** The reply that ends the interpretation is an object the contract accepts. */
  predicate Ends(c: Contract, e: Endpoint, posts: seq<Post>, out: Outcome) {
    posts != [] && !out.Canceled? && c.Accepts(e.reply(|posts| - 1))
  }

  /** The loop succeeds exactly when it ends so, with the object of that reply. */
  lemma SuccessIsTheLastReply(c: Contract, e: Endpoint, budget: nat, posts: seq<Post>, out: Outcome)
    requires if budget > 0 then Trace(c, e, budget, posts, out) else posts == [] && out == InvalidOutput
    ensures out.Success? <==> Ends(c, e, posts, out)
    ensures out.Success? ==> out.result == e.reply(|posts| - 1).parsed.value && Conforms(out.result, c.schema, c.other)
  {
    if budget > 0 && !out.Canceled? {
      LastReplyDecides(c, e, budget, posts, out);
    }
  }

  /** Every question is answered by the value raw has for it. */
  ghost predicate AnsweredBy(answers: map<string, Judgment>, questions: Questions, raw: Fields) {
    && answers.Keys == questions.Keys == raw.Keys
    && forall id {:trigger AnswersFrom(answers, questions, raw, id)} | id in questions ::
         AnswersFrom(answers, questions, raw, id)
  }

  ghost predicate AnswersFrom(answers: map<string, Judgment>, questions: Questions, raw: Fields, id: string) {
    && id in answers && id in questions && id in raw
    && Answers(answers[id], questions[id]) && Encoded(answers[id]) == raw[id]
  }

  /** So the caller reads an option, a level or a yes or no exactly as the object has it. */
  lemma AnswersAreTheObjects(answers: map<string, Judgment>, questions: Questions, raw: Fields, id: string)
    requires AnsweredBy(answers, questions, raw) && id in questions
    ensures answers.Keys == questions.Keys && id in raw
    ensures var q := questions[id];
      match raw[id]
      case Text(s) => answers[id] == Chosen(s) && q.kind == Choice && q.criteria.Options? && s in q.criteria.options
      case Number(n) =>
        answers[id] == Scored(n) && q.kind == Score && q.criteria.Levels? && 0.0 <= n <= (|q.criteria.levels| - 1) as real
      case Bool(yes) => answers[id] == YesOrNo(yes) && q.kind != Choice && q.kind != Score
      case _ => false
  {
    assert AnswersFrom(answers, questions, raw, id);
  }

  method ReadConforming(questions: Questions, schema: Schema, raw: Fields, other: Value -> string)
    returns (answers: map<string, Judgment>)
    requires forall id | id in questions :: Normalizable(questions[id])
    requires SchemaFor(schema, questions) && Conforms(raw, schema, other)
    ensures AnsweredBy(answers, questions, raw)
  {
    ConformingAssertions(questions, schema, raw, other);
    answers := ReadAnswers(questions, raw);
  }

  /** Asking under a schema built for valid questions. */
  method Ask(questions: Questions, schema: Schema, e: Endpoint, budget: nat, other: Value -> string)
    returns (answers: Option<map<string, Judgment>>, out: Outcome, posts: seq<Post>)
    requires forall id | id in questions :: Normalizable(questions[id])
    requires SchemaFor(schema, questions)
    ensures budget > 0 ==> Trace(Contract(schema, other), e, budget, posts, out)
    ensures answers.Some? <==> out.Success?
    ensures out.Success? <==> Ends(Contract(schema, other), e, posts, out)
    ensures answers.Some? ==> AnsweredBy(answers.value, questions, e.reply(|posts| - 1).parsed.value)
  {
    out, posts := InterpretOpenAI(Contract(schema, other), e, budget);
    SuccessIsTheLastReply(Contract(schema, other), e, budget, posts, out);
    answers := None;
    if out.Success? {
      var read := ReadConforming(questions, schema, out.result, other);
      answers := Some(read);
    }
  }

  /** Decide, retry loop included. Invalid questions are never sent. Valid ones are asked under the schema
      built for them, and answered if and only if the loop's last reply is an object that conforms to it;
      every answer is then the very value in that reply, and no assertion can fail. */
  method Decide(questions: Questions, e: Endpoint, budget: nat, other: Value -> string)
    returns (answers: Option<map<string, Judgment>>, out: Outcome, schema: Schema, posts: seq<Post>)
    ensures !ValidQuestions(questions) ==> out == InvalidOutput && posts == []
    ensures ValidQuestions(questions) ==>
      SchemaFor(schema, questions) && (budget > 0 ==> Trace(Contract(schema, other), e, budget, posts, out))
    ensures answers.Some? <==> out.Success?
    ensures answers.Some? <==> ValidQuestions(questions) && Ends(Contract(schema, other), e, posts, out)
    ensures answers.Some? ==> AnsweredBy(answers.value, questions, e.reply(|posts| - 1).parsed.value)
  {
    answers, out, schema, posts := None, InvalidOutput, map[], [];
    if ValidQuestions(questions) {
      schema := BuildSchema(questions);
      answers, out, posts := Ask(questions, schema, e, budget, other);
    }
  }
}
