/** Probability-bearing answers: validation, normalization and the transport retry loop
    (internal/model/typesafe.go, internal/model/decision.go). Floats are modelled by reals. */
module SystemOne {
  import opened Domain
  import opened Interpretations
  import opened Sums

  /** One answer as decoded from the wire: the three shapes, or bytes that decode to none. */
  datatype Raw =
    | RawNoul(kind: Kind, noul: Option<real>)
    | RawChoice(kind: Kind, choice: string, probabilities: map<string, real>, confidence: Option<real>)
    | RawScore(kind: Kind, score: Option<real>, legend: map<string, string>,
               probabilities: map<string, real>, confidence: Option<real>)
    | Undecodable

  /** The provider-independent answer policy sees. */
  datatype Answer = Answer(kind: Kind, choice: string, value: Option<bool>, probability: Option<real>,
                           score: Option<real>, probabilities: map<string, real>, confidence: Option<real>,
                           noul: Option<real>, legend: map<string, string>)

  const EPSILON: real := 0.000000001
  const TOLERANCE: real := 0.01

  predicate UnitProbability(p: real) { 0.0 <= p <= 1.0 }

  function Abs(x: real): real { if x < 0.0 then -x else x }

  function At(p: map<string, real>): string -> real {
    (k: string) => if k in p then p[k] else 0.0
  }

  // ---- Probability distributions ----

  /** A distribution over exactly the given names, up to the accepted rounding. */
  ghost predicate Distribution(p: map<string, real>, names: set<string>) {
    && p.Keys == names
    && (forall k | k in p :: UnitProbability(p[k]))
    && Abs(SumSet(names, At(p)) - 1.0) <= TOLERANCE
  }

  lemma SumOneMore(keys: seq<string>, i: nat, f: string -> real)
    requires Distinct(keys) && i < |keys|
    ensures SumSet(Elements(keys[..i + 1]), f) == SumSet(Elements(keys[..i]), f) + f(keys[i])
  {
    assert keys[i] !in keys[..i];
    assert keys[..i + 1] == keys[..i] + [keys[i]];
    ElementsSnoc(keys[..i], keys[i]);
    Add(Elements(keys[..i]), f, keys[i]);
  }

  lemma AllAccounted(p: map<string, real>, keys: seq<string>)
    requires Distinct(keys) && |p| == |keys|
    requires forall j | 0 <= j < |keys| :: keys[j] in p && UnitProbability(p[keys[j]])
    ensures p.Keys == Elements(keys) && forall k | k in p :: UnitProbability(p[k])
  {
    Pigeonhole(keys, p.Keys);
    forall k | k in p ensures UnitProbability(p[k]) {
      assert k in Elements(keys);
      var j :| 0 <= j < |keys| && keys[j] == k;
    }
  }

  /** The check counts keys, looks each expected key up, and adds as it goes. The count plus the
      lookups leave no room for an unexpected key, and the order of the keys does not matter. */
  method ValidateProbabilities(p: map<string, real>, keys: seq<string>) returns (ok: bool)
    requires Distinct(keys)
    ensures ok <==> Distribution(p, Elements(keys))
  {
    DistinctCount(keys);
    if |p| != |keys| {
      assert p.Keys == Elements(keys) ==> |p.Keys| == |keys|;
      return false;
    }
    var sum := 0.0;
    for i := 0 to |keys|
      invariant forall j | 0 <= j < i :: keys[j] in p && UnitProbability(p[keys[j]])
      invariant sum == SumSet(Elements(keys[..i]), At(p))
    {
      var key := keys[i];
      assert key in Elements(keys);
      if key !in p || !UnitProbability(p[key]) {
        return false;
      }
      SumOneMore(keys, i, At(p));
      sum := sum + p[key];
    }
    assert keys[..|keys|] == keys;
    AllAccounted(p, keys);
    ok := Abs(sum - 1.0) <= TOLERANCE;
  }

  // ---- Choice ----

  ghost predicate ChoiceAccepted(a: Raw, options: map<string, string>) {
    && a.RawChoice? && a.kind == Choice
    && a.confidence.Some? && UnitProbability(a.confidence.value)
    && a.choice in options
    && Distribution(a.probabilities, options.Keys)
    && (forall o | o in a.probabilities :: a.probabilities[o] <= a.probabilities[a.choice] + EPSILON)
  }

  /** An accepted choice is never an unlikely one: with n options its probability is within
      rounding of 1/n or more. */
  lemma ChosenOptionIsLikely(a: Raw, options: map<string, string>)
    requires ChoiceAccepted(a, options)
    ensures |options| > 0
    ensures a.probabilities[a.choice] >= 0.99 / (|options| as real) - EPSILON
  {
    var n := |options.Keys| as real;
    var p := a.probabilities[a.choice];
    assert a.choice in options.Keys;
    UpperBound(options.Keys, At(a.probabilities), p + EPSILON);
    assert 0.99 <= n * (p + EPSILON);
    DivideBy(0.99, n, p + EPSILON);
  }

  lemma DivideBy(x: real, n: real, y: real)
    requires n > 0.0 && x <= n * y
    ensures x / n <= y
  {
  }

  // ---- Score ----

  /** Level indices are single digits: a score question has at most ten levels. */
  function LevelKey(i: nat): string
    requires i < 10
  {
    [('0' as int + i) as char]
  }

  function LevelKeys(n: nat): (keys: seq<string>)
    requires n <= 10
  {
    seq(n, i requires 0 <= i < n => LevelKey(i))
  }

  lemma LevelKeysDistinct(n: nat)
    requires n <= 10
    ensures Distinct(LevelKeys(n))
  {
  }

  /** The probability-weighted level among the first n. */
  function Expected(p: map<string, real>, n: nat): real
    requires n <= 10
  {
    if n == 0 then 0.0 else Expected(p, n - 1) + (n - 1) as real * At(p)(LevelKey(n - 1))
  }

  ghost predicate ScoreAccepted(a: Raw, levels: seq<string>)
    requires |levels| <= 10
  {
    && a.RawScore? && a.kind == Score
    && a.score.Some? && 0.0 <= a.score.value <= (|levels| - 1) as real
    && a.confidence.Some? && UnitProbability(a.confidence.value)
    && a.legend.Keys == Elements(LevelKeys(|levels|))
    && (forall i | 0 <= i < |levels| :: LevelKey(i) in a.legend && a.legend[LevelKey(i)] == levels[i])
    && Distribution(a.probabilities, Elements(LevelKeys(|levels|)))
    && Abs(Expected(a.probabilities, |levels|) - a.score.value) <= TOLERANCE
  }

  // ---- One answer ----

  ghost predicate NoulAccepted(a: Raw) {
    a.RawNoul? && a.kind == Noul && a.noul.Some? && UnitProbability(a.noul.value)
  }

  ghost predicate Accepted(a: Raw, q: Question)
    requires Normalizable(q)
  {
    match q.kind
    case Noul => NoulAccepted(a)
    case Choice => ChoiceAccepted(a, q.criteria.options)
    case Score => ScoreAccepted(a, q.criteria.levels)
    case _ => false
  }

  /** An accepted answer before normalization. */
  function Decoded(a: Raw): Answer {
    match a
    case RawNoul(kind, noul) => Answer(kind, "", None, None, None, map[], None, noul, map[])
    case RawChoice(kind, choice, p, conf) => Answer(kind, choice, None, None, None, p, conf, None, map[])
    case RawScore(kind, score, legend, p, conf) => Answer(kind, "", None, None, score, p, conf, None, legend)
    case Undecodable => Answer(OtherKind(""), "", None, None, None, map[], None, None, map[])
  }

  // ---- What is accepted, number by number ----

  /** Probabilities are between 0 and 1, one for each name, and add up to 1 within a hundredth. */
  lemma DistributionIff(p: map<string, real>, names: set<string>)
    ensures Distribution(p, names) <==>
      && p.Keys == names && (forall k | k in p :: 0.0 <= p[k] <= 1.0)
      && 0.99 <= SumSet(names, At(p)) <= 1.01
  {
  }

  /** A choice is accepted with a confidence between 0 and 1, for a configured option that no other outdoes by
      more than a billionth. */
  lemma ChoiceIff(kind: Kind, choice: string, p: map<string, real>, confidence: Option<real>, q: Question)
    requires Normalizable(q) && q.kind == Choice
    ensures Accepted(RawChoice(kind, choice, p, confidence), q) <==>
      && kind == Choice && confidence.Some? && 0.0 <= confidence.value <= 1.0
      && choice in q.criteria.options && Distribution(p, q.criteria.options.Keys)
      && (forall o | o in p :: p[o] - p[choice] <= 0.000000001)
    ensures forall a | Accepted(a, q) :: a.RawChoice?
  {
  }

  /** A score is accepted with a confidence between 0 and 1, on the scale of its levels, under the configured
      legend, and within a hundredth of the level its probabilities expect. */
  lemma ScoreIff(kind: Kind, score: Option<real>, legend: map<string, string>, p: map<string, real>,
                 confidence: Option<real>, q: Question)
    requires Normalizable(q) && q.kind == Score
    ensures var levels := q.criteria.levels;
      Accepted(RawScore(kind, score, legend, p, confidence), q) <==>
      && kind == Score && confidence.Some? && 0.0 <= confidence.value <= 1.0
      && score.Some? && 0.0 <= score.value <= (|levels| - 1) as real
      && legend.Keys == Elements(LevelKeys(|levels|)) == p.Keys
      && (forall i | 0 <= i < |levels| :: LevelKey(i) in legend && legend[LevelKey(i)] == levels[i])
      && Distribution(p, p.Keys)
      && score.value - 0.01 <= Expected(p, |levels|) <= score.value + 0.01
    ensures forall a | Accepted(a, q) :: a.RawScore?
  {
  }

  /** A yes-or-no answer is accepted with a probability between 0 and 1, under the one name it is asked by. */
  lemma NoulIff(kind: Kind, noul: Option<real>, q: Question)
    requires Normalizable(q) && q.kind == Noul
    ensures Accepted(RawNoul(kind, noul), q) <==> kind == Noul && noul.Some? && 0.0 <= noul.value <= 1.0
    ensures forall a | Accepted(a, q) :: a.RawNoul?
  {
  }

  /** A question is answered under its wire name only. */
  lemma PortableNameIsUnanswered(a: Raw, q: Question)
    requires Normalizable(q)
    ensures Accepted(a, q) ==> q.kind in [Choice, Score, Noul]
  {
  }

  /** The levels are named by their digits. */
  lemma LevelNames(i: nat)
    requires i < 10
    ensures LevelKey(i) == ["0", "1", "2", "3", "4", "5", "6", "7", "8", "9"][i]
  {
  }

  /** The expected level is 0 of nothing, and gives each level's probability the weight of its number. */
  lemma {:induction false} NothingIsExpected(n: nat)
    requires n <= 10
    ensures Expected(map[], n) == 0.0
  {
    if n > 0 {
      NothingIsExpected(n - 1);
      Weighs(n - 1, 0.0, 0.0);
    }
  }

  lemma {:induction false} LevelsAreWeighed(p: map<string, real>, n: nat, i: nat, x: real)
    requires i < n <= 10
    ensures Expected(p[LevelKey(i) := x], n)
         == Expected(p, n) + i as real * (x - if LevelKey(i) in p then p[LevelKey(i)] else 0.0)
  {
    if i == n - 1 {
      HigherLevelIsUnread(p, n - 1, i, x);
      Weighs(i, x, At(p)(LevelKey(i)));
    } else {
      LevelsAreWeighed(p, n - 1, i, x);
      assert LevelKey(n - 1) != LevelKey(i);
    }
  }

  lemma Weighs(i: nat, x: real, y: real)
    ensures i as real * x == i as real * y + i as real * (x - y)
    ensures i as real * 0.0 == 0.0
  {
  }

  lemma {:induction false} HigherLevelIsUnread(p: map<string, real>, n: nat, i: nat, x: real)
    requires n <= i < 10
    ensures Expected(p[LevelKey(i) := x], n) == Expected(p, n)
  {
    if n > 0 {
      HigherLevelIsUnread(p, n - 1, i, x);
      assert LevelKey(n - 1) != LevelKey(i);
    }
  }

  /** A missing legend entry reads as "", which no configured level can equal: the lookups plus the
      count pin the legend to the criteria. */
  method ValidateLegend(legend: map<string, string>, levels: seq<string>) returns (ok: bool)
    requires |levels| <= 10 && forall level | level in levels :: !Blank(level)
    ensures ok <==> legend.Keys == Elements(LevelKeys(|levels|))
                    && forall i | 0 <= i < |levels| :: LevelKey(i) in legend && legend[LevelKey(i)] == levels[i]
  {
    ghost var keys := LevelKeys(|levels|);
    for i := 0 to |levels|
      invariant forall j | 0 <= j < i :: LevelKey(j) in legend && legend[LevelKey(j)] == levels[j]
    {
      var found := if LevelKey(i) in legend then legend[LevelKey(i)] else "";
      assert levels[i] in levels && levels[i] != "";
      if found != levels[i] {
        return false;
      }
    }
    LevelKeysDistinct(|levels|);
    DistinctCount(keys);
    ok := |legend| == |levels|;
    if ok {
      assert forall k | k in keys :: k in legend.Keys;
      Pigeonhole(keys, legend.Keys);
    } else {
      assert legend.Keys == Elements(keys) ==> |legend.Keys| == |keys|;
    }
  }

  method ValidateChoice(a: Raw, options: map<string, string>) returns (ok: bool)
    ensures ok <==> ChoiceAccepted(a, options)
  {
    if !a.RawChoice? || a.kind != Choice || a.confidence.None? || !UnitProbability(a.confidence.value)
       || a.choice !in options {
      return false;
    }
    var keys := KeysOf(options);
    assert Elements(keys) == options.Keys;
    ok := ValidateProbabilities(a.probabilities, keys);
    if ok && exists o | o in a.probabilities :: a.probabilities[o] > a.probabilities[a.choice] + EPSILON {
      return false;
    }
  }

  method ExpectedLevel(p: map<string, real>, n: nat) returns (expected: real)
    requires n <= 10
    ensures expected == Expected(p, n)
  {
    expected := 0.0;
    for i := 0 to n
      invariant expected == Expected(p, i)
    {
      expected := expected + i as real * At(p)(LevelKey(i));
    }
  }

  /** A distribution over exactly the levels whose expected level is close to the score. */
  method ValidateExpectation(probabilities: map<string, real>, score: real, n: nat) returns (ok: bool)
    requires n <= 10
    ensures ok <==> Distribution(probabilities, Elements(LevelKeys(n)))
                    && Abs(Expected(probabilities, n) - score) <= TOLERANCE
  {
    LevelKeysDistinct(n);
    ok := ValidateProbabilities(probabilities, LevelKeys(n));
    if !ok {
      return;
    }
    var expected := ExpectedLevel(probabilities, n);
    ok := Abs(expected - score) <= TOLERANCE;
  }

  method ValidateScore(a: Raw, levels: seq<string>) returns (ok: bool)
    requires |levels| <= 10 && forall level | level in levels :: !Blank(level)
    ensures ok <==> ScoreAccepted(a, levels)
  {
    if !a.RawScore? || a.kind != Score || a.score.None? || a.confidence.None?
       || !UnitProbability(a.confidence.value)
       || a.score.value < 0.0 || a.score.value > (|levels| - 1) as real {
      return false;
    }
    ok := ValidateLegend(a.legend, levels);
    if !ok {
      return;
    }
    ok := ValidateExpectation(a.probabilities, a.score.value, |levels|);
  }

  method ValidateAnswer(a: Raw, q: Question) returns (r: Option<Answer>)
    requires Normalizable(q)
    ensures r == if Accepted(a, q) then Some(Decoded(a)) else None
  {
    var ok := false;
    match q.kind {
      case Noul =>
        ok := a.RawNoul? && a.kind == Noul && a.noul.Some? && UnitProbability(a.noul.value);
      case Choice =>
        ok := ValidateChoice(a, q.criteria.options);
      case Score =>
        ok := ValidateScore(a, q.criteria.levels);
      case _ =>
    }
    r := if ok then Some(Decoded(a)) else None;
  }

  // ---- The whole response ----

  datatype Response = Response(model: string, answers: map<string, Raw>)

  /** yes_no is sent under its wire name. */
  function Wire(q: Question): (w: Question)
    ensures Normalizable(q) ==> Normalizable(w)
  {
    if q.kind == YesNo then q.(kind := Noul) else q
  }

  ghost predicate ResponseAccepted(r: Response, wire: Questions)
    requires forall id | id in wire :: Normalizable(wire[id])
  {
    && r.model != ""
    && r.answers.Keys == wire.Keys
    && (forall id | id in wire :: Accepted(r.answers[id], wire[id]))
  }

  ghost predicate Validated(result: map<string, Answer>, r: Response, wire: Questions, id: string)
    requires forall id | id in wire :: Normalizable(wire[id])
  {
    && id in result && id in wire && id in r.answers
    && Accepted(r.answers[id], wire[id]) && result[id] == Decoded(r.answers[id])
  }

  lemma StillValidated(result: map<string, Answer>, r: Response, wire: Questions, k: string, id: string, answer: Answer)
    requires forall id | id in wire :: Normalizable(wire[id])
    requires Validated(result, r, wire, k) && k != id
    ensures Validated(result[id := answer], r, wire, k)
  {
  }

  method ValidateResponse(r: Response, wire: Questions) returns (out: Option<map<string, Answer>>)
    requires forall id | id in wire :: Normalizable(wire[id])
    ensures out.Some? <==> ResponseAccepted(r, wire)
    ensures out.Some? ==> out.value.Keys == wire.Keys
    ensures out.Some? ==> forall id | id in wire :: out.value[id] == Decoded(r.answers[id])
  {
    if r.model == "" || |r.answers| != |wire| {
      assert r.answers.Keys == wire.Keys ==> |r.answers.Keys| == |wire.Keys|;
      return None;
    }
    var result: map<string, Answer> := map[];
    var rest := wire.Keys;
    while rest != {}
      invariant rest <= wire.Keys && result.Keys == wire.Keys - rest
      invariant forall id {:trigger Validated(result, r, wire, id)} | id in wire && id !in rest ::
        Validated(result, r, wire, id)
    {
      var id :| id in rest;
      if id !in r.answers {
        return None;
      }
      var answer := ValidateAnswer(r.answers[id], wire[id]);
      if answer.None? {
        return None;
      }
      ghost var before := result;
      result := result[id := answer.value];
      rest := rest - {id};
      forall k | k in wire && k !in rest ensures Validated(result, r, wire, k) {
        if k != id {
          StillValidated(before, r, wire, k, id, answer.value);
        }
      }
    }
    forall id | id in wire ensures id in r.answers && Accepted(r.answers[id], wire[id]) && result[id] == Decoded(r.answers[id]) {
      assert Validated(result, r, wire, id);
    }
    SameSize(wire.Keys, r.answers.Keys);
    return Some(result);
  }

  /** Normalization of an accepted answer. The source dereferences noul whenever the decoded type is
      "noul"; the precondition is what makes that safe. */
  function Normalize(a: Answer): (n: Answer)
    requires a.kind == Noul ==> a.noul.Some?
    ensures a.kind == Noul ==>
      n.kind == YesNo && n.probability == a.noul && n.value == Some(a.noul.value >= 0.5)
    ensures a.kind != Noul ==> n == a
  {
    if a.kind == Noul
    then a.(kind := YesNo, probability := a.noul, value := Some(a.noul.value >= 0.5))
    else a
  }

  /** What a caller may assume about the answer to one configured question. */
  ghost predicate Judged(n: Answer, q: Question)
    requires Normalizable(q)
  {
    match q.kind
    case Choice =>
      && n.kind == Choice && n.choice in q.criteria.options && n.confidence.Some? && UnitProbability(n.confidence.value)
      && Distribution(n.probabilities, q.criteria.options.Keys)
      && n.probabilities[n.choice] >= 0.99 / (|q.criteria.options| as real) - EPSILON
    case Score =>
      && n.kind == Score && n.score.Some? && 0.0 <= n.score.value <= (|q.criteria.levels| - 1) as real
      && n.confidence.Some? && UnitProbability(n.confidence.value)
      && (forall i | 0 <= i < |q.criteria.levels| ::
        LevelKey(i) in n.legend && n.legend[LevelKey(i)] == q.criteria.levels[i])
      && Distribution(n.probabilities, Elements(LevelKeys(|q.criteria.levels|)))
      && Abs(Expected(n.probabilities, |q.criteria.levels|) - n.score.value) <= TOLERANCE
    case OtherKind(_) => false
    case _ =>
      && n.kind == YesNo && n.probability.Some? && UnitProbability(n.probability.value)
      && n.value == Some(n.probability.value >= 0.5)
  }

  lemma AcceptedIsJudged(a: Raw, q: Question)
    requires Normalizable(q) && Accepted(a, Wire(q))
    ensures Decoded(a).kind == Noul ==> Decoded(a).noul.Some?
    ensures Judged(Normalize(Decoded(a)), q)
  {
    if q.kind == Choice {
      ChosenOptionIsLikely(a, q.criteria.options);
    }
  }

  function WireQuestions(questions: Questions): (wire: Questions)
    requires forall id | id in questions :: Normalizable(questions[id])
    ensures forall id | id in wire :: Normalizable(wire[id])
  {
    map id | id in questions :: Wire(questions[id])
  }

  ghost predicate Answers(reply: Response, questions: Questions)
    requires forall id | id in questions :: Normalizable(questions[id])
  {
    ResponseAccepted(reply, WireQuestions(questions))
  }

  /** No dereference of a missing noul can happen while normalizing these answers. */
  ghost predicate DereferenceSafe(raw: map<string, Answer>) {
    forall id | id in raw :: raw[id].kind == Noul ==> raw[id].noul.Some?
  }

  ghost predicate AllJudged(answers: map<string, Answer>, questions: Questions)
    requires forall id | id in questions :: Normalizable(questions[id])
  {
    answers.Keys == questions.Keys && forall id | id in questions :: Judged(answers[id], questions[id])
  }

  ghost function Normalized(raw: map<string, Answer>): map<string, Answer>
    requires DereferenceSafe(raw)
  {
    map id | id in raw :: Normalize(raw[id])
  }

  lemma AnswerIsJudged(reply: Response, questions: Questions, id: string)
    requires forall id | id in questions :: Normalizable(questions[id])
    requires Answers(reply, questions) && id in questions
    ensures id in reply.answers
    ensures Decoded(reply.answers[id]).kind == Noul ==> Decoded(reply.answers[id]).noul.Some?
    ensures Judged(Normalize(Decoded(reply.answers[id])), questions[id])
  {
    assert id in WireQuestions(questions) && Accepted(reply.answers[id], Wire(questions[id]));
    AcceptedIsJudged(reply.answers[id], questions[id]);
  }

  lemma AcceptedAreJudged(reply: Response, questions: Questions, raw: map<string, Answer>)
    requires forall id | id in questions :: Normalizable(questions[id])
    requires Answers(reply, questions) && reply.answers.Keys == questions.Keys
    requires raw.Keys == questions.Keys
    requires forall id | id in raw :: raw[id] == Decoded(reply.answers[id])
    ensures DereferenceSafe(raw) && AllJudged(Normalized(raw), questions)
  {
    forall id | id in raw
      ensures raw[id].kind == Noul ==> raw[id].noul.Some?
    {
      AnswerIsJudged(reply, questions, id);
    }
    forall id | id in questions
      ensures Judged(Normalized(raw)[id], questions[id])
    {
      AnswerIsJudged(reply, questions, id);
    }
  }

  method NormalizeAll(raw: map<string, Answer>) returns (answers: map<string, Answer>)
    requires DereferenceSafe(raw)
    ensures answers == Normalized(raw)
  {
    answers := map[];
    var rest := raw.Keys;
    while rest != {}
      invariant rest <= raw.Keys
      invariant answers == map id | id in raw.Keys - rest :: Normalize(raw[id])
    {
      var id :| id in rest;
      answers := answers[id := Normalize(raw[id])];
      rest := rest - {id};
    }
  }

  /** out answers id as the reply does. */
  ghost predicate AnswersAs(out: map<string, Answer>, reply: Response, id: string) {
    && id in out && id in reply.answers
    && (Decoded(reply.answers[id]).kind == Noul ==> Decoded(reply.answers[id]).noul.Some?)
    && out[id] == Normalize(Decoded(reply.answers[id]))
  }

  // ---- The transport retry loop ----

  const RETRY_BACKOFF: nat := 250
  const MAX_DELAY: nat := 5000

  /** One post's fate: a body, which may not decode as one response; a status, which may carry a
      Retry-After in milliseconds, 0 when absent; or no reply. */
  datatype Reply = Body(response: Option<Response>) | Status(code: int, retryAfter: nat) | Network
  datatype Outcome = Success(raw: map<string, Answer>) | InvalidOutput | TransportFailure | Canceled
  datatype Endpoint = Endpoint(reply: nat -> Reply, canceled: nat -> bool)

  predicate Retriable(r: Reply) {
    r.Network? || (r.Status? && (r.code == 429 || r.code >= 500))
  }

  function RetryAfter(r: Reply): nat { if r.Status? then r.retryAfter else 0 }

  function Min(a: nat, b: nat): nat { if a < b then a else b }

  function Power2(k: nat): (p: nat)
    ensures p >= 1
  {
    if k == 0 then 1 else 2 * Power2(k - 1)
  }

  /** What the k-th wait is before the cap: twice the one before it, or what this reply asks if longer. */
  function Uncapped(e: Endpoint, k: nat): nat {
    var floor := if k == 0 then RETRY_BACKOFF else 2 * Uncapped(e, k - 1);
    if RetryAfter(e.reply(k)) > floor then RetryAfter(e.reply(k)) else floor
  }

  predicate WaitOk(e: Endpoint, k: nat, delay: nat) {
    delay == Min(MAX_DELAY, Uncapped(e, k))
  }

  ghost predicate Waits(e: Endpoint, sleeps: seq<nat>) {
    forall k | 0 <= k < |sleeps| :: WaitOk(e, k, sleeps[k])
  }

  /** The loop's update of its delay after a retriable failure. */
  function NextDelay(delay: nat, r: Reply): nat {
    Min(MAX_DELAY, if RetryAfter(r) > delay then RetryAfter(r) else delay)
  }

  /** Capping after every failure, as the loop does, is capping once. */
  lemma DelayGrows(e: Endpoint, k: nat, before: nat)
    requires k == 0 ==> before == RETRY_BACKOFF
    requires k > 0 ==> before % 2 == 0 && WaitOk(e, k - 1, before / 2)
    ensures WaitOk(e, k, NextDelay(before, e.reply(k)))
  {
  }

  /** How long the k-th wait of e would be if the j-th reply decided it: what that reply asked for,
      doubled once for each failure since. */
  function Asked(e: Endpoint, j: nat, k: nat): nat
    requires j <= k
  {
    (match e.reply(j) case Status(_, retryAfter) => retryAfter case _ => 0) * Power2(k - j)
  }

  /** The k-th wait is the longest of a quarter second doubled k times and of what the replies so far asked
      for, each doubled since, and never more than five seconds. */
  lemma WaitIsExact(e: Endpoint, sleeps: seq<nat>, k: nat)
    requires Waits(e, sleeps) && k < |sleeps|
    ensures sleeps[k] <= 5000 && Min(5000, 250 * Power2(k)) <= sleeps[k]
    ensures forall j | 0 <= j <= k :: Min(5000, Asked(e, j, k)) <= sleeps[k]
    ensures sleeps[k] == Min(5000, 250 * Power2(k)) || exists j | 0 <= j <= k :: sleeps[k] == Min(5000, Asked(e, j, k))
  {
    UncappedIsLongest(e, k);
  }

  lemma {:induction false} UncappedIsLongest(e: Endpoint, k: nat)
    ensures 250 * Power2(k) <= Uncapped(e, k)
    ensures forall j | 0 <= j <= k :: Asked(e, j, k) <= Uncapped(e, k)
    ensures Uncapped(e, k) == 250 * Power2(k) || exists j | 0 <= j <= k :: Uncapped(e, k) == Asked(e, j, k)
  {
    AskedAtOnce(e, k);
    if k > 0 {
      UncappedIsLongest(e, k - 1);
      forall j | 0 <= j < k ensures Asked(e, j, k) == 2 * Asked(e, j, k - 1) {
        AskedDoubles(e, j, k);
      }
      if Uncapped(e, k) != Asked(e, k, k) && Uncapped(e, k - 1) != 250 * Power2(k - 1) {
        var j :| 0 <= j <= k - 1 && Uncapped(e, k - 1) == Asked(e, j, k - 1);
        assert Uncapped(e, k) == Asked(e, j, k);
      }
    }
  }

  lemma AskedAtOnce(e: Endpoint, k: nat)
    ensures Asked(e, k, k) == RetryAfter(e.reply(k))
  {
  }

  lemma AskedDoubles(e: Endpoint, j: nat, k: nat)
    requires j < k
    ensures Asked(e, j, k) == 2 * Asked(e, j, k - 1)
  {
    Doubles(RetryAfter(e.reply(j)), Power2(k - 1 - j));
    assert Power2(k - j) == 2 * Power2(k - 1 - j);
  }

  lemma Doubles(x: nat, y: nat)
    ensures x * (2 * y) == 2 * (x * y)
  {
  }

  /** Left to itself the loop waits 250, 500, 1000, 2000 and 4000 milliseconds, and five seconds from then on. */
  lemma PlainWaits(e: Endpoint, sleeps: seq<nat>, k: nat)
    requires Waits(e, sleeps) && k < |sleeps| && forall j | 0 <= j <= k :: RetryAfter(e.reply(j)) == 0
    ensures sleeps[k] == if k < 5 then [250, 500, 1000, 2000, 4000][k] else 5000
  {
    PlainlyDoubles(e, k);
  }

  lemma {:induction false} PlainlyDoubles(e: Endpoint, k: nat)
    requires forall j | 0 <= j <= k :: RetryAfter(e.reply(j)) == 0
    ensures if k < 5 then Uncapped(e, k) == [250, 500, 1000, 2000, 4000][k] else Uncapped(e, k) >= 5000
  {
    if k > 0 {
      PlainlyDoubles(e, k - 1);
    }
  }

  /** A body that the validators accept against the questions sent. */
  ghost predicate Acceptable(r: Reply, wire: Questions)
    requires forall id | id in wire :: Normalizable(wire[id])
  {
    r.Body? && r.response.Some? && ResponseAccepted(r.response.value, wire)
  }

  /** raw holds the answers of an acceptable body, decoded. */
  ghost predicate Decodes(raw: map<string, Answer>, r: Reply, wire: Questions)
    requires forall id | id in wire :: Normalizable(wire[id])
  {
    && Acceptable(r, wire) && raw.Keys == wire.Keys
    && forall id | id in wire :: raw[id] == Decoded(r.response.value.answers[id])
  }

  /** What the last reply, given to the last of posts requests, makes of the interpretation. */
  ghost predicate Classifies(out: Outcome, e: Endpoint, posts: nat, budget: nat, wire: Questions)
    requires posts >= 1 && forall id | id in wire :: Normalizable(wire[id])
  {
    var last := e.reply(posts - 1);
    match out
    case Canceled => posts < budget && Retriable(last) && e.canceled(posts)
    case TransportFailure => !last.Body? && (Retriable(last) ==> posts == budget)
    case Success(raw) => Decodes(raw, last, wire)
    case InvalidOutput => last.Body? && !Acceptable(last, wire)
  }

  /** posts requests were sent: each but the last met a failure worth another, no wait between them was
      interrupted, and the last decides. */
  ghost predicate Ran(out: Outcome, e: Endpoint, posts: nat, budget: nat, wire: Questions)
    requires forall id | id in wire :: Normalizable(wire[id])
  {
    && 1 <= posts <= budget
    && (forall k | 0 <= k < posts - 1 :: Retriable(e.reply(k)))
    && (forall k | 0 < k < posts :: !e.canceled(k))
    && Classifies(out, e, posts, budget, wire)
  }

  /** No reply, a 429 and a status of 500 or more are worth another post: it follows unless the budget is
      spent or the wait is interrupted. Any other status ends the loop, and so does every body, accepted or
      not: there is no correction turn. */
  lemma EachReplyDecides(out: Outcome, e: Endpoint, posts: nat, budget: nat, wire: Questions, k: nat)
    requires forall id | id in wire :: Normalizable(wire[id])
    requires Ran(out, e, posts, budget, wire) && k < posts
    ensures var (r, next) := (e.reply(k), k + 1);
      var again := match r
        case Network => true
        case Status(code, _) => code == 429 || code >= 500
        case Body(_) => false;
      if again && next < budget && !e.canceled(next) then posts > next
      else posts == next && if again && next < budget then out == Canceled
                            else if !r.Body? then out == TransportFailure
                            else out == InvalidOutput || (out.Success? && Decodes(out.raw, r, wire))
    ensures e.reply(k).Body? ==> (out.Success? <==> Acceptable(e.reply(k), wire))
  {
  }

  /** Transient failures are ridden out: however many precede it within the budget, an acceptable body is
      asked for and its answers returned. */
  lemma {:induction false} TransientFailuresAreRetried(out: Outcome, e: Endpoint, posts: nat, budget: nat,
                                                       wire: Questions, k: nat)
    requires forall id | id in wire :: Normalizable(wire[id])
    requires Ran(out, e, posts, budget, wire) && k < budget
    requires forall i | 0 <= i < k :: match e.reply(i)
      case Network => true
      case Status(code, _) => code == 429 || code >= 500
      case Body(_) => false
    requires forall i | 0 < i <= k :: !e.canceled(i)
    ensures posts > k
    ensures Acceptable(e.reply(k), wire) ==> posts == k + 1 && out.Success? && Decodes(out.raw, e.reply(k), wire)
  {
    if k > 0 {
      TransientFailuresAreRetried(out, e, posts, budget, wire, k - 1);
      EachReplyDecides(out, e, posts, budget, wire, k - 1);
    }
    EachReplyDecides(out, e, posts, budget, wire, k);
  }

  method Classify(r: Reply, wire: Questions) returns (out: Outcome)
    requires r.Body? && forall id | id in wire :: Normalizable(wire[id])
    ensures out.Success? || out == InvalidOutput
    ensures if out.Success? then Decodes(out.raw, r, wire) else !Acceptable(r, wire)
  {
    if r.response.None? {
      return InvalidOutput;
    }
    var raw := ValidateResponse(r.response.value, wire);
    out := if raw.None? then InvalidOutput else Success(raw.value);
  }

  /** posts is how many requests were sent. The loop stops at the first reply that more posts cannot
      improve, or when the budget is spent; a body is validated against the questions sent. */
  method Interpret(e: Endpoint, budget: nat, wire: Questions) returns (out: Outcome, posts: nat, sleeps: seq<nat>)
    requires budget >= 1 && forall id | id in wire :: Normalizable(wire[id])
    ensures Ran(out, e, posts, budget, wire)
    ensures Waits(e, sleeps) && |sleeps| == if out.Canceled? then posts else posts - 1
  {
    var delay: nat := RETRY_BACKOFF;
    sleeps := [];
    for attempt := 0 to budget
      invariant attempt < budget || attempt == 0
      invariant attempt == 0 ==> sleeps == [] && delay == RETRY_BACKOFF
      invariant attempt > 0 ==> |sleeps| == attempt - 1 && WaitOk(e, attempt - 1, delay)
      invariant Waits(e, sleeps)
      invariant forall k | 0 <= k < attempt :: Retriable(e.reply(k))
      invariant forall k | 0 < k < attempt :: !e.canceled(k)
    {
      if attempt > 0 {
        sleeps := sleeps + [delay];
        if e.canceled(attempt) {
          return Canceled, attempt, sleeps;
        }
        delay := delay * 2;
      }
      DelayGrows(e, attempt, delay);
      posts := attempt + 1;
      var r := e.reply(attempt);
      if r.Body? {
        out := Classify(r, wire);
        return;
      }
      if r.Status? && r.code != 429 && r.code < 500 {
        return TransportFailure, posts, sleeps;
      }
      if r.Status? && r.retryAfter > delay {
        delay := r.retryAfter;
      }
      if delay > MAX_DELAY {
        delay := MAX_DELAY;
      }
      if attempt == budget - 1 {
        return TransportFailure, posts, sleeps;
      }
    }
    assert false;
  }

  // ---- The provider's Decide ----

  /** The body that ended the interpretation answers the questions. */
  ghost predicate Answered(e: Endpoint, posts: nat, out: Outcome, questions: Questions)
    requires forall id | id in questions :: Normalizable(questions[id])
  {
    && posts >= 1 && !out.Canceled? && e.reply(posts - 1).Body? && e.reply(posts - 1).response.Some?
    && Answers(e.reply(posts - 1).response.value, questions)
  }

  lemma SuccessIsTheBody(out: Outcome, e: Endpoint, posts: nat, budget: nat, questions: Questions)
    requires posts >= 1 && forall id | id in questions :: Normalizable(questions[id])
    requires Classifies(out, e, posts, budget, WireQuestions(questions))
    ensures out.Success? <==> Answered(e, posts, out, questions)
    ensures out.Success? ==> Decodes(out.raw, e.reply(posts - 1), WireQuestions(questions))
  {
  }

  /** In particular the reply names its model and answers every question that was asked, a yes-or-no one
      under its wire name, and nothing else. */
  lemma AnsweredExactly(e: Endpoint, posts: nat, out: Outcome, questions: Questions)
    requires forall id | id in questions :: Normalizable(questions[id])
    requires posts >= 1 && !out.Canceled? && e.reply(posts - 1).Body? && e.reply(posts - 1).response.Some?
    ensures var reply := e.reply(posts - 1).response.value;
      Answered(e, posts, out, questions) <==>
      && reply.model != "" && reply.answers.Keys == questions.Keys
      && forall id | id in questions && id in reply.answers ::
           var q := questions[id];
           Accepted(reply.answers[id], if q.kind == YesNo then Question(Noul, q.instructions, q.criteria) else q)
  {
    assert WireQuestions(questions).Keys == questions.Keys;
  }

  /** The answers are those of reply, normalized, one for each question. */
  ghost predicate AnsweredBy(answers: map<string, Answer>, questions: Questions, reply: Response) {
    && answers.Keys == questions.Keys
    && forall id {:trigger AnswersAs(answers, reply, id)} | id in questions :: AnswersAs(answers, reply, id)
  }

  /** So the caller reads, field by field, what the reply says of each question. */
  lemma AnswersAreTheReplys(answers: map<string, Answer>, questions: Questions, reply: Response, id: string)
    requires AnsweredBy(answers, questions, reply) && id in questions
    ensures answers.Keys == questions.Keys && id in reply.answers
    ensures match reply.answers[id]
      case RawChoice(Choice, choice, p, confidence) =>
        answers[id] == Answer(Choice, choice, None, None, None, p, confidence, None, map[])
      case RawScore(Score, score, legend, p, confidence) =>
        answers[id] == Answer(Score, "", None, None, score, p, confidence, None, legend)
      case RawNoul(Noul, Some(noul)) =>
        answers[id] == Answer(YesNo, "", Some(noul >= 0.5), Some(noul), None, map[], None, Some(noul), map[])
      case _ => true
  {
    assert AnswersAs(answers, reply, id);
  }

  method NormalizeReply(questions: Questions, r: Reply, raw: map<string, Answer>) returns (answers: map<string, Answer>)
    requires forall id | id in questions :: Normalizable(questions[id])
    requires Decodes(raw, r, WireQuestions(questions))
    ensures AllJudged(answers, questions) && AnsweredBy(answers, questions, r.response.value)
  {
    ghost var reply := r.response.value;
    AcceptedAreJudged(reply, questions, raw);
    answers := NormalizeAll(raw);
    forall id | id in questions ensures AnswersAs(answers, reply, id) {
      AnswerIsJudged(reply, questions, id);
    }
  }

  /** Translate, send, validate, normalize. Invalid questions are never sent; valid ones are answered if
      and only if the loop ends with a body the validators accept. The result covers exactly the
      configured questions, holds that body's own answers, normalized, and every answer meets Judged. */
  method Decide(questions: Questions, e: Endpoint, budget: nat)
    returns (answers: Option<map<string, Answer>>, out: Outcome, posts: nat)
    requires budget >= 1
    ensures !ValidQuestions(questions) ==> posts == 0 && out == InvalidOutput
    ensures ValidQuestions(questions) ==> Ran(out, e, posts, budget, WireQuestions(questions))
    ensures answers.Some? <==> out.Success?
    ensures answers.Some? <==> ValidQuestions(questions) && Answered(e, posts, out, questions)
    ensures answers.Some? ==> AllJudged(answers.value, questions)
    ensures answers.Some? ==> AnsweredBy(answers.value, questions, e.reply(posts - 1).response.value)
  {
    answers := None;
    if !ValidQuestions(questions) {
      return None, InvalidOutput, 0;
    }
    var sleeps;
    out, posts, sleeps := Interpret(e, budget, WireQuestions(questions));
    SuccessIsTheBody(out, e, posts, budget, questions);
    if out.Success? {
      var normalized := NormalizeReply(questions, e.reply(posts - 1), out.raw);
      answers := Some(normalized);
    }
  }
}
