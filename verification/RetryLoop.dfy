/** The bounded retry loop of the OpenAI-compatible interpreter (internal/model/model.go:86-154).
    One budget pays for transport retries, the response_format fallback and the correction turn. */
module RetryLoop {
  import opened Domain
  import opened Interpretations

  /** What one post came back with. Content carries the JSON object found in the output, if any. */
  datatype Reply = Content(parsed: Option<Fields>) | Status(code: int) | Network

  /** What one post asked: whether it carried a response_format, and how many correction turns. */
  datatype Post = Post(format: bool, corrections: nat)

  datatype Outcome = Success(result: Fields) | InvalidOutput | TransportFailure | Canceled

  /** The environment of one interpretation: the k-th reply, and whether the wait before the
      k-th post was interrupted. */
  datatype Endpoint = Endpoint(reply: nat -> Reply, canceled: nat -> bool)

  datatype Contract = Contract(schema: Schema, other: Value -> string) {
    predicate Accepts(r: Reply) {
      r.Content? && r.parsed.Some? && Conforms(r.parsed.value, schema, other)
    }

    /** What a final reply means to the caller. */
    function Classify(r: Reply): Outcome {
      if Accepts(r) then Success(r.parsed.value)
      else if r.Content? then InvalidOutput
      else TransportFailure
    }
  }

  // ---- The declarative reading: a trace of posts, each justified by the reply before it ----

  /** Another post could still help after this reply. */
  predicate Retriable(c: Contract, p: Post, r: Reply) {
    match r
    case Network => true
    case Status(code) => code >= 500 || (code == 400 && p.format)
    case Content(_) => !c.Accepts(r) && p.corrections == 0
  }

  /** The post that follows: a refused response_format is dropped for good, and a rejected answer
      adds the one correction turn. */
  function Follow(p: Post, r: Reply): Post {
    match r
    case Status(400) => p.(format := false)
    case Content(_) => p.(corrections := p.corrections + 1)
    case _ => p
  }

  /** Post k > 0 was made because its predecessor's reply called for it. */
  ghost predicate Linked(c: Contract, e: Endpoint, posts: seq<Post>, k: int) {
    && 0 < k < |posts|
    && Retriable(c, posts[k - 1], e.reply(k - 1))
    && posts[k] == Follow(posts[k - 1], e.reply(k - 1))
    && !e.canceled(k)
  }

  ghost predicate Chain(c: Contract, e: Endpoint, posts: seq<Post>) {
    && |posts| >= 1
    && posts[0] == Post(true, 0)
    && forall k | 0 < k < |posts| :: Linked(c, e, posts, k)
  }

  ghost predicate Trace(c: Contract, e: Endpoint, budget: nat, posts: seq<Post>, out: Outcome) {
    && Chain(c, e, posts)
    && |posts| <= budget
    && var last := |posts| - 1;
       if out.Canceled?
       then |posts| < budget && e.canceled(|posts|) && Retriable(c, posts[last], e.reply(last))
       else out == c.Classify(e.reply(last)) && (Retriable(c, posts[last], e.reply(last)) ==> |posts| == budget)
  }

  lemma ChainExtends(c: Contract, e: Endpoint, posts: seq<Post>, p: Post)
    requires Chain(c, e, posts) && !e.canceled(|posts|)
    requires Retriable(c, posts[|posts| - 1], e.reply(|posts| - 1))
    requires p == Follow(posts[|posts| - 1], e.reply(|posts| - 1))
    ensures Chain(c, e, posts + [p])
  {
    forall k | 0 < k < |posts + [p]| ensures Linked(c, e, posts + [p], k) {
      if k < |posts| {
        assert Linked(c, e, posts, k);
      }
    }
  }

  /** The loop as written: three flags carried from call to call. It meets Trace for every budget,
      every endpoint and every schema. */
  method InterpretOpenAI(c: Contract, e: Endpoint, budget: nat) returns (out: Outcome, posts: seq<Post>)
    ensures budget > 0 ==> Trace(c, e, budget, posts, out)
    ensures budget == 0 ==> posts == [] && out == InvalidOutput
  {
    posts := [];
    var format, usedRetry, transport := true, false, false;
    for calls := 0 to budget
      invariant |posts| == calls
      invariant calls == 0 ==> format && !usedRetry && !transport
      invariant calls > 0 ==>
        && Chain(c, e, posts)
        && Retriable(c, posts[calls - 1], e.reply(calls - 1))
        && Post(format, if usedRetry then 1 else 0) == Follow(posts[calls - 1], e.reply(calls - 1))
        && transport == !e.reply(calls - 1).Content?
    {
      if calls > 0 && e.canceled(calls) {
        return Canceled, posts;
      }
      var p := Post(format, if usedRetry then 1 else 0);
      if calls > 0 {
        ChainExtends(c, e, posts, p);
      }
      posts := posts + [p];
      var r, accepted := e.reply(calls), c.Accepts(e.reply(calls));
      match r {
        case Network =>
          transport := true;
        case Status(code) =>
          transport := true;
          if code < 500 {
            if code == 400 && format {
              format := false;
            } else {
              return TransportFailure, posts;
            }
          }
        case Content(parsed) =>
          transport := false;
          if accepted {
            return Success(parsed.value), posts;
          }
          if usedRetry {
            return InvalidOutput, posts;
          }
          usedRetry := true;
      }
    }
    out := if transport then TransportFailure else InvalidOutput;
  }

  // ---- What every trace promises ----

  /** A correction turn is spent once, and format never comes back once dropped. */
  lemma {:induction false} TurnsAreBounded(c: Contract, e: Endpoint, posts: seq<Post>, i: nat, j: nat)
    requires Chain(c, e, posts)
    requires i <= j < |posts|
    ensures posts[i].corrections <= posts[j].corrections <= 1
    ensures posts[j].format ==> posts[i].format
    decreases j
  {
    if j > 0 {
      assert Linked(c, e, posts, j);
      TurnsAreBounded(c, e, posts, if i == j then j - 1 else i, j - 1);
    }
  }

  /** A response_format is absent from a post exactly when an earlier post that carried it was
      answered 400. In particular a rejected format is never sent again. */
  lemma {:induction false} FormatDroppedExactlyOnRejection(c: Contract, e: Endpoint, posts: seq<Post>, j: nat)
    requires Chain(c, e, posts)
    requires j < |posts|
    ensures !posts[j].format <==> exists i | 0 <= i < j :: posts[i].format && e.reply(i) == Status(400)
  {
    if j > 0 {
      assert Linked(c, e, posts, j);
      FormatDroppedExactlyOnRejection(c, e, posts, j - 1);
      forall i | 0 <= i < j && posts[i].format && e.reply(i) == Status(400)
        ensures !posts[j].format
      {
        assert Linked(c, e, posts, i + 1);
        TurnsAreBounded(c, e, posts, i + 1, j);
      }
      if !posts[j].format && posts[j - 1].format {
        assert e.reply(j - 1) == Status(400);
      }
    }
  }

  /** Two answers are received only if the first was rejected, and the second then ends the
      interpretation, whatever budget remains. */
  lemma SecondAnswerIsFinal(c: Contract, e: Endpoint, budget: nat, posts: seq<Post>, out: Outcome, i: nat, j: nat)
    requires Trace(c, e, budget, posts, out)
    requires i < j < |posts|
    requires e.reply(i).Content? && e.reply(j).Content?
    ensures j == |posts| - 1 && !c.Accepts(e.reply(i))
    ensures out == c.Classify(e.reply(j))
  {
    assert Linked(c, e, posts, i + 1);
    TurnsAreBounded(c, e, posts, i + 1, j);
    assert posts[j].corrections == 1;
    assert j + 1 < |posts| ==> Linked(c, e, posts, j + 1);
  }

  /** The classification the callers rely on: success only for a conforming object, invalid only for
      an answer that was received and rejected, transport failure only when the last post failed. */
  lemma LastReplyDecides(c: Contract, e: Endpoint, budget: nat, posts: seq<Post>, out: Outcome)
    requires Trace(c, e, budget, posts, out) && !out.Canceled?
    ensures var last := e.reply(|posts| - 1);
      && (out.Success? <==> c.Accepts(last))
      && (out.Success? ==> out.result.Keys == c.schema.Keys && Conforms(out.result, c.schema, c.other))
      && (out == InvalidOutput <==> last.Content? && !c.Accepts(last))
      && (out == TransportFailure <==> !last.Content?)
  {
  }

  /** Trace admits one behaviour per endpoint, so the method above computes the only one. */
  lemma TraceIsDeterministic(c: Contract, e: Endpoint, budget: nat,
                             p1: seq<Post>, o1: Outcome, p2: seq<Post>, o2: Outcome)
    requires Trace(c, e, budget, p1, o1) && Trace(c, e, budget, p2, o2)
    ensures p1 == p2 && o1 == o2
  {
    var n := if |p1| <= |p2| then |p1| else |p2|;
    SamePrefix(c, e, p1, p2, n);
    assert p1[n - 1] == p1[..n][n - 1] && p2[n - 1] == p2[..n][n - 1];
    assert |p1| < |p2| ==> Linked(c, e, p2, |p1|);
    assert |p2| < |p1| ==> Linked(c, e, p1, |p2|);
    assert p1 == p1[..n] && p2 == p2[..n];
  }

  lemma {:induction false} SamePrefix(c: Contract, e: Endpoint, p1: seq<Post>, p2: seq<Post>, n: nat)
    requires Chain(c, e, p1) && Chain(c, e, p2)
    requires n <= |p1| && n <= |p2|
    ensures p1[..n] == p2[..n]
  {
    if n > 1 {
      SamePrefix(c, e, p1, p2, n - 1);
      assert Linked(c, e, p1, n - 1) && Linked(c, e, p2, n - 1);
      assert p1[n - 2] == p1[..n - 1][n - 2] && p2[n - 2] == p2[..n - 1][n - 2];
      assert p1[..n] == p1[..n - 1] + [p1[n - 1]] && p2[..n] == p2[..n - 1] + [p2[n - 1]];
    }
  }

  // ---- What each reply leads to ----

  lemma {:induction false} CorrectedAfterContent(c: Contract, e: Endpoint, posts: seq<Post>, j: nat)
    requires Chain(c, e, posts) && j < |posts|
    ensures posts[j].corrections == 0 <==> forall i | 0 <= i < j :: !e.reply(i).Content?
  {
    if j > 0 {
      assert Linked(c, e, posts, j);
      CorrectedAfterContent(c, e, posts, j - 1);
    }
  }

  /** A post carries the response_format until one was refused, and the correction turn once some content
      was rejected. */
  lemma PostCarries(c: Contract, e: Endpoint, posts: seq<Post>, k: nat)
    requires Chain(c, e, posts) && k < |posts|
    ensures posts[k].format <==> forall i | 0 <= i < k :: e.reply(i) != Status(400)
    ensures posts[k].corrections == if exists i | 0 <= i < k :: e.reply(i).Content? then 1 else 0
  {
    FormatDroppedExactlyOnRejection(c, e, posts, k);
    CorrectedAfterContent(c, e, posts, k);
    TurnsAreBounded(c, e, posts, k, k);
    forall i | 0 <= i < k && e.reply(i) == Status(400) ensures posts[i].format {
      assert Linked(c, e, posts, i + 1);
    }
  }

  /** A conforming object ends the loop with success. A network failure, a status of 500 or more, the first
      400 and the first rejected content are worth another post: it follows unless the budget is spent or
      the wait is interrupted. Everything else ends the loop at once. */
  lemma EachReplyDecides(c: Contract, e: Endpoint, budget: nat, posts: seq<Post>, out: Outcome, k: nat)
    requires Trace(c, e, budget, posts, out) && k < |posts|
    ensures var (r, next) := (e.reply(k), k + 1);
      var again := match r
        case Network => true
        case Status(code) => code >= 500 || (code == 400 && forall i | 0 <= i < k :: e.reply(i) != r)
        case Content(parsed) =>
          && !(parsed.Some? && Conforms(parsed.value, c.schema, c.other))
          && forall i | 0 <= i < k :: !e.reply(i).Content?;
      if again && next < budget && !e.canceled(next) then |posts| > next
      else |posts| == next && out == if again && next < budget then Canceled
                                      else match r
                                           case Content(parsed) =>
                                             if parsed.Some? && Conforms(parsed.value, c.schema, c.other)
                                             then Success(parsed.value) else InvalidOutput
                                           case _ => TransportFailure
  {
    PostCarries(c, e, posts, k);
    if k + 1 < |posts| {
      assert Linked(c, e, posts, k + 1);
    }
  }

  /** Transient failures are ridden out: however many precede it within the budget, a conforming object is
      asked for, by an unchanged post, and returned. */
  lemma {:induction false} TransientFailuresAreRetried(c: Contract, e: Endpoint, budget: nat, posts: seq<Post>,
                                                       out: Outcome, k: nat)
    requires Trace(c, e, budget, posts, out) && k < budget
    requires forall i | 0 <= i < k :: match e.reply(i)
      case Network => true
      case Status(code) => code >= 500
      case Content(_) => false
    requires forall i | 0 < i <= k :: !e.canceled(i)
    ensures |posts| > k && posts[k] == Post(true, 0)
    ensures c.Accepts(e.reply(k)) ==> |posts| == k + 1 && out == Success(e.reply(k).parsed.value)
  {
    if k > 0 {
      TransientFailuresAreRetried(c, e, budget, posts, out, k - 1);
      EachReplyDecides(c, e, budget, posts, out, k - 1);
      assert Linked(c, e, posts, k);
    }
    EachReplyDecides(c, e, budget, posts, out, k);
  }
}
