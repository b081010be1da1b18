/** evaluate's loops (cmd/mrmr/eval.go:156-283) proved against the counts of Metrics. */
module Grading {
  import opened Domain
  import opened PolicyRules
  import opened Interpretations
  import opened SystemOne
  import opened Sums
  import opened Metrics

  datatype ClassMetrics = ClassMetrics(precision: real, recall: real, support: nat)
  datatype Bucket = Bucket(lower: real, upper: real, count: nat, correct: nat, accuracy: real, mean: real)

  datatype Counters = Counters(valid: nat, categoryCorrect: nat, actionLabeled: nat, actionCorrect: nat,
                               outcomeCorrect: nat, expectedNonIgnore: nat, falseIgnores: nat)

  datatype Summary = Summary(total: nat, counters: Counters, confusion: Confusion, classes: map<string, ClassMetrics>,
                             calibration: seq<Bucket>, categoryAccuracy: real, actionAccuracy: real,
                             outcomeAccuracy: real, falseIgnoreRate: real)

  function IsValid(): Case -> bool { (c: Case) => c.reply.Answered? }
  function IsActionLabelled(): Case -> bool { (c: Case) => c.expected.requiresAction.Some? }
  function IsActionRight(): Case -> bool { (c: Case) => ActionRight(c) }
  function IsOutcomeRight(): Case -> bool { (c: Case) => OutcomeRight(c) }
  function IsEffectExpected(): Case -> bool { (c: Case) => ExpectsEffect(c) }
  function IsFalseIgnore(): Case -> bool { (c: Case) => ExpectsEffect(c) && OutcomeOf(c) == Ignores }
  function IsInBucket(b: int): Case -> bool { (c: Case) => InBucket(c, b) }
  function IsRightInBucket(b: int): Case -> bool { (c: Case) => InBucket(c, b) && CategoryRight(c) }

  ghost function CountersOf(cases: seq<Case>): Counters {
    Counters(Count(cases, IsValid()), Count(cases, IsCategoryRight()), Count(cases, IsActionLabelled()),
             Count(cases, IsActionRight()), Count(cases, IsOutcomeRight()), Count(cases, IsEffectExpected()),
             Count(cases, IsFalseIgnore()))
  }

  /** Correct is never more than graded, so every reported rate is a rate. */
  lemma RatesAreInUnit(cases: seq<Case>)
    ensures var c := CountersOf(cases);
      && 0.0 <= Ratio(c.categoryCorrect, |cases|) <= 1.0
      && 0.0 <= Ratio(c.actionCorrect, c.actionLabeled) <= 1.0
      && 0.0 <= Ratio(c.outcomeCorrect, |cases|) <= 1.0
      && 0.0 <= Ratio(c.falseIgnores, c.expectedNonIgnore) <= 1.0
  {
    var c := CountersOf(cases);
    CountAll(cases, IsCategoryRight());
    CountAll(cases, IsOutcomeRight());
    CountMonotone(cases, IsActionRight(), IsActionLabelled());
    CountMonotone(cases, IsFalseIgnore(), IsEffectExpected());
    RatioInUnit(c.categoryCorrect, |cases|);
    RatioInUnit(c.actionCorrect, c.actionLabeled);
    RatioInUnit(c.outcomeCorrect, |cases|);
    RatioInUnit(c.falseIgnores, c.expectedNonIgnore);
  }

  // ---- Calibration ----

  ghost function ProbabilitySum(cases: seq<Case>, b: int): real
    decreases |cases|
  {
    if cases == [] then 0.0
    else
      var c := cases[|cases| - 1];
      ProbabilitySum(cases[..|cases| - 1], b) + (if InBucket(c, b) then ProbabilityOf(c.reply.result).value else 0.0)
  }

  lemma SumSnoc(cases: seq<Case>, i: nat, b: int)
    requires i < |cases|
    ensures ProbabilitySum(cases[..i + 1], b)
         == ProbabilitySum(cases[..i], b) + (if InBucket(cases[i], b) then ProbabilityOf(cases[i].reply.result).value else 0.0)
  {
    assert cases[..i + 1][..i] == cases[..i];
  }

  lemma BucketHolds(p: real)
    requires UnitProbability(p)
    ensures 0 <= BucketOf(p) < 5 && BucketOf(p) as real / 5.0 <= p <= (BucketOf(p) + 1) as real / 5.0
  {
  }

  /** sum adds up n values between low and high. */
  ghost predicate Between(n: nat, low: real, sum: real, high: real) {
    n as real * low <= sum <= n as real * high
  }

  lemma OneMore(n: nat, low: real, sum: real, high: real, p: real)
    requires Between(n, low, sum, high) && low <= p <= high
    ensures Between(n + 1, low, sum + p, high)
  {
  }

  lemma {:induction false} SumInInterval(cases: seq<Case>, b: int, low: real, high: real)
    requires low == b as real / 5.0 && high == (b + 1) as real / 5.0
    requires forall c | c in cases :: InRange(c)
    ensures Between(Count(cases, IsInBucket(b)), low, ProbabilitySum(cases, b), high)
    decreases |cases|
  {
    if cases != [] {
      var init, last := cases[..|cases| - 1], cases[|cases| - 1];
      SumInInterval(init, b, low, high);
      assert last in cases;
      if InBucket(last, b) {
        BucketHolds(ProbabilityOf(last.reply.result).value);
        OneMore(Count(init, IsInBucket(b)), low, ProbabilitySum(init, b), high, ProbabilityOf(last.reply.result).value);
      }
    }
  }

  /** What a nonempty bucket reports. */
  ghost predicate Calibrates(k: Bucket, cases: seq<Case>, b: int) {
    && k.lower == b as real / 5.0 && k.upper == (b + 1) as real / 5.0
    && k.count == Count(cases, IsInBucket(b)) && k.count > 0
    && k.correct == Count(cases, IsRightInBucket(b))
    && k.accuracy == Ratio(k.correct, k.count)
    && k.mean == ProbabilitySum(cases, b) / k.count as real
  }

  lemma Divided(n: real, low: real, sum: real, high: real)
    requires n > 0.0 && n * low <= sum <= n * high
    ensures low <= sum / n <= high
  {
  }

  /** A bucket's mean probability lies in its own interval, and its accuracy is a rate. */
  lemma MeanInInterval(k: Bucket, cases: seq<Case>, b: int)
    requires Calibrates(k, cases, b) && forall c | c in cases :: InRange(c)
    ensures k.lower <= k.mean <= k.upper && 0.0 <= k.accuracy <= 1.0
  {
    SumInInterval(cases, b, k.lower, k.upper);
    Divided(k.count as real, k.lower, ProbabilitySum(cases, b), k.upper);
    CountMonotone(cases, IsRightInBucket(b), IsInBucket(b));
    RatioInUnit(k.correct, k.count);
  }

  ghost predicate Filled(buckets: seq<Bucket>, cases: seq<Case>) {
    && |buckets| == 5
    && forall b | 0 <= b < 5 ::
         && buckets[b].lower == b as real / 5.0 && buckets[b].upper == (b + 1) as real / 5.0
         && buckets[b].count == Count(cases, IsInBucket(b))
         && buckets[b].correct == Count(cases, IsRightInBucket(b))
         && buckets[b].mean == ProbabilitySum(cases, b)
  }

  function Record(k: Bucket, p: real, right: bool): Bucket {
    k.(count := k.count + 1, mean := k.mean + p, correct := if right then k.correct + 1 else k.correct)
  }

  lemma RecordFills(buckets: seq<Bucket>, cases: seq<Case>, i: nat, buckets': seq<Bucket>)
    requires i < |cases| && Filled(buckets, cases[..i]) && InRange(cases[i]) && |buckets'| == 5
    requires var c := cases[i];
      forall b | 0 <= b < 5 ::
        buckets'[b] == if InBucket(c, b) then Record(buckets[b], ProbabilityOf(c.reply.result).value, CategoryRight(c))
                       else buckets[b]
    ensures Filled(buckets', cases[..i + 1])
  {
    forall b | 0 <= b < 5
      ensures buckets'[b].count == Count(cases[..i + 1], IsInBucket(b))
      ensures buckets'[b].correct == Count(cases[..i + 1], IsRightInBucket(b))
      ensures buckets'[b].mean == ProbabilitySum(cases[..i + 1], b)
    {
      CountSnoc(cases, i, IsInBucket(b));
      CountSnoc(cases, i, IsRightInBucket(b));
      SumSnoc(cases, i, b);
    }
  }

  method FillBuckets(cases: seq<Case>) returns (buckets: array<Bucket>)
    requires forall c | c in cases :: InRange(c)
    ensures fresh(buckets) && Filled(buckets[..], cases)
  {
    buckets := new Bucket[5](i => Bucket(i as real / 5.0, (i + 1) as real / 5.0, 0, 0, 0.0, 0.0));
    for i := 0 to |cases|
      invariant buckets.Length == 5 && Filled(buckets[..], cases[..i])
    {
      var c := cases[i];
      ghost var before := buckets[..];
      assert c in cases;
      if c.reply.Answered? {
        var p := ProbabilityOf(c.reply.result);
        if p.Some? {
          BucketHolds(p.value);
          var b := BucketOf(p.value);
          buckets[b] := Record(buckets[b], p.value, CategoryRight(c));
        }
      }
      RecordFills(before, cases, i, buckets[..]);
    }
    assert cases[..|cases|] == cases;
  }

  /** What bucket b reports. */
  ghost function BucketAt(cases: seq<Case>, b: int): Bucket
    requires Count(cases, IsInBucket(b)) > 0
  {
    var (n, right) := (Count(cases, IsInBucket(b)), Count(cases, IsRightInBucket(b)));
    Bucket(b as real / 5.0, (b + 1) as real / 5.0, n, right, Ratio(right, n), ProbabilitySum(cases, b) / n as real)
  }

  /** The reports of the nonempty ones of the first n buckets, in order. */
  ghost function CalibrationOf(cases: seq<Case>, n: nat): seq<Bucket> {
    if n == 0 then []
    else
      CalibrationOf(cases, n - 1) + if Count(cases, IsInBucket(n - 1)) > 0 then [BucketAt(cases, n - 1)] else []
  }

  /** Listed are the nonempty buckets and nothing else. */
  lemma CalibrationLists(cases: seq<Case>, n: nat)
    ensures forall k | k in CalibrationOf(cases, n) :: exists b | 0 <= b < n :: Calibrates(k, cases, b)
    ensures forall b | 0 <= b < n && Count(cases, IsInBucket(b)) > 0 ::
      exists k | k in CalibrationOf(cases, n) :: Calibrates(k, cases, b)
  {
    forall k | k in CalibrationOf(cases, n) ensures exists b | 0 <= b < n :: Calibrates(k, cases, b) {
      ListedIsABucket(cases, n, k);
    }
    forall b | 0 <= b < n && Count(cases, IsInBucket(b)) > 0
      ensures exists k | k in CalibrationOf(cases, n) :: Calibrates(k, cases, b)
    {
      BucketIsListed(cases, n, b);
      assert Calibrates(BucketAt(cases, b), cases, b);
    }
  }

  lemma {:induction false} ListedIsABucket(cases: seq<Case>, n: nat, k: Bucket)
    requires k in CalibrationOf(cases, n)
    ensures exists b | 0 <= b < n :: Calibrates(k, cases, b)
  {
    if k in CalibrationOf(cases, n - 1) {
      ListedIsABucket(cases, n - 1, k);
      var b :| 0 <= b < n - 1 && Calibrates(k, cases, b);
      assert 0 <= b < n;
    } else {
      assert Calibrates(k, cases, n - 1);
    }
  }

  lemma {:induction false} BucketIsListed(cases: seq<Case>, n: nat, b: int)
    requires 0 <= b < n && Count(cases, IsInBucket(b)) > 0
    ensures BucketAt(cases, b) in CalibrationOf(cases, n)
  {
    if b == n - 1 {
      assert CalibrationOf(cases, n)[|CalibrationOf(cases, n - 1)|] == BucketAt(cases, b);
    } else {
      BucketIsListed(cases, n - 1, b);
    }
  }

  method Calibration(buckets: array<Bucket>, ghost cases: seq<Case>) returns (out: seq<Bucket>)
    requires Filled(buckets[..], cases)
    ensures out == CalibrationOf(cases, 5)
  {
    out := [];
    for b := 0 to buckets.Length
      invariant out == CalibrationOf(cases, b)
    {
      var k := buckets[b];
      assert k == buckets[..][b];
      if k.count > 0 {
        out := out + [k.(mean := k.mean / k.count as real, accuracy := Ratio(k.correct, k.count))];
      }
    }
  }

  // ---- The counting loop ----

  function CountOne(k: Counters, c: Case): Counters {
    Counters(k.valid + (if c.reply.Answered? then 1 else 0),
             k.categoryCorrect + (if CategoryRight(c) then 1 else 0),
             k.actionLabeled + (if c.expected.requiresAction.Some? then 1 else 0),
             k.actionCorrect + (if ActionRight(c) then 1 else 0),
             k.outcomeCorrect + (if OutcomeRight(c) then 1 else 0),
             k.expectedNonIgnore + (if ExpectsEffect(c) then 1 else 0),
             k.falseIgnores + (if ExpectsEffect(c) && OutcomeOf(c) == Ignores then 1 else 0))
  }

  lemma CountersSnoc(cases: seq<Case>, i: nat)
    requires i < |cases|
    ensures CountersOf(cases[..i + 1]) == CountOne(CountersOf(cases[..i]), cases[i])
  {
    CountSnoc(cases, i, IsValid());
    CountSnoc(cases, i, IsCategoryRight());
    CountSnoc(cases, i, IsActionLabelled());
    CountSnoc(cases, i, IsActionRight());
    CountSnoc(cases, i, IsOutcomeRight());
    CountSnoc(cases, i, IsEffectExpected());
    CountSnoc(cases, i, IsFalseIgnore());
  }

  /** One case's grading, exactly as the loop body tests it. */
  method GradeOne(k: Counters, c: Case) returns (k': Counters)
    ensures k' == CountOne(k, c)
  {
    var category, requiresAction, outcome := INVALID, None, Ignores;
    var ok := c.reply.Answered?;
    k' := k;
    if ok {
      k' := k'.(valid := k'.valid + 1);
      category, requiresAction, outcome := CategoryOf(c.reply.result), RequiresActionOf(c.reply.result), c.reply.outcome;
    }
    var categoryOk := ok && category == c.expected.category;
    var actionOk := c.expected.requiresAction.None?
                    || (ok && requiresAction.Some? && requiresAction.value == c.expected.requiresAction.value);
    if c.expected.requiresAction.Some? {
      k' := k'.(actionLabeled := k'.actionLabeled + 1);
    }
    if categoryOk {
      k' := k'.(categoryCorrect := k'.categoryCorrect + 1);
    }
    if actionOk && c.expected.requiresAction.Some? {
      k' := k'.(actionCorrect := k'.actionCorrect + 1);
    }
    if ok && outcome == c.expected.outcome {
      k' := k'.(outcomeCorrect := k'.outcomeCorrect + 1);
    }
    if c.expected.outcome != Ignores {
      k' := k'.(expectedNonIgnore := k'.expectedNonIgnore + 1);
      if outcome == Ignores {
        k' := k'.(falseIgnores := k'.falseIgnores + 1);
      }
    }
  }

  method Tally(cases: seq<Case>) returns (k: Counters, m: Confusion)
    ensures k == CountersOf(cases) && Tallies(m, cases)
  {
    k, m := Counters(0, 0, 0, 0, 0, 0, 0), map[];
    for i := 0 to |cases|
      invariant k == CountersOf(cases[..i]) && Tallies(m, cases[..i])
    {
      CountersSnoc(cases, i);
      BumpTallies(m, cases, i);
      k := GradeOne(k, cases[i]);
      var e, p := cases[i].expected.category, Predicted(cases[i]);
      if e !in m {
        m := m[e := map[]];
      }
      m := m[e := m[e][p := (if p in m[e] then m[e][p] else 0) + 1]];
    }
    assert cases[..|cases|] == cases;
  }

  // ---- Per-class metrics ----

  /** The classes reported: every label, and every prediction but the reserved one. */
  ghost predicate IsClass(m: Confusion, c: string) {
    c in m || (c != INVALID && exists e | e in m :: c in m[e])
  }

  ghost predicate Rated(x: ClassMetrics, cases: seq<Case>, c: string) {
    && x.precision == Ratio(Pairs(cases, c, c), PredictedAs(cases, c))
    && x.recall == Ratio(Pairs(cases, c, c), Labelled(cases, c))
    && x.support == Labelled(cases, c)
  }

  ghost predicate MetricsOf(classes: map<string, ClassMetrics>, m: Confusion, cases: seq<Case>) {
    && (forall c :: c in classes <==> IsClass(m, c))
    && (forall c | c in classes :: Rated(classes[c], cases, c))
  }

  /** Precision and recall are rates, for every class of every matrix. */
  lemma ClassRatesAreInUnit(classes: map<string, ClassMetrics>, m: Confusion, cases: seq<Case>, c: string)
    requires MetricsOf(classes, m, cases) && c in classes
    ensures 0.0 <= classes[c].precision <= 1.0 && 0.0 <= classes[c].recall <= 1.0
  {
    CountMonotone(cases, IsPair(c, c), IsPredicted(c));
    CountMonotone(cases, IsPair(c, c), IsLabelled(c));
    RatioInUnit(Pairs(cases, c, c), PredictedAs(cases, c));
    RatioInUnit(Pairs(cases, c, c), Labelled(cases, c));
  }

  /** Adding up one row or column, in any order of its keys. */
  method SumOver(keys: seq<string>, row: map<string, nat>) returns (n: nat)
    ensures n == Total(keys, (k: string) => if k in row then row[k] else 0)
  {
    n := 0;
    ghost var f := (k: string) => if k in row then row[k] else 0;
    for i := 0 to |keys|
      invariant n == Total(keys[..i], f)
    {
      assert keys[..i + 1][..i] == keys[..i];
      n := n + if keys[i] in row then row[keys[i]] else 0;
    }
    assert keys[..|keys|] == keys;
  }

  method SupportOf(m: Confusion, e: string, ghost cases: seq<Case>) returns (n: nat)
    requires Tallies(m, cases) && e in m
    ensures n == Labelled(cases, e)
  {
    var columns := KeysOf(m[e]);
    n := SumOver(columns, m[e]);
    TotalSame(columns, (k: string) => if k in m[e] then m[e][k] else 0, RowOf(m, e));
    RowSumsToSupport(m, cases, e, columns);
  }

  method PredictionsOf(m: Confusion, p: string, ghost cases: seq<Case>) returns (n: nat)
    requires Tallies(m, cases)
    ensures n == PredictedAs(cases, p)
  {
    var rows := KeysOf(m);
    n := 0;
    for i := 0 to |rows|
      invariant n == Total(rows[..i], ColumnOf(m, p))
    {
      assert rows[..i + 1][..i] == rows[..i];
      n := n + Cell(m, rows[i], p);
    }
    assert rows[..|rows|] == rows;
    ColumnSumsToPredictions(m, cases, p, rows);
  }

  /** c is a class of the rows visited so far. */
  ghost predicate Known(m: Confusion, rows: seq<string>, c: string) {
    c in rows || (c != INVALID && exists e | e in rows && e in m :: c in m[e])
  }

  method AddPredicted(classes: map<string, ClassMetrics>,
                      row: map<string, nat>) returns (wider: map<string, ClassMetrics>)
    ensures forall c :: c in wider <==> c in classes || (c != INVALID && c in row)
    ensures forall c | c in wider :: wider[c] == if c in classes then classes[c] else ClassMetrics(0.0, 0.0, 0)
  {
    wider := classes;
    var columns := KeysOf(row);
    for i := 0 to |columns|
      invariant forall c :: c in wider <==> c in classes || (c != INVALID && c in columns[..i])
      invariant forall c | c in wider :: wider[c] == if c in classes then classes[c] else ClassMetrics(0.0, 0.0, 0)
    {
      var p := columns[i];
      if p !in wider && p != INVALID {
        wider := wider[p := ClassMetrics(0.0, 0.0, 0)];
      }
    }
  }

  lemma KnownSnoc(m: Confusion, rows: seq<string>, i: nat, c: string)
    requires i < |rows| && rows[i] in m
    ensures Known(m, rows[..i + 1], c) <==> Known(m, rows[..i], c) || c == rows[i] || (c != INVALID && c in m[rows[i]])
  {
  }

  method Supports(m: Confusion, ghost cases: seq<Case>) returns (classes: map<string, ClassMetrics>)
    requires Tallies(m, cases)
    ensures forall c :: c in classes <==> IsClass(m, c)
    ensures forall c | c in classes :: classes[c].support == Labelled(cases, c)
  {
    classes := map[];
    var rows := KeysOf(m);
    for i := 0 to |rows|
      invariant forall c :: c in classes <==> Known(m, rows[..i], c)
      invariant forall c | c in classes :: classes[c].support == if c in rows[..i] then Labelled(cases, c) else 0
    {
      var e := rows[i];
      var support := SupportOf(m, e, cases);
      var wider := AddPredicted(classes, m[e]);
      forall c ensures Known(m, rows[..i + 1], c) <==> Known(m, rows[..i], c) || c == e || (c != INVALID && c in m[e]) {
        KnownSnoc(m, rows, i, c);
      }
      var mine := if e in wider then wider[e] else ClassMetrics(0.0, 0.0, 0);
      classes := wider[e := mine.(support := support)];
    }
    assert rows[..|rows|] == rows;
    forall c | c in classes && c !in m ensures Labelled(cases, c) == 0 {
      UnlabelledHasNoSupport(m, cases, c);
    }
  }

  /** The classes named in done have their rates, the others only their support. */
  ghost predicate RatedSoFar(classes: map<string, ClassMetrics>, supported: map<string, ClassMetrics>,
                             done: seq<string>, cases: seq<Case>) {
    && classes.Keys == supported.Keys
    && (forall c {:trigger classes[c]} | c in classes ::
          && classes[c].support == supported[c].support
          && (c in done ==> Rated(classes[c], cases, c)))
  }

  lemma RatesOneMore(classes: map<string, ClassMetrics>, supported: map<string, ClassMetrics>, names: seq<string>,
                     i: nat, cases: seq<Case>, x: ClassMetrics)
    requires i < |names| && names[i] in classes && RatedSoFar(classes, supported, names[..i], cases)
    requires Rated(x, cases, names[i]) && x.support == classes[names[i]].support
    ensures RatedSoFar(classes[names[i] := x], supported, names[..i + 1], cases)
  {
    assert names[..i + 1] == names[..i] + [names[i]];
  }

  method Rates(m: Confusion, supported: map<string, ClassMetrics>,
               ghost cases: seq<Case>) returns (classes: map<string, ClassMetrics>)
    requires Tallies(m, cases)
    requires forall c :: c in supported <==> IsClass(m, c)
    requires forall c | c in supported :: supported[c].support == Labelled(cases, c)
    ensures MetricsOf(classes, m, cases)
  {
    classes := supported;
    var names := KeysOf(supported);
    for i := 0 to |names|
      invariant RatedSoFar(classes, supported, names[..i], cases)
    {
      var c := names[i];
      var x := RateOf(m, classes[c], c, cases);
      RatesOneMore(classes, supported, names, i, cases, x);
      classes := classes[c := x];
    }
    assert names[..|names|] == names;
  }

  method RateOf(m: Confusion, supported: ClassMetrics, c: string, ghost cases: seq<Case>) returns (x: ClassMetrics)
    requires Tallies(m, cases) && supported.support == Labelled(cases, c)
    ensures Rated(x, cases, c)
  {
    var predicted := PredictionsOf(m, c, cases);
    var correct := Cell(m, c, c);
    x := supported.(precision := Ratio(correct, predicted), recall := Ratio(correct, supported.support));
  }

  // ---- The whole evaluation ----

  /** A complete account of a summary by counts of its cases; nothing in it depends on the order in
      which a map was visited. Rates over all cases keep the full total when a run was cut short. */
  ghost predicate Accounts(s: Summary, total: nat, cases: seq<Case>) {
    && s.total == total && s.counters == CountersOf(cases)
    && Tallies(s.confusion, cases) && MetricsOf(s.classes, s.confusion, cases)
    && s.categoryAccuracy == Ratio(s.counters.categoryCorrect, total)
    && s.outcomeAccuracy == Ratio(s.counters.outcomeCorrect, total)
    && s.actionAccuracy == Ratio(s.counters.actionCorrect, s.counters.actionLabeled)
    && s.falseIgnoreRate == Ratio(s.counters.falseIgnores, s.counters.expectedNonIgnore)
    && s.calibration == CalibrationOf(cases, 5)
  }

  /** The cases leave no choice about the summary: whatever order the loops visit maps in, it comes out
      the same. */
  lemma SummaryIsDetermined(s1: Summary, s2: Summary, total: nat, cases: seq<Case>)
    requires Accounts(s1, total, cases) && Accounts(s2, total, cases)
    ensures s1 == s2
  {
    TalliesDetermine(s1.confusion, s2.confusion, cases);
    assert s1.classes.Keys == s2.classes.Keys;
    forall c | c in s1.classes ensures s1.classes[c] == s2.classes[c] {
      assert Rated(s1.classes[c], cases, c) && Rated(s2.classes[c], cases, c);
    }
  }

  /** The first judged of cases were judged before the context was done. */
  method Evaluate(cases: seq<Case>, judged: nat) returns (s: Summary)
    requires judged <= |cases| && forall c | c in cases[..judged] :: InRange(c)
    ensures Accounts(s, |cases|, cases[..judged])
  {
    ghost var graded := cases[..judged];
    var k, m := Tally(cases[..judged]);
    var buckets := FillBuckets(cases[..judged]);
    var supported := Supports(m, graded);
    var classes := Rates(m, supported, graded);
    var calibration := Calibration(buckets, graded);
    s := Summary(|cases|, k, m, classes, calibration, Ratio(k.categoryCorrect, |cases|),
                 Ratio(k.actionCorrect, k.actionLabeled), Ratio(k.outcomeCorrect, |cases|),
                 Ratio(k.falseIgnores, k.expectedNonIgnore));
  }

  /** Conservation: the matrix adds up to the judged cases whichever way it is read, and every reported
      rate, including a run that was cut short, is a rate. */
  lemma EvaluationConserves(s: Summary, total: nat, cases: seq<Case>, rows: seq<string>, columns: seq<string>)
    requires Accounts(s, total, cases) && |cases| <= total && forall c | c in cases :: InRange(c)
    requires Spans(s.confusion, rows, columns)
    ensures ByRow(s.confusion, rows, columns) == |cases| == ByColumn(s.confusion, rows, columns)
    ensures Total(rows, (e: string) => Labelled(cases, e)) == |cases|
    ensures forall e | e in s.confusion :: s.classes[e].support == Labelled(cases, e)
    ensures 0.0 <= s.categoryAccuracy <= 1.0 && 0.0 <= s.outcomeAccuracy <= 1.0
    ensures 0.0 <= s.actionAccuracy <= 1.0 && 0.0 <= s.falseIgnoreRate <= 1.0
    ensures forall c | c in s.classes :: 0.0 <= s.classes[c].precision <= 1.0 && 0.0 <= s.classes[c].recall <= 1.0
    ensures forall k | k in s.calibration :: k.lower <= k.mean <= k.upper && 0.0 <= k.accuracy <= 1.0
    ensures Total(rows, Diagonal(s.confusion)) == s.counters.categoryCorrect <==> forall c | c in cases ::
      !FailsReserved(c)
  {
    EntriesSumToCases(s.confusion, cases, rows, columns);
    SupportsSumToCases(s.confusion, cases, rows);
    RatesAreInUnit(cases);
    CountAll(cases, IsCategoryRight());
    CountAll(cases, IsOutcomeRight());
    RatioInUnit(s.counters.categoryCorrect, total);
    RatioInUnit(s.counters.outcomeCorrect, total);
    forall c | c in s.classes ensures 0.0 <= s.classes[c].precision <= 1.0 && 0.0 <= s.classes[c].recall <= 1.0 {
      ClassRatesAreInUnit(s.classes, s.confusion, cases, c);
    }
    CalibrationLists(cases, 5);
    forall k | k in s.calibration ensures k.lower <= k.mean <= k.upper && 0.0 <= k.accuracy <= 1.0 {
      var b :| 0 <= b < 5 && Calibrates(k, cases, b);
      MeanInInterval(k, cases, b);
    }
    DiagonalIsCorrect(s.confusion, cases, rows);
  }

  // ---- What the numbers mean ----

  /** The counters: answers received; answers in the labelled category; cases labelled with whether they
      require action, and answers that agree; outcomes as labelled; and cases labelled with an effect, and
      those that ended ignored, for want of an answer or by it. */
  lemma CountersMean(cases: seq<Case>)
    ensures var k := CountersOf(cases);
      && k.valid == Count(cases, (c: Case) => c.reply.Answered?)
      && k.categoryCorrect
         == Count(cases, (c: Case) => c.reply.Answered? && CategoryOf(c.reply.result) == c.expected.category)
      && k.actionLabeled == Count(cases, (c: Case) => c.expected.requiresAction.Some?)
      && k.actionCorrect
         == Count(cases, (c: Case) => c.expected.requiresAction.Some? && c.reply.Answered?
                                      && RequiresActionOf(c.reply.result) == c.expected.requiresAction)
      && k.outcomeCorrect == Count(cases, (c: Case) => c.reply.Answered? && c.reply.outcome == c.expected.outcome)
      && k.expectedNonIgnore == Count(cases, (c: Case) => c.expected.outcome != Ignores)
      && k.falseIgnores
         == Count(cases, (c: Case) => c.expected.outcome != Ignores && (c.reply.Failed? || c.reply.outcome == Ignores))
  {
    SameCount(cases, IsValid(), (c: Case) => c.reply.Answered?);
    SameCount(cases, IsCategoryRight(),
              (c: Case) => c.reply.Answered? && CategoryOf(c.reply.result) == c.expected.category);
    SameCount(cases, IsActionLabelled(), (c: Case) => c.expected.requiresAction.Some?);
    SameCount(cases, IsActionRight(),
              (c: Case) => c.expected.requiresAction.Some? && c.reply.Answered?
                           && RequiresActionOf(c.reply.result) == c.expected.requiresAction);
    SameCount(cases, IsOutcomeRight(), (c: Case) => c.reply.Answered? && c.reply.outcome == c.expected.outcome);
    SameCount(cases, IsEffectExpected(), (c: Case) => c.expected.outcome != Ignores);
    SameCount(cases, IsFalseIgnore(),
              (c: Case) => c.expected.outcome != Ignores && (c.reply.Failed? || c.reply.outcome == Ignores));
  }

  /** Every rate is the share of its counter: category and outcome of all the cases there are, judged or not,
      agreement on action of the cases labelled with it, and false ignores of the cases labelled with an
      effect. */
  lemma RatesMean(s: Summary, total: nat, cases: seq<Case>)
    requires Accounts(s, total, cases)
    ensures s.total == total && s.counters == CountersOf(cases)
    ensures IsShare(s.categoryAccuracy, s.counters.categoryCorrect, total)
    ensures IsShare(s.outcomeAccuracy, s.counters.outcomeCorrect, total)
    ensures IsShare(s.actionAccuracy, s.counters.actionCorrect, s.counters.actionLabeled)
    ensures IsShare(s.falseIgnoreRate, s.counters.falseIgnores, s.counters.expectedNonIgnore)
  {
    RatioIsShare(s.counters.categoryCorrect, total);
    RatioIsShare(s.counters.outcomeCorrect, total);
    RatioIsShare(s.counters.actionCorrect, s.counters.actionLabeled);
    RatioIsShare(s.counters.falseIgnores, s.counters.expectedNonIgnore);
  }

  /** Precision is the share that was right of what was said to be in the class, recall of what was labelled
      with it; the classes are the labels and the categories said, but for the reserved word. */
  lemma ClassesMean(s: Summary, total: nat, cases: seq<Case>, x: string)
    requires Accounts(s, total, cases)
    ensures x in s.classes <==> exists c | c in cases ::
      c.expected.category == x || (x != "<invalid>" && Predicted(c) == x)
    ensures x in s.classes ==>
      var right := Count(cases, (c: Case) => c.expected.category == x && Predicted(c) == x);
      && s.classes[x].support == Count(cases, (c: Case) => c.expected.category == x)
      && IsShare(s.classes[x].recall, right, s.classes[x].support)
      && IsShare(s.classes[x].precision, right, Count(cases, (c: Case) => Predicted(c) == x))
  {
    ClassesOccur(s.confusion, cases, x);
    if x in s.classes {
      assert Rated(s.classes[x], cases, x);
      SameCount(cases, IsPair(x, x), (c: Case) => c.expected.category == x && Predicted(c) == x);
      SameCount(cases, IsLabelled(x), (c: Case) => c.expected.category == x);
      SameCount(cases, IsPredicted(x), (c: Case) => Predicted(c) == x);
      RatioIsShare(Pairs(cases, x, x), Labelled(cases, x));
      RatioIsShare(Pairs(cases, x, x), PredictedAs(cases, x));
    }
  }

  lemma {:induction false} CountedOccurs(cases: seq<Case>, test: Case -> bool)
    requires Count(cases, test) > 0
    ensures exists c | c in cases :: test(c)
    decreases |cases|
  {
    var init, last := cases[..|cases| - 1], cases[|cases| - 1];
    assert last in cases;
    if !test(last) {
      CountedOccurs(init, test);
    }
  }

  lemma ClassesOccur(m: Confusion, cases: seq<Case>, x: string)
    requires Tallies(m, cases)
    ensures IsClass(m, x) <==> exists c | c in cases ::
      c.expected.category == x || (x != "<invalid>" && Predicted(c) == x)
  {
    if c :| c in cases && (c.expected.category == x || (x != "<invalid>" && Predicted(c) == x)) {
      EntryExists(m, cases, c);
    }
    if x in m {
      var p :| p in m[x];
      PairOccurs(m, cases, x, p);
    } else if e :| e in m && x in m[e] {
      PairOccurs(m, cases, e, x);
    }
  }

  lemma PairOccurs(m: Confusion, cases: seq<Case>, e: string, p: string)
    requires Tallies(m, cases) && e in m && p in m[e]
    ensures exists c | c in cases :: c.expected.category == e && Predicted(c) == p
  {
    assert Cell(m, e, p) == Pairs(cases, e, p);
    CountedOccurs(cases, IsPair(e, p));
    var c :| c in cases && IsPair(e, p)(c);
    assert Predicted(c) == p;
  }

  /** k speaks for the cases whose probability is in the b-th fifth: how many there are, how many of them were
      right, which share that is, and the mean of their probabilities. */
  ghost predicate SpeaksFor(k: Bucket, cases: seq<Case>, b: int) {
    && k.lower * 5.0 == b as real && k.upper * 5.0 == (b + 1) as real
    && k.count == Count(cases, (c: Case) => InBucket(c, b))
    && k.correct == Count(cases, (c: Case) => InBucket(c, b) && Predicted(c) == c.expected.category)
    && IsShare(k.accuracy, k.correct, k.count) && k.mean * k.count as real == ProbabilitySum(cases, b)
  }

  lemma BucketSpeaks(k: Bucket, cases: seq<Case>, b: int)
    requires Calibrates(k, cases, b)
    ensures SpeaksFor(k, cases, b)
  {
    SameCount(cases, IsInBucket(b), (c: Case) => InBucket(c, b));
    SameCount(cases, IsRightInBucket(b), (c: Case) => InBucket(c, b) && Predicted(c) == c.expected.category);
    RatioIsShare(k.correct, k.count);
    DividesBack(ProbabilitySum(cases, b), k.count as real);
  }

  /** The calibration lists one bucket for each fifth that some case is in, and no other. */
  lemma CalibrationMeans(s: Summary, total: nat, cases: seq<Case>)
    requires Accounts(s, total, cases)
    ensures forall k | k in s.calibration :: exists b :: 0 <= b < 5 && SpeaksFor(k, cases, b) && k.count > 0
    ensures forall b, c | 0 <= b < 5 && c in cases && InBucket(c, b) ::
      exists k | k in s.calibration :: SpeaksFor(k, cases, b)
  {
    CalibrationLists(cases, 5);
    forall k | k in s.calibration ensures exists b :: 0 <= b < 5 && SpeaksFor(k, cases, b) && k.count > 0 {
      var b :| 0 <= b < 5 && Calibrates(k, cases, b);
      BucketSpeaks(k, cases, b);
    }
    forall b, c | 0 <= b < 5 && c in cases && InBucket(c, b)
      ensures exists k | k in s.calibration :: SpeaksFor(k, cases, b)
    {
      OccursIsCounted(cases, c, IsInBucket(b));
      var k :| k in s.calibration && Calibrates(k, cases, b);
      BucketSpeaks(k, cases, b);
    }
  }
}
