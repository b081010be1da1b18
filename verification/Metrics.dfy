/** Grading answers against labels (cmd/mrmr/eval.go:156-283, 308-338): the counting loops, and that
    what they report is conserved whatever order maps are visited in. */
module Metrics {
  import opened Domain
  import opened PolicyRules
  import opened Interpretations
  import opened SystemOne
  import opened Sums

  datatype Expected = Expected(category: string, requiresAction: Option<bool>, outcome: OutcomeName)

  /** What the model and policy made of a case. */
  datatype Reply = Failed | Answered(result: Fields, outcome: OutcomeName)

  datatype Case = Case(expected: Expected, reply: Reply)

  const INVALID := "<invalid>"

  // ---- Reading one result ----

  function FieldOf(v: Option<Value>, name: string): Option<Value> {
    if v.Some? && v.value.Object? && name in v.value.fields then Some(v.value.fields[name]) else None
  }

  /** A string category, or the choice of a judged one; anything else reads as "". */
  function CategoryOf(result: Fields): string {
    var c := FieldOf(Some(Object(result)), "category");
    if c.Some? && c.value.Text? then c.value.s
    else
      var choice := FieldOf(c, "choice");
      if choice.Some? && choice.value.Text? then choice.value.s else ""
  }

  function RequiresActionOf(result: Fields): Option<bool> {
    var a := FieldOf(Some(Object(result)), "requires_action");
    if a.Some? && a.value.Bool? then Some(a.value.b)
    else
      var value, noul := FieldOf(a, "value"), FieldOf(a, "noul");
      if value.Some? && value.value.Bool? then Some(value.value.b)
      else if noul.Some? && noul.value.Number? then Some(noul.value.n >= 0.5)
      else None
  }

  /** A flat answer is read as it stands; of a judged one the yes-or-no value is read first and then its
      probability, where one half is already a yes. */
  lemma AnswersAreRead(result: Fields)
    ensures CategoryOf(result)
         == if "category" !in result then ""
            else match result["category"]
                 case Text(s) => s
                 case Object(answer) => if "choice" in answer && answer["choice"].Text? then answer["choice"].s else ""
                 case _ => ""
    ensures RequiresActionOf(result)
         == if "requires_action" !in result then None
            else match result["requires_action"]
                 case Bool(b) => Some(b)
                 case Object(answer) =>
                   if "value" in answer && answer["value"].Bool? then Some(answer["value"].b)
                   else if "noul" in answer && answer["noul"].Number? then Some(2.0 * answer["noul"].n >= 1.0)
                   else None
                 case _ => None
  {
  }

  /** The probability given to the chosen category, if the answer carries one. */
  function ProbabilityOf(result: Fields): Option<real> {
    var p := FieldOf(FieldOf(FieldOf(Some(Object(result)), "category"), "probabilities"), CategoryOf(result));
    if p.Some? && p.value.Number? then Some(p.value.n) else None
  }

  /** It is a number, filed under the chosen category, among the probabilities of a judged answer. */
  lemma ProbabilityIsTheChosens(result: Fields, p: real)
    ensures ProbabilityOf(result) == Some(p) <==>
      && "category" in result && result["category"].Object? && "probabilities" in result["category"].fields
      && var given := result["category"].fields["probabilities"];
         given.Object? && CategoryOf(result) in given.fields && given.fields[CategoryOf(result)] == Number(p)
  {
  }

  function Predicted(c: Case): string {
    if c.reply.Answered? then CategoryOf(c.reply.result) else INVALID
  }

  /** A case whose answer failed counts as predicted under the reserved word. */
  lemma FailuresAreReserved(c: Case)
    ensures Predicted(c) == match c.reply case Answered(result, _) => CategoryOf(result) case Failed => "<invalid>"
  {
  }

  predicate CategoryRight(c: Case) { c.reply.Answered? && Predicted(c) == c.expected.category }
  predicate ActionRight(c: Case) {
    c.expected.requiresAction.Some? && c.reply.Answered? && RequiresActionOf(c.reply.result) == c.expected.requiresAction
  }
  predicate OutcomeRight(c: Case) { c.reply.Answered? && c.reply.outcome == c.expected.outcome }
  function OutcomeOf(c: Case): OutcomeName { if c.reply.Answered? then c.reply.outcome else Ignores }
  predicate ExpectsEffect(c: Case) { c.expected.outcome != Ignores }

  /** The probability range the answer validators guarantee. */
  predicate InRange(c: Case) {
    c.reply.Answered? && ProbabilityOf(c.reply.result).Some? ==> UnitProbability(ProbabilityOf(c.reply.result).value)
  }

  /** A judged choice as the result map that policies and evaluation read. */
  function Rendered(n: Answer): Value {
    Object(map["type" := Text("choice"), "choice" := Text(n.choice),
               "probabilities" := Object(map k | k in n.probabilities :: Number(n.probabilities[k]))])
  }

  /** The range is no assumption for an accepted answer: its chosen category always carries a
      probability, and one between 0 and 1. */
  lemma JudgedCategoryIsInRange(n: Answer, q: Question, result: Fields)
    requires Normalizable(q) && q.kind == Choice && Judged(n, q)
    requires "category" in result && result["category"] == Rendered(n)
    ensures CategoryOf(result) == n.choice
    ensures ProbabilityOf(result) == Some(n.probabilities[n.choice]) && UnitProbability(n.probabilities[n.choice])
  {
    var c := FieldOf(Some(Object(result)), "category");
    assert c == Some(Rendered(n));
    assert FieldOf(c, "choice") == Some(Text(n.choice));
  }

  function BucketOf(p: real): int {
    var i := (p * 5.0).Floor;
    if i < 4 then i else 4
  }

  /** Five equal buckets, each with its lower end; the last holds 1 as well. */
  lemma BucketsAreFifths(p: real, b: int)
    requires 0.0 <= p <= 1.0
    ensures BucketOf(p) == b <==>
      0 <= b <= 4 && b as real <= 5.0 * p && (b < 4 ==> 5.0 * p < (b + 1) as real)
  {
  }

  predicate InBucket(c: Case, i: int) {
    c.reply.Answered? && ProbabilityOf(c.reply.result).Some? && BucketOf(ProbabilityOf(c.reply.result).value) == i
  }

  // ---- Counting ----

  ghost function Count(cases: seq<Case>, test: Case -> bool): nat
    decreases |cases|
  {
    if cases == [] then 0
    else Count(cases[..|cases| - 1], test) + (if test(cases[|cases| - 1]) then 1 else 0)
  }

  function IsPair(e: string, p: string): Case -> bool { (c: Case) => c.expected.category == e && Predicted(c) == p }
  function IsLabelled(e: string): Case -> bool { (c: Case) => c.expected.category == e }
  function IsPredicted(p: string): Case -> bool { (c: Case) => Predicted(c) == p }

  ghost function Pairs(cases: seq<Case>, e: string, p: string): nat {
    Count(cases, IsPair(e, p))
  }

  ghost function Labelled(cases: seq<Case>, e: string): nat {
    Count(cases, IsLabelled(e))
  }

  ghost function PredictedAs(cases: seq<Case>, p: string): nat {
    Count(cases, IsPredicted(p))
  }

  lemma CountSnoc(cases: seq<Case>, i: nat, test: Case -> bool)
    requires i < |cases|
    ensures Count(cases[..i + 1], test) == Count(cases[..i], test) + (if test(cases[i]) then 1 else 0)
  {
    assert cases[..i + 1][..i] == cases[..i];
  }

  lemma {:induction false} CountMonotone(cases: seq<Case>, a: Case -> bool, b: Case -> bool)
    requires forall c | c in cases && a(c) :: b(c)
    ensures Count(cases, a) <= Count(cases, b)
    decreases |cases|
  {
    if cases != [] {
      CountMonotone(cases[..|cases| - 1], a, b);
      assert cases[|cases| - 1] in cases;
    }
  }

  lemma {:induction false} CountAll(cases: seq<Case>, test: Case -> bool)
    ensures Count(cases, test) <= |cases|
    ensures (forall c | c in cases :: test(c)) ==> Count(cases, test) == |cases|
    decreases |cases|
  {
    if cases != [] {
      CountAll(cases[..|cases| - 1], test);
    }
  }

  lemma {:induction false} CountSplit(cases: seq<Case>, a: Case -> bool, b: Case -> bool, both: Case -> bool)
    requires forall c | c in cases :: both(c) == (a(c) || b(c)) && !(a(c) && b(c))
    ensures Count(cases, both) == Count(cases, a) + Count(cases, b)
    decreases |cases|
  {
    if cases != [] {
      CountSplit(cases[..|cases| - 1], a, b, both);
      assert cases[|cases| - 1] in cases;
    }
  }

  // ---- The confusion matrix ----

  type Row = map<string, nat>
  type Confusion = map<string, Row>

  function Cell(m: Confusion, e: string, p: string): nat {
    if e in m && p in m[e] then m[e][p] else 0
  }

  /** m holds the count of every pair that occurs and nothing else. */
  ghost predicate Tallies(m: Confusion, cases: seq<Case>) {
    && (forall e, p :: Cell(m, e, p) == Pairs(cases, e, p))
    && (forall e | e in m :: m[e] != map[])
    && (forall e, p | e in m && p in m[e] :: m[e][p] > 0)
  }

  function Bump(m: Confusion, e: string, p: string): Confusion {
    var row := if e in m then m[e] else map[];
    m[e := row[p := (if p in row then row[p] else 0) + 1]]
  }

  lemma BumpTallies(m: Confusion, cases: seq<Case>, i: nat)
    requires i < |cases| && Tallies(m, cases[..i])
    ensures Tallies(Bump(m, cases[i].expected.category, Predicted(cases[i])), cases[..i + 1])
  {
    var m' := Bump(m, cases[i].expected.category, Predicted(cases[i]));
    forall e, p ensures Cell(m', e, p) == Pairs(cases[..i + 1], e, p) {
      CountSnoc(cases, i, IsPair(e, p));
      assert Cell(m, e, p) == Pairs(cases[..i], e, p);
    }
  }

  /** The counts leave no choice about the matrix, whatever order it was built in. */
  lemma TalliesDetermine(m1: Confusion, m2: Confusion, cases: seq<Case>)
    requires Tallies(m1, cases) && Tallies(m2, cases)
    ensures m1 == m2
  {
    forall e, p ensures Cell(m1, e, p) == Cell(m2, e, p) {
      assert Cell(m1, e, p) == Pairs(cases, e, p) == Cell(m2, e, p);
    }
    RowsWithin(m1, m2);
    RowsWithin(m2, m1);
    assert m1.Keys == m2.Keys;
    forall e | e in m1 ensures m1[e] == m2[e] {
      assert m1[e].Keys == m2[e].Keys;
    }
  }

  lemma RowsWithin(m1: Confusion, m2: Confusion)
    requires forall e, p :: Cell(m1, e, p) == Cell(m2, e, p)
    requires forall e | e in m1 :: m1[e] != map[]
    requires forall e, p | e in m1 && p in m1[e] :: m1[e][p] > 0
    ensures forall e | e in m1 :: e in m2 && forall p | p in m1[e] :: p in m2[e] && m2[e][p] == m1[e][p]
  {
    forall e | e in m1 ensures e in m2 && forall p | p in m1[e] :: p in m2[e] && m2[e][p] == m1[e][p] {
      var p :| p in m1[e];
      assert Cell(m1, e, p) > 0;
      forall p | p in m1[e] ensures p in m2[e] && m2[e][p] == m1[e][p] {
        assert Cell(m1, e, p) == Cell(m2, e, p);
      }
    }
  }

  // ---- Sums over an enumeration of labels ----

  ghost function Total(keys: seq<string>, f: string -> nat): nat {
    if keys == [] then 0 else Total(keys[..|keys| - 1], f) + f(keys[|keys| - 1])
  }

  lemma {:induction false} TotalSame(keys: seq<string>, f: string -> nat, g: string -> nat)
    requires forall k | k in keys :: f(k) == g(k)
    ensures Total(keys, f) == Total(keys, g)
  {
    if keys != [] {
      TotalSame(keys[..|keys| - 1], f, g);
    }
  }

  lemma {:induction false} TotalBumped(keys: seq<string>, f: string -> nat, g: string -> nat, at: string)
    requires Distinct(keys) && at in keys
    requires forall k | k in keys :: g(k) == f(k) + (if k == at then 1 else 0)
    ensures Total(keys, g) == Total(keys, f) + 1
  {
    var init, last := keys[..|keys| - 1], keys[|keys| - 1];
    if last == at {
      TotalSame(init, f, g);
    } else {
      assert at in init;
      TotalBumped(init, f, g, at);
    }
  }

  lemma {:induction false} TotalZero(keys: seq<string>, f: string -> nat)
    requires forall k | k in keys :: f(k) == 0
    ensures Total(keys, f) == 0
  {
    if keys != [] {
      TotalZero(keys[..|keys| - 1], f);
    }
  }

  function Among(test: Case -> bool, name: Case -> string, k: string): Case -> bool {
    (c: Case) => test(c) && name(c) == k
  }

  ghost function Split(cases: seq<Case>, test: Case -> bool, name: Case -> string): string -> nat {
    (k: string) => Count(cases, Among(test, name, k))
  }

  /** Splitting a count by a label: if the labels of every case that passes are enumerated, the counts
      for the labels add up to the count. Any enumeration will do. */
  lemma {:induction false} CountsAddUp(cases: seq<Case>, test: Case -> bool, name: Case -> string, keys: seq<string>)
    requires Distinct(keys) && forall c | c in cases && test(c) :: name(c) in keys
    ensures Total(keys, Split(cases, test, name)) == Count(cases, test)
    decreases |cases|
  {
    var counts := Split(cases, test, name);
    if cases == [] {
      TotalZero(keys, counts);
    } else {
      var init, last := cases[..|cases| - 1], cases[|cases| - 1];
      CountsAddUp(init, test, name, keys);
      var before := Split(init, test, name);
      assert last in cases;
      if test(last) {
        TotalBumped(keys, before, counts, name(last));
      } else {
        TotalSame(keys, before, counts);
      }
    }
  }

  // ---- Conservation ----

  function LabelOf(): Case -> string { (c: Case) => c.expected.category }
  function PredictionOf(): Case -> string { (c: Case) => Predicted(c) }
  function Always(): Case -> bool { (c: Case) => true }

  ghost function RowOf(m: Confusion, e: string): string -> nat { (p: string) => Cell(m, e, p) }
  ghost function ColumnOf(m: Confusion, p: string): string -> nat { (e: string) => Cell(m, e, p) }
  ghost function Diagonal(m: Confusion): string -> nat { (e: string) => Cell(m, e, e) }

  /** Every pair that occurs has its entry. */
  lemma {:induction false} OccursIsCounted(cases: seq<Case>, c: Case, test: Case -> bool)
    requires c in cases && test(c)
    ensures Count(cases, test) > 0
    decreases |cases|
  {
    if cases[|cases| - 1] != c {
      assert c in cases[..|cases| - 1];
      OccursIsCounted(cases[..|cases| - 1], c, test);
    }
  }

  lemma EntryExists(m: Confusion, cases: seq<Case>, c: Case)
    requires Tallies(m, cases) && c in cases
    ensures c.expected.category in m && Predicted(c) in m[c.expected.category]
  {
    OccursIsCounted(cases, c, IsPair(c.expected.category, Predicted(c)));
    assert Cell(m, c.expected.category, Predicted(c)) == Pairs(cases, c.expected.category, Predicted(c));
  }

  /** A row of the matrix sums to its label's support, in whatever order its columns are visited. */
  lemma RowSumsToSupport(m: Confusion, cases: seq<Case>, e: string, columns: seq<string>)
    requires Tallies(m, cases) && e in m && Distinct(columns) && forall p | p in m[e] :: p in columns
    ensures Total(columns, RowOf(m, e)) == Labelled(cases, e)
  {
    forall c | c in cases && IsLabelled(e)(c) ensures PredictionOf()(c) in columns {
      EntryExists(m, cases, c);
    }
    CountsAddUp(cases, IsLabelled(e), PredictionOf(), columns);
    forall p | p in columns ensures RowOf(m, e)(p) == Split(cases, IsLabelled(e), PredictionOf())(p) {
      SameCount(cases, IsPair(e, p), Among(IsLabelled(e), PredictionOf(), p));
    }
    TotalSame(columns, RowOf(m, e), Split(cases, IsLabelled(e), PredictionOf()));
  }

  lemma SameCount(cases: seq<Case>, a: Case -> bool, b: Case -> bool)
    requires forall c | c in cases :: a(c) == b(c)
    ensures Count(cases, a) == Count(cases, b)
  {
  }

  /** A column sums to the number of predictions of its label. */
  lemma ColumnSumsToPredictions(m: Confusion, cases: seq<Case>, p: string, rows: seq<string>)
    requires Tallies(m, cases) && Distinct(rows) && forall e | e in m :: e in rows
    ensures Total(rows, ColumnOf(m, p)) == PredictedAs(cases, p)
  {
    forall c | c in cases && IsPredicted(p)(c) ensures LabelOf()(c) in rows {
      EntryExists(m, cases, c);
    }
    CountsAddUp(cases, IsPredicted(p), LabelOf(), rows);
    forall e | e in rows ensures ColumnOf(m, p)(e) == Split(cases, IsPredicted(p), LabelOf())(e) {
      SameCount(cases, IsPair(e, p), Among(IsPredicted(p), LabelOf(), e));
    }
    TotalSame(rows, ColumnOf(m, p), Split(cases, IsPredicted(p), LabelOf()));
  }

  /** The supports sum to the number of judged cases. */
  lemma SupportsSumToCases(m: Confusion, cases: seq<Case>, rows: seq<string>)
    requires Tallies(m, cases) && Distinct(rows) && forall e | e in m :: e in rows
    ensures Total(rows, (e: string) => Labelled(cases, e)) == |cases|
  {
    forall c | c in cases && Always()(c) ensures LabelOf()(c) in rows {
      EntryExists(m, cases, c);
    }
    CountsAddUp(cases, Always(), LabelOf(), rows);
    CountAll(cases, Always());
    forall e | e in rows ensures Labelled(cases, e) == Split(cases, Always(), LabelOf())(e) {
      SameCount(cases, IsLabelled(e), Among(Always(), LabelOf(), e));
    }
    TotalSame(rows, (e: string) => Labelled(cases, e), Split(cases, Always(), LabelOf()));
  }

  /** Every entry of the matrix, row by row and column by column. */
  ghost function ByRow(m: Confusion, rows: seq<string>, columns: seq<string>): nat {
    Total(rows, (e: string) => Total(columns, RowOf(m, e)))
  }

  ghost function ByColumn(m: Confusion, rows: seq<string>, columns: seq<string>): nat {
    Total(columns, (p: string) => Total(rows, ColumnOf(m, p)))
  }

  ghost predicate Spans(m: Confusion, rows: seq<string>, columns: seq<string>) {
    && Distinct(rows) && Distinct(columns)
    && (forall e | e in m :: e in rows && forall p | p in m[e] :: p in columns)
  }

  /** The entries of the matrix sum to the number of judged cases, whichever way they are added up. */
  lemma EntriesSumToCases(m: Confusion, cases: seq<Case>, rows: seq<string>, columns: seq<string>)
    requires Tallies(m, cases) && Spans(m, rows, columns)
    ensures ByRow(m, rows, columns) == |cases| == ByColumn(m, rows, columns)
  {
    forall e | e in rows ensures Total(columns, RowOf(m, e)) == Labelled(cases, e) {
      if e in m {
        RowSumsToSupport(m, cases, e, columns);
      } else {
        TotalZero(columns, RowOf(m, e));
        UnlabelledHasNoSupport(m, cases, e);
      }
    }
    TotalSame(rows, (e: string) => Total(columns, RowOf(m, e)), (e: string) => Labelled(cases, e));
    SupportsSumToCases(m, cases, rows);
    forall p | p in columns ensures Total(rows, ColumnOf(m, p)) == PredictedAs(cases, p) {
      ColumnSumsToPredictions(m, cases, p, rows);
    }
    TotalSame(columns, (p: string) => Total(rows, ColumnOf(m, p)), (p: string) => PredictedAs(cases, p));
    PredictionsSumToCases(m, cases, columns);
  }

  lemma PredictionsSumToCases(m: Confusion, cases: seq<Case>, columns: seq<string>)
    requires Tallies(m, cases) && Distinct(columns) && forall e, p | e in m && p in m[e] :: p in columns
    ensures Total(columns, (p: string) => PredictedAs(cases, p)) == |cases|
  {
    forall c | c in cases && Always()(c) ensures PredictionOf()(c) in columns {
      EntryExists(m, cases, c);
    }
    CountsAddUp(cases, Always(), PredictionOf(), columns);
    CountAll(cases, Always());
    forall p | p in columns ensures PredictedAs(cases, p) == Split(cases, Always(), PredictionOf())(p) {
      SameCount(cases, IsPredicted(p), Among(Always(), PredictionOf(), p));
    }
    TotalSame(columns, (p: string) => PredictedAs(cases, p), Split(cases, Always(), PredictionOf()));
  }

  lemma UnlabelledHasNoSupport(m: Confusion, cases: seq<Case>, e: string)
    requires Tallies(m, cases) && e !in m
    ensures Labelled(cases, e) == 0
  {
    forall c | c in cases ensures !IsLabelled(e)(c) {
      EntryExists(m, cases, c);
    }
    NoneCounted(cases, IsLabelled(e));
  }

  predicate OnDiagonal(c: Case) { Predicted(c) == c.expected.category }

  /** A failed case whose label is the reserved word lands on the diagonal without being right. */
  predicate FailsReserved(c: Case) { c.reply.Failed? && c.expected.category == INVALID }

  function IsOnDiagonal(): Case -> bool { (c: Case) => OnDiagonal(c) }
  function IsCategoryRight(): Case -> bool { (c: Case) => CategoryRight(c) }
  function IsReservedFailure(): Case -> bool { (c: Case) => FailsReserved(c) }

  /** The diagonal is the number of right categories plus the failed cases under the reserved label;
      so it is the number of right categories exactly when no failed case carries that label. */
  lemma DiagonalIsCorrect(m: Confusion, cases: seq<Case>, rows: seq<string>)
    requires Tallies(m, cases) && Distinct(rows) && forall e | e in m :: e in rows
    ensures Total(rows, Diagonal(m)) == Count(cases, IsCategoryRight()) + Count(cases, IsReservedFailure())
    ensures Total(rows, Diagonal(m)) == Count(cases, IsCategoryRight()) <==> forall c | c in cases :: !FailsReserved(c)
  {
    forall c | c in cases && IsOnDiagonal()(c) ensures LabelOf()(c) in rows {
      EntryExists(m, cases, c);
    }
    CountsAddUp(cases, IsOnDiagonal(), LabelOf(), rows);
    forall e | e in rows ensures Diagonal(m)(e) == Split(cases, IsOnDiagonal(), LabelOf())(e) {
      SameCount(cases, IsPair(e, e), Among(IsOnDiagonal(), LabelOf(), e));
    }
    TotalSame(rows, Diagonal(m), Split(cases, IsOnDiagonal(), LabelOf()));
    CountSplit(cases, IsCategoryRight(), IsReservedFailure(), IsOnDiagonal());
    if c :| c in cases && FailsReserved(c) {
      OccursIsCounted(cases, c, IsReservedFailure());
    } else {
      NoneCounted(cases, IsReservedFailure());
    }
  }

  /** It does happen: one failed case labelled with the reserved word puts a one on the diagonal although
      nothing was right. */
  lemma ReservedLabelMisleads()
    ensures var cases := [Case(Expected(INVALID, None, Ignores), Failed)];
      var m := map[INVALID := map[INVALID := 1]];
      && Tallies(m, cases) && Total([INVALID], Diagonal(m)) == 1
      && Count(cases, IsCategoryRight()) == 0 && FailsReserved(cases[0])
  {
    var cases := [Case(Expected(INVALID, None, Ignores), Failed)];
    assert Bump(map[], INVALID, INVALID) == map[INVALID := map[INVALID := 1]];
    assert cases[..1] == cases && cases[..0] == [];
    BumpTallies(map[], cases, 0);
    DiagonalIsCorrect(map[INVALID := map[INVALID := 1]], cases, [INVALID]);
  }

  lemma {:induction false} NoneCounted(cases: seq<Case>, test: Case -> bool)
    requires forall c | c in cases :: !test(c)
    ensures Count(cases, test) == 0
    decreases |cases|
  {
    if cases != [] {
      NoneCounted(cases[..|cases| - 1], test);
      assert cases[|cases| - 1] in cases;
    }
  }

  // ---- Ratios ----

  function Ratio(n: nat, total: nat): (r: real) {
    if total == 0 then 0.0 else n as real / total as real
  }

  /** r is the share n has of total: nothing of nothing. */
  ghost predicate IsShare(r: real, n: nat, total: nat) {
    if total == 0 then r == 0.0 else r * total as real == n as real
  }

  lemma RatioIsShare(n: nat, total: nat)
    ensures IsShare(Ratio(n, total), n, total)
  {
    if total > 0 {
      DividesBack(n as real, total as real);
    }
  }

  lemma DividesBack(n: real, total: real)
    requires total > 0.0
    ensures n / total * total == n
  {
  }

  lemma RatioInUnit(n: nat, total: nat)
    requires n <= total
    ensures 0.0 <= Ratio(n, total) <= 1.0
  {
  }
}
