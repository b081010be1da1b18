/** Latency per model (internal/storage/dashboard.go:190-246): grouping a window of decisions, and
    nearest-rank percentiles of the successful ones. */
module Timing {
  import opened Domain

  datatype Key = Key(interpreter: string, model: string)

  /** One decision of the window, newest first. timeout: its recorded error names a deadline. */
  datatype Row = Row(key: Key, ok: bool, ms: int, timeout: bool)

  datatype ModelTiming = ModelTiming(key: Key, lastOk: bool, lastMs: int, count: nat, successes: nat, errors: nat,
                                     timeouts: nat, median: Option<int>, p95: Option<int>)

  // ---- Grouping ----

  /** The keys in order of first appearance. */
  function Keys(rows: seq<Row>): (keys: seq<Key>)
    ensures forall i, j | 0 <= i < j < |keys| :: keys[i] != keys[j]
  {
    if rows == [] then []
    else
      var init, k := rows[..|rows| - 1], rows[|rows| - 1].key;
      Keys(init) + if k in Keys(init) then [] else [k]
  }

  function OfKey(rows: seq<Row>, k: Key): (own: seq<Row>) {
    if rows == [] then []
    else OfKey(rows[..|rows| - 1], k) + if rows[|rows| - 1].key == k then [rows[|rows| - 1]] else []
  }

  /** The groups partition the window: a key is listed exactly when it has rows. */
  lemma {:induction false} ListedIffItHasRows(rows: seq<Row>, k: Key)
    ensures k in Keys(rows) <==> OfKey(rows, k) != []
    ensures forall r | r in OfKey(rows, k) :: r.key == k && r in rows
    ensures forall r | r in rows && r.key == k :: r in OfKey(rows, k)
  {
    if rows != [] {
      var init, last := rows[..|rows| - 1], rows[|rows| - 1];
      ListedIffItHasRows(init, k);
      assert rows == init + [last];
    }
  }

  function CountIf(rows: seq<Row>, test: Row -> bool): nat {
    if rows == [] then 0 else CountIf(rows[..|rows| - 1], test) + if test(rows[|rows| - 1]) then 1 else 0
  }

  function IsOk(): Row -> bool { (r: Row) => r.ok }
  function IsError(): Row -> bool { (r: Row) => !r.ok }
  function IsTimeout(): Row -> bool { (r: Row) => !r.ok && r.timeout }

  function Latencies(rows: seq<Row>): seq<int> {
    if rows == [] then [] else Latencies(rows[..|rows| - 1]) + if rows[|rows| - 1].ok then [rows[|rows| - 1].ms] else []
  }

  /** What the rows of one model say before percentiles. */
  function Grouped(k: Key, own: seq<Row>): ModelTiming
    requires own != []
  {
    ModelTiming(k, own[0].ok, own[0].ms, |own|, CountIf(own, IsOk()), CountIf(own, IsError()), CountIf(own, IsTimeout()), None, None)
  }

  function Extend(m: ModelTiming, r: Row): ModelTiming {
    if r.ok then m.(count := m.count + 1, successes := m.successes + 1)
    else m.(count := m.count + 1, errors := m.errors + 1, timeouts := if r.timeout then m.timeouts + 1 else m.timeouts)
  }

  lemma GroupedSnoc(k: Key, own: seq<Row>, r: Row)
    requires own != []
    ensures Grouped(k, own + [r]) == Extend(Grouped(k, own), r)
    ensures Latencies(own + [r]) == Latencies(own) + if r.ok then [r.ms] else []
  {
  }

  lemma GroupedOne(k: Key, r: Row)
    ensures Grouped(k, [r]) == Extend(ModelTiming(k, r.ok, r.ms, 0, 0, 0, 0, None, None), r)
    ensures Latencies([r]) == if r.ok then [r.ms] else []
  {
    assert [r][..0] == [];
    assert CountIf([], IsOk()) == CountIf([], IsError()) == CountIf([], IsTimeout()) == 0;
    assert CountIf([r], IsOk()) == CountIf([r][..0], IsOk()) + if r.ok then 1 else 0;
  }

  /** A model's rows are its successes and its errors, and only errors are timeouts. */
  lemma {:induction false} CountsBalance(rows: seq<Row>)
    ensures CountIf(rows, IsOk()) + CountIf(rows, IsError()) == |rows|
    ensures CountIf(rows, IsTimeout()) <= CountIf(rows, IsError())
    ensures |Latencies(rows)| == CountIf(rows, IsOk())
  {
    if rows != [] {
      CountsBalance(rows[..|rows| - 1]);
    }
  }

  // ---- Sorting and counting ----

  ghost predicate Sorted(s: seq<int>) {
    forall i, j | 0 <= i < j < |s| :: s[i] <= s[j]
  }

  function CountAtMost(s: seq<int>, v: int): nat {
    if s == [] then 0 else CountAtMost(s[..|s| - 1], v) + if s[|s| - 1] <= v then 1 else 0
  }

  lemma {:induction false} CountAppend(a: seq<int>, b: seq<int>, v: int)
    ensures CountAtMost(a + b, v) == CountAtMost(a, v) + CountAtMost(b, v)
    decreases |b|
  {
    if b == [] {
      assert a + b == a;
    } else {
      assert (a + b)[..|a + b| - 1] == a + b[..|b| - 1];
      CountAppend(a, b[..|b| - 1], v);
    }
  }

  lemma WithoutOne(b: seq<int>, i: nat)
    requires i < |b|
    ensures multiset(b[..i] + b[i + 1..]) == multiset(b) - multiset{b[i]}
  {
    SplitAt(b, i);
  }

  lemma CountWithout(b: seq<int>, i: nat, v: int)
    requires i < |b|
    ensures CountAtMost(b, v) == CountAtMost(b[..i] + b[i + 1..], v) + if b[i] <= v then 1 else 0
  {
    var front, back := b[..i], b[i + 1..];
    CountAppend(front, back, v);
    CountAppend(front + [b[i]], back, v);
    CountOneMore(front, b[i], v);
    SplitAt(b, i);
  }

  lemma CountOneMore(s: seq<int>, x: int, v: int)
    ensures CountAtMost(s + [x], v) == CountAtMost(s, v) + if x <= v then 1 else 0
  {
    assert (s + [x])[..|s|] == s;
  }

  lemma SplitAt(b: seq<int>, i: nat)
    requires i < |b|
    ensures b == b[..i] + [b[i]] + b[i + 1..]
  {
  }

  /** A permutation has the same counts. */
  lemma {:induction false} CountPermuted(a: seq<int>, b: seq<int>, v: int)
    requires multiset(a) == multiset(b)
    ensures CountAtMost(a, v) == CountAtMost(b, v)
    decreases |a|
  {
    if a == [] {
      assert |multiset(b)| == 0;
    } else {
      var last := |a| - 1;
      assert a[last] in multiset(b);
      var i :| 0 <= i < |b| && b[i] == a[last];
      WithoutOne(a, last);
      WithoutOne(b, i);
      CountPermuted(a[..last] + a[last + 1..], b[..i] + b[i + 1..], v);
      CountWithout(a, last, v);
      CountWithout(b, i, v);
    }
  }

  /** In a sorted sample the values up to position k are at most the k-th, and fewer are at most
      anything smaller. */
  lemma {:induction false} CountSorted(s: seq<int>, k: nat, v: int)
    requires Sorted(s) && k < |s|
    ensures v >= s[k] ==> CountAtMost(s, v) >= k + 1
    ensures v < s[k] ==> CountAtMost(s, v) <= k
    decreases |s|
  {
    var init := s[..|s| - 1];
    if k < |s| - 1 {
      CountSorted(init, k, v);
    } else {
      AllOrFewer(init, v);
    }
  }

  lemma {:induction false} AllOrFewer(s: seq<int>, v: int)
    requires Sorted(s)
    ensures CountAtMost(s, v) <= |s|
    ensures (forall x | x in s :: x <= v) ==> CountAtMost(s, v) == |s|
    decreases |s|
  {
    if s != [] {
      AllOrFewer(s[..|s| - 1], v);
      assert s[|s| - 1] in s;
    }
  }

  // ---- Nearest-rank percentiles ----

  /** v is the least value of the sample with at least percent of the sample at or below it. */
  ghost predicate IsPercentile(values: seq<int>, v: int, percent: nat) {
    && v in values
    && 100 * CountAtMost(values, v) >= percent * |values|
    && forall w | w in values && w < v :: 100 * CountAtMost(values, w) < percent * |values|
  }

  /** At most one value can be it, so the definition pins down what is reported. */
  lemma PercentileIsUnique(values: seq<int>, v: int, w: int, percent: nat)
    requires IsPercentile(values, v, percent) && IsPercentile(values, w, percent)
    ensures v == w
  {
  }

  lemma RankIsPercentile(values: seq<int>, sorted: seq<int>, k: nat, percent: nat)
    requires Sorted(sorted) && multiset(sorted) == multiset(values) && k < |sorted|
    requires 100 * k < percent * |sorted| <= 100 * (k + 1)
    ensures IsPercentile(values, sorted[k], percent)
  {
    assert |values| == |multiset(values)| == |multiset(sorted)| == |sorted|;
    assert sorted[k] in multiset(values);
    CountSorted(sorted, k, sorted[k]);
    CountPermuted(sorted, values, sorted[k]);
    forall w | w in values && w < sorted[k] ensures 100 * CountAtMost(values, w) < percent * |values| {
      CountSorted(sorted, k, w);
      CountPermuted(sorted, values, w);
    }
  }

  /** The two indexes the summary computes are in bounds and are the nearest ranks. */
  lemma ReportedRanks(n: nat)
    requires n > 0
    ensures var k := (n - 1) / 2; k < n && 100 * k < 50 * n <= 100 * (k + 1)
    ensures var k := (95 * n + 99) / 100 - 1; 0 <= k < n && 100 * k < 95 * n <= 100 * (k + 1)
  {
  }

  /** Inserting a value where it belongs. */
  lemma InsertedIsSorted(sorted: seq<int>, at: nat, v: int)
    requires Sorted(sorted) && at <= |sorted|
    requires forall j | 0 <= j < at :: sorted[j] <= v
    requires at < |sorted| ==> v < sorted[at]
    ensures Sorted(sorted[..at] + [v] + sorted[at..])
  {
    var more := sorted[..at] + [v] + sorted[at..];
    forall i, j | 0 <= i < j < |more| ensures more[i] <= more[j] {
      InsertedAt(sorted, at, v, i);
      InsertedAt(sorted, at, v, j);
    }
  }

  lemma InsertedAt(sorted: seq<int>, at: nat, v: int, k: nat)
    requires at <= |sorted| && k <= |sorted|
    ensures (sorted[..at] + [v] + sorted[at..])[k] == if k < at then sorted[k] else if k == at then v else sorted[k - 1]
  {
  }

  lemma InsertedIsAdded(sorted: seq<int>, at: nat, v: int)
    requires at <= |sorted|
    ensures multiset(sorted[..at] + [v] + sorted[at..]) == multiset(sorted) + multiset{v}
  {
    assert sorted == sorted[..at] + sorted[at..];
  }

  method Sort(values: seq<int>) returns (sorted: seq<int>)
    ensures Sorted(sorted) && multiset(sorted) == multiset(values)
  {
    sorted := [];
    for i := 0 to |values|
      invariant Sorted(sorted) && multiset(sorted) == multiset(values[..i])
    {
      var at := 0;
      while at < |sorted| && sorted[at] <= values[i]
        invariant 0 <= at <= |sorted| && forall j | 0 <= j < at :: sorted[j] <= values[i]
      {
        at := at + 1;
      }
      InsertedIsSorted(sorted, at, values[i]);
      InsertedIsAdded(sorted, at, values[i]);
      assert values[..i + 1] == values[..i] + [values[i]];
      sorted := sorted[..at] + [values[i]] + sorted[at..];
    }
    assert values[..|values|] == values;
  }

  // ---- The summary as written ----

  ghost predicate Percentiles(m: ModelTiming, latencies: seq<int>) {
    if latencies == [] then m.median.None? && m.p95.None?
    else
      && m.median.Some? && IsPercentile(latencies, m.median.value, 50)
      && m.p95.Some? && IsPercentile(latencies, m.p95.value, 95)
  }

  method AddPercentiles(m: ModelTiming, latencies: seq<int>) returns (m': ModelTiming)
    requires m.median.None? && m.p95.None?
    ensures m'.(median := None, p95 := None) == m && Percentiles(m', latencies)
  {
    m' := m;
    var sorted := Sort(latencies);
    if |sorted| > 0 {
      assert |latencies| == |multiset(latencies)| == |multiset(sorted)| == |sorted|;
      ReportedRanks(|sorted|);
      var middle, tail := (|sorted| - 1) / 2, (95 * |sorted| + 99) / 100 - 1;
      RankIsPercentile(latencies, sorted, middle, 50);
      RankIsPercentile(latencies, sorted, tail, 95);
      m' := m.(median := Some(sorted[middle]), p95 := Some(sorted[tail]));
    } else {
      assert |multiset(latencies)| == 0;
    }
  }

  /** m and latencies say exactly what the rows of k say. */
  ghost predicate IsGroup(rows: seq<Row>, k: Key, m: ModelTiming, latencies: seq<int>) {
    var own := OfKey(rows, k);
    own != [] && m == Grouped(k, own) && latencies == Latencies(own)
  }

  /** The groups of the rows seen so far, in order of first appearance. */
  ghost predicate Groups(rows: seq<Row>, models: seq<ModelTiming>, timings: seq<seq<int>>) {
    && |models| == |timings| == |Keys(rows)|
    && forall i {:trigger models[i]} | 0 <= i < |models| :: IsGroup(rows, Keys(rows)[i], models[i], timings[i])
  }

  lemma RowsSnoc(rows: seq<Row>, n: nat, k: Key)
    requires n < |rows|
    ensures OfKey(rows[..n + 1], k) == OfKey(rows[..n], k) + if rows[n].key == k then [rows[n]] else []
    ensures Keys(rows[..n + 1]) == Keys(rows[..n]) + if rows[n].key in Keys(rows[..n]) then [] else [rows[n].key]
  {
    assert rows[..n + 1][..n] == rows[..n];
  }

  function Latency(r: Row): seq<int> { if r.ok then [r.ms] else [] }

  function Opened(r: Row): ModelTiming { ModelTiming(r.key, r.ok, r.ms, 0, 0, 0, 0, None, None) }

  /** Only the group of the next row changes. */
  lemma OtherGroupStays(rows: seq<Row>, n: nat, k: Key, m: ModelTiming, latencies: seq<int>)
    requires n < |rows| && IsGroup(rows[..n], k, m, latencies) && k != rows[n].key
    ensures IsGroup(rows[..n + 1], k, m, latencies)
  {
    RowsSnoc(rows, n, k);
    assert OfKey(rows[..n + 1], k) == OfKey(rows[..n], k);
  }

  lemma OwnGroupGrows(rows: seq<Row>, n: nat, m: ModelTiming, latencies: seq<int>)
    requires n < |rows| && IsGroup(rows[..n], rows[n].key, m, latencies)
    ensures IsGroup(rows[..n + 1], rows[n].key, Extend(m, rows[n]), latencies + Latency(rows[n]))
  {
    RowsSnoc(rows, n, rows[n].key);
    GroupedSnoc(rows[n].key, OfKey(rows[..n], rows[n].key), rows[n]);
  }

  lemma NewGroupStarts(rows: seq<Row>, n: nat)
    requires n < |rows| && rows[n].key !in Keys(rows[..n])
    ensures IsGroup(rows[..n + 1], rows[n].key, Extend(Opened(rows[n]), rows[n]), Latency(rows[n]))
  {
    RowsSnoc(rows, n, rows[n].key);
    ListedIffItHasRows(rows[..n], rows[n].key);
    GroupedOne(rows[n].key, rows[n]);
    assert OfKey(rows[..n + 1], rows[n].key) == [rows[n]];
  }

  method Group(rows: seq<Row>) returns (models: seq<ModelTiming>, timings: seq<seq<int>>)
    ensures Groups(rows, models, timings)
  {
    models, timings := [], [];
    var indices: map<Key, nat> := map[];
    for n := 0 to |rows|
      invariant Groups(rows[..n], models, timings)
      invariant forall k :: k in indices <==> k in Keys(rows[..n])
      invariant forall k | k in indices :: indices[k] < |models| && Keys(rows[..n])[indices[k]] == k
    {
      var r := rows[n];
      RowsSnoc(rows, n, r.key);
      if r.key !in indices {
        AddGroup(rows, n, models, timings);
        indices := indices[r.key := |models|];
        models, timings := models + [Extend(Opened(r), r)], timings + [Latency(r)];
      } else {
        var i := indices[r.key];
        ExtendGroup(rows, n, models, timings, i);
        models, timings := models[i := Extend(models[i], r)], timings[i := timings[i] + Latency(r)];
      }
    }
    assert rows[..|rows|] == rows;
  }

  lemma AddGroup(rows: seq<Row>, n: nat, models: seq<ModelTiming>, timings: seq<seq<int>>)
    requires n < |rows| && Groups(rows[..n], models, timings) && rows[n].key !in Keys(rows[..n])
    ensures Groups(rows[..n + 1], models + [Extend(Opened(rows[n]), rows[n])], timings + [Latency(rows[n])])
  {
    var models', timings' := models + [Extend(Opened(rows[n]), rows[n])], timings + [Latency(rows[n])];
    var before, after := Keys(rows[..n]), Keys(rows[..n + 1]);
    RowsSnoc(rows, n, rows[n].key);
    NewGroupStarts(rows, n);
    forall j | 0 <= j < |models'| ensures IsGroup(rows[..n + 1], after[j], models'[j], timings'[j]) {
      if j < |models| {
        assert models'[j] == models[j] && after[j] == before[j] && before[j] in before;
        OtherGroupStays(rows, n, before[j], models[j], timings[j]);
      }
    }
  }

  lemma ExtendGroup(rows: seq<Row>, n: nat, models: seq<ModelTiming>, timings: seq<seq<int>>, i: nat)
    requires n < |rows| && Groups(rows[..n], models, timings) && i < |models| && Keys(rows[..n])[i] == rows[n].key
    ensures Groups(rows[..n + 1], models[i := Extend(models[i], rows[n])], timings[i := timings[i] + Latency(rows[n])])
  {
    var models', timings' := models[i := Extend(models[i], rows[n])], timings[i := timings[i] + Latency(rows[n])];
    var keys := Keys(rows[..n]);
    assert rows[n].key in keys;
    RowsSnoc(rows, n, rows[n].key);
    forall j | 0 <= j < |models'| ensures IsGroup(rows[..n + 1], keys[j], models'[j], timings'[j]) {
      assert IsGroup(rows[..n], keys[j], models[j], timings[j]);
      if j == i {
        OwnGroupGrows(rows, n, models[j], timings[j]);
      } else {
        OtherGroupStays(rows, n, keys[j], models[j], timings[j]);
      }
    }
  }

  /** What the summary says of one model: its rows balance, and its percentiles are the nearest ranks of
      its successful latencies. */
  ghost predicate Reports(rows: seq<Row>, k: Key, m: ModelTiming) {
    var own := OfKey(rows, k);
    && own != [] && m.(median := None, p95 := None) == Grouped(k, own)
    && m.count == m.successes + m.errors && m.timeouts <= m.errors
    && Percentiles(m, Latencies(own))
  }

  method Report(rows: seq<Row>, k: Key, m: ModelTiming, latencies: seq<int>) returns (m': ModelTiming)
    requires IsGroup(rows, k, m, latencies)
    ensures Reports(rows, k, m')
  {
    CountsBalance(OfKey(rows, k));
    m' := AddPercentiles(m, latencies);
  }

  /** The first models report the first keys. */
  ghost predicate ReportsEach(rows: seq<Row>, keys: seq<Key>, models: seq<ModelTiming>) {
    |models| <= |keys| && forall i {:trigger Reports(rows, keys[i], models[i])} | 0 <= i < |models| :: Reports(rows, keys[i], models[i])
  }

  lemma OneMoreReport(rows: seq<Row>, keys: seq<Key>, models: seq<ModelTiming>, m: ModelTiming)
    requires ReportsEach(rows, keys, models) && |models| < |keys| && Reports(rows, keys[|models|], m)
    ensures ReportsEach(rows, keys, models + [m])
  {
    var more := models + [m];
    forall i | 0 <= i < |more| ensures Reports(rows, keys[i], more[i]) {
      if i < |models| {
        assert more[i] == models[i];
      }
    }
  }

  method Summarize(rows: seq<Row>) returns (models: seq<ModelTiming>)
    ensures |models| == |Keys(rows)| && forall i | 0 <= i < |models| :: Reports(rows, Keys(rows)[i], models[i])
  {
    var groups, timings := Group(rows);
    models := [];
    for i := 0 to |groups|
      invariant |models| == i && ReportsEach(rows, Keys(rows), models)
    {
      var m := Report(rows, groups[i].key, groups[i], timings[i]);
      OneMoreReport(rows, Keys(rows), models, m);
      models := models + [m];
    }
  }

  // ---- What the numbers mean ----

  lemma OneMoreCounted(rows: seq<Row>, r: Row, test: Row -> bool)
    ensures CountIf(rows + [r], test) == CountIf(rows, test) + if test(r) then 1 else 0
  {
    assert (rows + [r])[..|rows|] == rows;
  }

  lemma OneMoreOfKey(rows: seq<Row>, k: Key, test: Row -> bool)
    requires rows != []
    ensures var (init, last) := (rows[..|rows| - 1], rows[|rows| - 1]);
      CountIf(OfKey(rows, k), test) == CountIf(OfKey(init, k), test) + if last.key == k && test(last) then 1 else 0
  {
    var own, last := OfKey(rows[..|rows| - 1], k), rows[|rows| - 1];
    if last.key == k {
      OneMoreCounted(own, last, test);
    } else {
      assert own + [] == own;
    }
  }

  lemma {:induction false} CountedOfKey(rows: seq<Row>, k: Key, test: Row -> bool, both: Row -> bool)
    requires forall r: Row :: both(r) == (r.key == k && test(r))
    ensures CountIf(OfKey(rows, k), test) == CountIf(rows, both)
  {
    if rows != [] {
      OneMoreOfKey(rows, k, test);
      CountedOfKey(rows[..|rows| - 1], k, test, both);
    }
  }

  lemma {:induction false} CountedAll(rows: seq<Row>, all: Row -> bool)
    requires forall r: Row :: all(r)
    ensures CountIf(rows, all) == |rows|
  {
    if rows != [] {
      CountedAll(rows[..|rows| - 1], all);
    }
  }

  lemma {:induction false} LatenciesOccur(rows: seq<Row>, ms: int, same: Row -> bool)
    requires forall r: Row :: same(r) == (r.ok && r.ms == ms)
    ensures multiset(Latencies(rows))[ms] == CountIf(rows, same)
  {
    if rows != [] {
      LatenciesOccur(rows[..|rows| - 1], ms, same);
    }
  }

  /** The newest of a model's rows comes first. */
  lemma {:induction false} FirstIsNewest(rows: seq<Row>, k: Key)
    requires OfKey(rows, k) != []
    ensures exists i | 0 <= i < |rows| :: rows[i] == OfKey(rows, k)[0] && rows[i].key == k && forall j | 0 <= j < i ::
      rows[j].key != k
  {
    var n := |rows| - 1;
    if OfKey(rows[..n], k) != [] {
      FirstIsNewest(rows[..n], k);
      var i :| 0 <= i < n && rows[..n][i] == OfKey(rows, k)[0] && forall j | 0 <= j < i :: rows[..n][j].key != k;
      assert rows[i] == OfKey(rows, k)[0] && forall j | 0 <= j < i :: rows[j].key == rows[..n][j].key;
    } else {
      ListedIffItHasRows(rows[..n], k);
      assert forall j | 0 <= j < n :: rows[j] in rows[..n];
    }
  }

  /** A model's line: how many of the window's rows are its own, how many of those succeeded, failed and ran out
      of time, how the newest went, and the percentiles of the latencies of those that succeeded, each as
      often as it occurs. */
  lemma ReportMeans(rows: seq<Row>, k: Key, m: ModelTiming)
    requires Reports(rows, k, m)
    ensures m.key == k
    ensures m.count == CountIf(rows, (r: Row) => r.key == k)
    ensures m.successes == CountIf(rows, (r: Row) => r.key == k && r.ok)
    ensures m.errors == CountIf(rows, (r: Row) => r.key == k && !r.ok)
    ensures m.timeouts == CountIf(rows, (r: Row) => r.key == k && !r.ok && r.timeout)
    ensures exists i | 0 <= i < |rows| ::
      rows[i].key == k && m.lastOk == rows[i].ok && m.lastMs == rows[i].ms && forall j | 0 <= j < i :: rows[j].key != k
    ensures Percentiles(m, Latencies(OfKey(rows, k)))
    ensures forall ms ::
      multiset(Latencies(OfKey(rows, k)))[ms] == CountIf(rows, (r: Row) => r.key == k && r.ok && r.ms == ms)
  {
    var own := OfKey(rows, k);
    CountedAll(own, (r: Row) => true);
    CountedOfKey(rows, k, (r: Row) => true, (r: Row) => r.key == k);
    CountedOfKey(rows, k, IsOk(), (r: Row) => r.key == k && r.ok);
    CountedOfKey(rows, k, IsError(), (r: Row) => r.key == k && !r.ok);
    CountedOfKey(rows, k, IsTimeout(), (r: Row) => r.key == k && !r.ok && r.timeout);
    FirstIsNewest(rows, k);
    forall ms ensures multiset(Latencies(own))[ms] == CountIf(rows, (r: Row) => r.key == k && r.ok && r.ms == ms) {
      LatenciesOccur(own, ms, (r: Row) => r.ok && r.ms == ms);
      CountedOfKey(rows, k, (r: Row) => r.ok && r.ms == ms, (r: Row) => r.key == k && r.ok && r.ms == ms);
    }
  }
}
