/** Grouping usage metrics by provider or model (aggregateMetrics in internal/dashboard/api.go). */
module Aggregation {
  datatype Metrics = Metrics(period: string, provider: string, model: string, requestCount: int, inputTokens: int,
                             outputTokens: int, estimatedCost: real, avgLatencyMs: int, errorCount: int)

  datatype GroupBy = ByProvider | ByModel

  function KeyOf(g: GroupBy, m: Metrics): string {
    match g
    case ByProvider => m.provider
    case ByModel => m.model
  }

  /** The row that the first metrics of a key start. */
  function Started(g: GroupBy, m: Metrics): Metrics {
    match g
    case ByProvider => m.(period := m.provider, model := "")
    case ByModel => m.(period := m.model, provider := "")
  }

  /** Integer division as the source's: toward zero. */
  function Quotient(a: int, b: int): int
    requires b > 0
  {
    if a >= 0 then a / b else -(-a / b)
  }

  function Merged(e: Metrics, m: Metrics): Metrics {
    var n := e.requestCount + m.requestCount;
    e.(requestCount := n,
    inputTokens := e.inputTokens + m.inputTokens,
    outputTokens := e.outputTokens + m.outputTokens,
    estimatedCost := e.estimatedCost + m.estimatedCost,
    errorCount := e.errorCount + m.errorCount,
    avgLatencyMs := if n > 0 then Quotient(e.avgLatencyMs * e.requestCount + m.avgLatencyMs * m.requestCount, n)
                    else e.avgLatencyMs)
  }

  /** The metrics of one key, in order. */
  function OfKey(ms: seq<Metrics>, g: GroupBy, k: string): seq<Metrics> {
    if ms == [] then []
    else
      var front, m := OfKey(ms[..|ms| - 1], g, k), ms[|ms| - 1];
      if KeyOf(g, m) == k then front + [m] else front
  }

  /** One key's metrics merged into one row. */
  function Folded(g: GroupBy, ms: seq<Metrics>): Metrics
    requires ms != []
  {
    if |ms| == 1 then Started(g, ms[0]) else Merged(Folded(g, ms[..|ms| - 1]), ms[|ms| - 1])
  }

  /** The distinct keys in the order they are first seen. */
  function FirstSeen(ms: seq<Metrics>, g: GroupBy): seq<string> {
    if ms == [] then []
    else
      var front, k := FirstSeen(ms[..|ms| - 1], g), KeyOf(g, ms[|ms| - 1]);
      if k in front then front else front + [k]
  }

  lemma {:induction false} SeenExactly(ms: seq<Metrics>, g: GroupBy, k: string)
    ensures k in FirstSeen(ms, g) <==> OfKey(ms, g, k) != []
  {
    if ms != [] {
      SeenExactly(ms[..|ms| - 1], g, k);
    }
  }

  lemma FoldedOfSnoc(g: GroupBy, ms: seq<Metrics>, m: Metrics)
    ensures Folded(g, ms + [m]) == if ms == [] then Started(g, m) else Merged(Folded(g, ms), m)
  {
    if ms == [] {
      assert ms + [m] == [m];
    } else {
      assert (ms + [m])[..|ms|] == ms;
    }
  }

  /** The rows gathered so far: one per key seen, each the fold of its key's metrics. */
  ghost predicate Gathered(agg: map<string, Metrics>, ms: seq<Metrics>, g: GroupBy) {
    forall k :: (k in agg <==> OfKey(ms, g, k) != [])
                && (k in agg ==> agg[k] == Folded(g, OfKey(ms, g, k)))
  }

  lemma GatheredStep(agg: map<string, Metrics>, ms: seq<Metrics>, m: Metrics, g: GroupBy)
    requires Gathered(agg, ms, g)
    ensures var k := KeyOf(g, m);
            Gathered(agg[k := if k in agg then Merged(agg[k], m) else Started(g, m)], ms + [m], g)
  {
    assert (ms + [m])[..|ms|] == ms;
    FoldedOfSnoc(g, OfKey(ms, g, KeyOf(g, m)), m);
  }

  /** One row per distinct key, in first-seen order, each the fold of that key's metrics. */
  method AggregateMetrics(metrics: seq<Metrics>, g: GroupBy) returns (result: seq<Metrics>)
    ensures |result| == |FirstSeen(metrics, g)|
    ensures forall i :: 0 <= i < |result| ==>
                          var ms := OfKey(metrics, g, FirstSeen(metrics, g)[i]);
                          ms != [] && result[i] == Folded(g, ms)
  {
    var agg: map<string, Metrics> := map[];
    var order: seq<string> := [];
    for i := 0 to |metrics|
      invariant order == FirstSeen(metrics[..i], g) && Gathered(agg, metrics[..i], g)
    {
      var m := metrics[i];
      var k := KeyOf(g, m);
      assert metrics[..i + 1] == metrics[..i] + [m] && metrics[..i + 1][..i] == metrics[..i];
      SeenExactly(metrics[..i], g, k);
      GatheredStep(agg, metrics[..i], m, g);
      if k in agg {
        agg := agg[k := Merged(agg[k], m)];
      } else {
        agg := agg[k := Started(g, m)];
        order := order + [k];
      }
    }
    assert metrics[..|metrics|] == metrics;
    result := [];
    for i := 0 to |order|
      invariant |result| == i
      invariant forall j :: 0 <= j < i ==> order[j] in agg && result[j] == agg[order[j]]
    {
      SeenExactly(metrics, g, order[i]);
      assert order[i] in order;
      result := result + [agg[order[i]]];
    }
  }

  // ---------------------------------------------------------------- rows and keys

  predicate Distinct(ks: seq<string>) {
    forall i, j :: 0 <= i < j < |ks| ==> ks[i] != ks[j]
  }

  /** Each key appears once, and only keys of the input appear. */
  lemma {:induction false} KeysAreDistinct(ms: seq<Metrics>, g: GroupBy)
    ensures var ks := FirstSeen(ms, g);
            Distinct(ks) && forall m :: m in ms ==> KeyOf(g, m) in ks
  {
    if ms != [] {
      KeysAreDistinct(ms[..|ms| - 1], g);
      assert ms == ms[..|ms| - 1] + [ms[|ms| - 1]];
    }
  }

  lemma {:induction false} PrefixSeen(ms: seq<Metrics>, g: GroupBy, n: nat)
    requires n <= |ms|
    ensures FirstSeen(ms[..n], g) <= FirstSeen(ms, g)
    decreases |ms|
  {
    if n < |ms| {
      assert ms[..|ms| - 1][..n] == ms[..n];
      PrefixSeen(ms[..|ms| - 1], g, n);
    } else {
      assert ms[..n] == ms;
    }
  }

  /** A key's place is where it is first seen: keys of earlier metrics come first. */
  lemma OrderIsFirstSeen(ms: seq<Metrics>, g: GroupBy, n: nat)
    requires n < |ms| && KeyOf(g, ms[n]) !in FirstSeen(ms[..n], g)
    ensures var before := FirstSeen(ms[..n], g);
            |before| < |FirstSeen(ms, g)| && FirstSeen(ms, g)[|before|] == KeyOf(g, ms[n])
  {
    assert ms[..n + 1][..n] == ms[..n];
    PrefixSeen(ms, g, n + 1);
  }

  // ---------------------------------------------------------------- conservation

  /** What is added up, with the latencies weighted by requests. */
  datatype Totals = Totals(requests: int, inputs: int, outputs: int, errors: int, cost: real, latency: int)

  const NONE := Totals(0, 0, 0, 0, 0.0, 0)

  function Plus(a: Totals, b: Totals): Totals {
    Totals(a.requests + b.requests, a.inputs + b.inputs, a.outputs + b.outputs, a.errors + b.errors, a.cost + b.cost,
           a.latency + b.latency)
  }

  function TotalsOf(m: Metrics): Totals {
    Totals(m.requestCount, m.inputTokens, m.outputTokens, m.errorCount, m.estimatedCost,
           m.avgLatencyMs * m.requestCount)
  }

  function Sum(ms: seq<Metrics>): Totals {
    if ms == [] then NONE else Plus(Sum(ms[..|ms| - 1]), TotalsOf(ms[|ms| - 1]))
  }

  /** A row is headed by its provider or its model, and leaves the other blank. */
  lemma {:induction false} RowSays(g: GroupBy, ms: seq<Metrics>)
    requires ms != []
    ensures var row := Folded(g, ms);
            match g
            case ByProvider => row.period == row.provider == ms[0].provider && row.model == ""
            case ByModel => row.period == row.model == ms[0].model && row.provider == ""
  {
    if |ms| > 1 {
      RowSays(g, ms[..|ms| - 1]);
    }
  }

  /** The metrics of a row are exactly those of its provider, or of its model. */
  lemma {:induction false} OfKeyExactly(ms: seq<Metrics>, g: GroupBy, k: string, m: Metrics)
    ensures m in OfKey(ms, g, k) <==> m in ms && (if g == ByProvider then m.provider else m.model) == k
  {
    if ms != [] {
      var init, last := ms[..|ms| - 1], ms[|ms| - 1];
      OfKeyExactly(init, g, k, m);
      assert ms == init + [last];
    }
  }

  /** Merging divides toward zero, and keeps the first average when there are no requests to divide by. */
  lemma MergedAverage(e: Metrics, m: Metrics)
    ensures var n, total := e.requestCount + m.requestCount,
                            e.avgLatencyMs * e.requestCount + m.avgLatencyMs * m.requestCount;
            var average := Merged(e, m).avgLatencyMs;
            (n <= 0 ==> average == e.avgLatencyMs)
            && (n > 0 && total >= 0 ==> 0 <= total - average * n < n)
            && (n > 0 && total < 0 ==> 0 <= average * n - total < n)
  {
  }

  /** A row carries the exact counts, tokens, errors and cost of its metrics. */
  lemma {:induction false} RowConserves(g: GroupBy, ms: seq<Metrics>)
    requires ms != []
    ensures TotalsOf(Folded(g, ms)).(latency := 0) == Sum(ms).(latency := 0)
  {
    var init, last := ms[..|ms| - 1], ms[|ms| - 1];
    if |ms| == 1 {
      assert init == [];
    } else {
      RowConserves(g, init);
    }
  }

  /** The totals of these keys' metrics. */
  function SumOver(ks: seq<string>, ms: seq<Metrics>, g: GroupBy): Totals {
    if ks == [] then NONE else Plus(SumOver(ks[..|ks| - 1], ms, g), Sum(OfKey(ms, g, ks[|ks| - 1])))
  }

  lemma SumOfSnoc(ms: seq<Metrics>, m: Metrics)
    ensures Sum(ms + [m]) == Plus(Sum(ms), TotalsOf(m))
  {
    assert (ms + [m])[..|ms|] == ms;
  }

  lemma OfKeyOfSnoc(ms: seq<Metrics>, m: Metrics, g: GroupBy, k: string)
    ensures OfKey(ms + [m], g, k) == if KeyOf(g, m) == k then OfKey(ms, g, k) + [m] else OfKey(ms, g, k)
  {
    assert (ms + [m])[..|ms|] == ms;
  }

  lemma PlusLaws(a: Totals, b: Totals, c: Totals)
    ensures Plus(Plus(a, b), c) == Plus(a, Plus(b, c)) == Plus(Plus(a, c), b)
  {
  }

  lemma SumOverOfSnoc(ks: seq<string>, k: string, ms: seq<Metrics>, g: GroupBy)
    ensures SumOver(ks + [k], ms, g) == Plus(SumOver(ks, ms, g), Sum(OfKey(ms, g, k)))
  {
    assert (ks + [k])[..|ks|] == ks;
  }

  lemma {:induction false} NoneMore(ks: seq<string>, ms: seq<Metrics>, m: Metrics, g: GroupBy)
    requires KeyOf(g, m) !in ks
    ensures SumOver(ks, ms + [m], g) == SumOver(ks, ms, g)
  {
    if ks != [] {
      var init, k := ks[..|ks| - 1], ks[|ks| - 1];
      assert k in ks && forall x :: x in init ==> x in ks;
      NoneMore(init, ms, m, g);
      OfKeyOfSnoc(ms, m, g, k);
    }
  }

  lemma {:induction false} OneMore(ks: seq<string>, ms: seq<Metrics>, m: Metrics, g: GroupBy)
    requires Distinct(ks) && KeyOf(g, m) in ks
    ensures SumOver(ks, ms + [m], g) == Plus(SumOver(ks, ms, g), TotalsOf(m))
  {
    var init, k := ks[..|ks| - 1], ks[|ks| - 1];
    assert ks == init + [k];
    OfKeyOfSnoc(ms, m, g, k);
    if k == KeyOf(g, m) {
      NoneMore(init, ms, m, g);
      SumOfSnoc(OfKey(ms, g, k), m);
    } else {
      OneMore(init, ms, m, g);
    }
    PlusLaws(SumOver(init, ms, g), Sum(OfKey(ms, g, k)), TotalsOf(m));
  }

  lemma NewKey(ks: seq<string>, ms: seq<Metrics>, m: Metrics, g: GroupBy)
    requires KeyOf(g, m) !in ks && OfKey(ms, g, KeyOf(g, m)) == []
    ensures SumOver(ks + [KeyOf(g, m)], ms + [m], g) == Plus(SumOver(ks, ms, g), TotalsOf(m))
  {
    NoneMore(ks, ms, m, g);
    SumOverOfSnoc(ks, KeyOf(g, m), ms + [m], g);
    OfKeyOfSnoc(ms, m, g, KeyOf(g, m));
    SumOfSnoc([], m);
  }

  /** Grouping loses and invents nothing: over all rows the totals are those of the input. */
  lemma {:induction false} GroupingConserves(ms: seq<Metrics>, g: GroupBy)
    ensures SumOver(FirstSeen(ms, g), ms, g) == Sum(ms)
  {
    if ms != [] {
      var init, m := ms[..|ms| - 1], ms[|ms| - 1];
      var ks, k := FirstSeen(init, g), KeyOf(g, m);
      assert ms == init + [m];
      SumOfSnoc(init, m);
      GroupingConserves(init, g);
      KeysAreDistinct(init, g);
      if k in ks {
        OneMore(ks, init, m, g);
      } else {
        SeenExactly(init, g, k);
        NewKey(ks, init, m, g);
      }
    }
  }

  // ---------------------------------------------------------------- the running average

  ghost predicate NonNegative(ms: seq<Metrics>) {
    forall m :: m in ms ==> m.requestCount >= 0 && m.avgLatencyMs >= 0
  }

  /** Rounding a weighted mean down loses less than the weight. */
  lemma Rounding(a: int, n: int)
    requires a >= 0 && n > 0
    ensures var q := Quotient(a, n); q >= 0 && q * n <= a && a - q * n <= n - 1
  {
    assert a == a / n * n + a % n;
  }

  /** How far the row's weighted average may be off the weighted latencies of its metrics. */
  predicate WithinBound(row: Metrics, latency: int, rows: int) {
    var n := row.requestCount;
    n >= 0 && row.avgLatencyMs >= 0 && row.avgLatencyMs * n <= latency
    && if n == 0 then latency == 0 else latency - row.avgLatencyMs * n <= (rows - 1) * (n - 1)
  }

  lemma OneRow(g: GroupBy, m: Metrics)
    requires m.requestCount >= 0 && m.avgLatencyMs >= 0
    ensures Sum([m]) == TotalsOf(m) && WithinBound(Folded(g, [m]), Sum([m]).latency, 1)
  {
    assert [] + [m] == [m];
    SumOfSnoc([], m);
  }

  /**
   The running average never exceeds the request-weighted mean, and what it loses, weighted by the
   N requests, is at most N - 1 for each row after the first.
   */
  lemma {:induction false} RunningAverageBound(g: GroupBy, ms: seq<Metrics>)
    requires ms != [] && NonNegative(ms)
    ensures Folded(g, ms).requestCount == Sum(ms).requests
    ensures WithinBound(Folded(g, ms), Sum(ms).latency, |ms|)
  {
    var init, last := ms[..|ms| - 1], ms[|ms| - 1];
    assert last in ms;
    if |ms| == 1 {
      assert ms == [last];
      OneRow(g, last);
    } else {
      assert forall m :: m in init ==> m in ms;
      RunningAverageBound(g, init);
      AverageStep(Folded(g, init), last, Sum(init).latency, |init|);
    }
  }

  /** What earlier rows lost stays within their share of the bound. */
  lemma LossGrows(lost: int, rows: nat, count: int, n: int)
    requires rows > 0 && 0 <= count <= n && n > 0
    requires if count > 0 then lost <= (rows - 1) * (count - 1) else lost == 0
    ensures lost + (n - 1) <= rows * (n - 1)
  {
    if count > 0 {
      Monotone(rows - 1, count - 1, n - 1);
    } else {
      Monotone(rows - 1, 0, n - 1);
    }
    assert (rows - 1) * (n - 1) + (n - 1) == rows * (n - 1);
  }

  lemma AverageStep(e: Metrics, m: Metrics, latency: int, rows: nat)
    requires rows > 0 && WithinBound(e, latency, rows) && m.requestCount >= 0 && m.avgLatencyMs >= 0
    ensures WithinBound(Merged(e, m), latency + m.avgLatencyMs * m.requestCount, rows + 1)
  {
    var n := e.requestCount + m.requestCount;
    var had, adds := e.avgLatencyMs * e.requestCount, m.avgLatencyMs * m.requestCount;
    Monotone(e.avgLatencyMs, 0, e.requestCount);
    Monotone(m.avgLatencyMs, 0, m.requestCount);
    if n > 0 {
      Rounding(had + adds, n);
      LossGrows(latency - had, rows, e.requestCount, n);
    }
  }

  lemma Monotone(c: nat, a: int, b: int)
    requires a <= b
    ensures c * a <= c * b
  {
  }

  /** Up to two rows, the average is the mean itself, rounded down. */
  lemma TwoRowsAreExact(g: GroupBy, ms: seq<Metrics>)
    requires 1 <= |ms| <= 2 && NonNegative(ms) && Sum(ms).requests > 0
    ensures Folded(g, ms).avgLatencyMs == Sum(ms).latency / Sum(ms).requests
  {
    RunningAverageBound(g, ms);
    var q, n, total := Folded(g, ms).avgLatencyMs, Sum(ms).requests, Sum(ms).latency;
    assert total - q * n <= n - 1 by {
      Monotone(1, (|ms| - 1) * (n - 1), n - 1);
    }
    QuotientIs(total, n, q);
  }

  lemma QuotientIs(total: int, n: int, q: int)
    requires n > 0 && q * n <= total <= q * n + n - 1
    ensures q == total / n
  {
    var d := total / n;
    assert total == d * n + total % n;
    if d < q {
      Monotone(n, d + 1, q);
    } else if q < d {
      Monotone(n, q + 1, d);
    }
  }

  /** What the divisions at the merges discard. */
  function Lost(g: GroupBy, ms: seq<Metrics>): int
    requires ms != []
  {
    if |ms| == 1 then 0
    else
      var init, m := ms[..|ms| - 1], ms[|ms| - 1];
      Lost(g, init) + LostAt(Folded(g, init), m)
  }

  function LostAt(e: Metrics, m: Metrics): int {
    var n := e.requestCount + m.requestCount;
    if n > 0 then (e.avgLatencyMs * e.requestCount + m.avgLatencyMs * m.requestCount) % n else 0
  }

  lemma MergeLoses(e: Metrics, m: Metrics)
    requires e.requestCount >= 0 && e.avgLatencyMs >= 0 && m.requestCount >= 0 && m.avgLatencyMs >= 0
    ensures var next := Merged(e, m);
            next.avgLatencyMs * next.requestCount + LostAt(e, m) ==
            e.avgLatencyMs * e.requestCount + m.avgLatencyMs * m.requestCount
            && LostAt(e, m) >= 0
  {
    Monotone(e.avgLatencyMs, 0, e.requestCount);
    Monotone(m.avgLatencyMs, 0, m.requestCount);
  }

  /** The weighted latencies are the average times the requests, and what the merges discarded. */
  lemma {:induction false} AverageAccounts(g: GroupBy, ms: seq<Metrics>)
    requires ms != [] && NonNegative(ms)
    ensures Lost(g, ms) >= 0
    ensures Sum(ms).latency == Folded(g, ms).avgLatencyMs * Sum(ms).requests + Lost(g, ms)
  {
    var init, last := ms[..|ms| - 1], ms[|ms| - 1];
    assert last in ms;
    RunningAverageBound(g, ms);
    if |ms| == 1 {
      assert ms == [last];
      OneRow(g, last);
    } else {
      assert forall m :: m in init ==> m in ms;
      AverageAccounts(g, init);
      RunningAverageBound(g, init);
      MergeLoses(Folded(g, init), last);
    }
  }

  /** The average is the mean rounded down exactly when the discarded remainders add up to less than N. */
  lemma MeanExactly(g: GroupBy, ms: seq<Metrics>)
    requires ms != [] && NonNegative(ms) && Sum(ms).requests > 0
    ensures Folded(g, ms).avgLatencyMs == Sum(ms).latency / Sum(ms).requests <==> Lost(g, ms) < Sum(ms).requests
  {
    AverageAccounts(g, ms);
    QuotientExactly(Sum(ms).latency, Sum(ms).requests, Folded(g, ms).avgLatencyMs, Lost(g, ms));
  }

  lemma QuotientExactly(total: int, n: int, q: int, rest: int)
    requires n > 0 && rest >= 0 && total == q * n + rest
    ensures q == total / n <==> rest < n
  {
    if rest < n {
      QuotientIs(total, n, q);
    } else {
      assert total == total / n * n + total % n;
    }
  }

  /** With three rows it can fall below the mean: 1, 0 and 2 ms over one request each give 0, not 1. */
  lemma ThreeRowsCanDrift(g: GroupBy, m: Metrics)
    requires m.requestCount == 1
    ensures var ms := [m.(avgLatencyMs := 1)] + [m.(avgLatencyMs := 0)] + [m.(avgLatencyMs := 2)];
            Sum(ms).requests == 3 && Sum(ms).latency == 3 && Folded(g, ms).avgLatencyMs == 0
  {
    var a, b, c := m.(avgLatencyMs := 1), m.(avgLatencyMs := 0), m.(avgLatencyMs := 2);
    OneRow(g, a);
    SumOfSnoc([a], b);
    SumOfSnoc([a] + [b], c);
    FoldedOfSnoc(g, [a], b);
    FoldedOfSnoc(g, [a] + [b], c);
    MergeOfTwo(Started(g, a), b);
    MergeOfThree(Merged(Started(g, a), b), c);
  }

  lemma MergeOfTwo(e: Metrics, m: Metrics)
    requires e.requestCount == 1 && e.avgLatencyMs == 1 && m.requestCount == 1 && m.avgLatencyMs == 0
    ensures Merged(e, m).requestCount == 2 && Merged(e, m).avgLatencyMs == 0
  {
  }

  lemma MergeOfThree(e: Metrics, m: Metrics)
    requires e.requestCount == 2 && e.avgLatencyMs == 0 && m.requestCount == 1 && m.avgLatencyMs == 2
    ensures Merged(e, m).requestCount == 3 && Merged(e, m).avgLatencyMs == 0
  {
  }
}
