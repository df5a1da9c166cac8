/** HTTP request counters and latency histograms (src/langgraph_api/http_metrics.py); latencies are real numbers. */
module HttpMetrics {
  import opened Wrappers
  import opened Dict

  const MAX_REQUEST_COUNT_ENTRIES := 5000
  const MAX_HISTOGRAM_ENTRIES := 1000

  /** An upper bound of a bucket, in seconds. */
  datatype Bound = Seconds(s: real) | Infinity

  const BOUNDS: seq<Bound> :=
    [Seconds(0.01), Seconds(0.1), Seconds(0.5), Seconds(1.0), Seconds(5.0), Seconds(15.0), Seconds(30.0),
     Seconds(60.0), Seconds(120.0), Seconds(300.0), Seconds(600.0), Seconds(1800.0), Seconds(3600.0), Infinity]

  const BUCKETS: nat := 14

  predicate AtMost(x: real, b: Bound)
  {
    match b
    case Infinity => true
    case Seconds(s) => x <= s
  }

  /** `route` is what `get_route` finds. */
  datatype Request = Request(method_: string, route: Option<string>, status: int, latencyMs: real)

  datatype Series = Series(method_: string, route: string)

  datatype CounterKey = CounterKey(series: Series, status: int)

  datatype Histogram = Histogram(buckets: seq<nat>, sum: real, count: nat)

  datatype Metrics = Metrics(counters: seq<Entry<CounterKey, nat>>, histograms: seq<Entry<Series, Histogram>>)

  predicate EndsWith(s: string, suffix: string)
  {
    |suffix| <= |s| && s[|s| - |suffix|..] == suffix
  }

  predicate Filtered(path: string)
  {
    || EndsWith(path, "/ok") || EndsWith(path, "/info") || EndsWith(path, "/metrics")
    || EndsWith(path, "/docs") || EndsWith(path, "/openapi.json")
  }

  function SeriesOf(q: Request): Series
    requires q.route.Some?
  {
    Series(q.method_, q.route.value)
  }

  function KeyOf(q: Request): CounterKey
    requires q.route.Some?
  {
    CounterKey(SeriesOf(q), q.status)
  }

  function Latency(q: Request): real
  {
    q.latencyMs / 1000.0
  }

  /** The request passes the route filter and both caps. */
  predicate Admits(m: Metrics, q: Request)
  {
    && q.route.Some? && !Filtered(q.route.value)
    && (Get(m.counters, KeyOf(q)).Some? || |m.counters| < MAX_REQUEST_COUNT_ENTRIES)
    && (Get(m.histograms, SeriesOf(q)).Some? || |m.histograms| < MAX_HISTOGRAM_ENTRIES)
  }

  function Zeros(n: nat): (s: seq<nat>)
    ensures |s| == n
  {
    seq(n, _ => 0)
  }

  const EmptyHistogram := Histogram(Zeros(BUCKETS), 0.0, 0)

  function OrZero(x: Option<nat>): nat
  {
    if x.Some? then x.value else 0
  }

  function OrEmpty(x: Option<Histogram>): Histogram
  {
    if x.Some? then x.value else EmptyHistogram
  }

  /** The first bucket whose bound is not below the latency. */
  function BucketOf(x: real, from: nat): (i: nat)
    requires from < BUCKETS
    ensures from <= i < BUCKETS && AtMost(x, BOUNDS[i])
    ensures forall j | from <= j < i :: !AtMost(x, BOUNDS[j])
    decreases BUCKETS - from
  {
    if AtMost(x, BOUNDS[from]) then from else BucketOf(x, from + 1)
  }

  function Observe(h: Histogram, x: real): Histogram
    requires |h.buckets| == BUCKETS
  {
    var i := BucketOf(x, 0);
    Histogram(h.buckets[i := h.buckets[i] + 1], h.sum + x, h.count + 1)
  }

  ghost predicate Shaped(m: Metrics)
  {
    && DistinctKeys(m.counters) && DistinctKeys(m.histograms)
    && (forall e | e in m.histograms :: |e.value.buckets| == BUCKETS)
    && (forall k :: |OrEmpty(Get(m.histograms, k)).buckets| == BUCKETS)
  }

  /** `record_request` */
  ghost function Record(m: Metrics, q: Request): Metrics
    requires Shaped(m)
  {
    if !Admits(m, q) then m
    else Metrics(
      Put(m.counters, KeyOf(q), OrZero(Get(m.counters, KeyOf(q))) + 1),
      Put(m.histograms, SeriesOf(q), Observe(OrEmpty(Get(m.histograms, SeriesOf(q))), Latency(q))))
  }

  const NoMetrics := Metrics([], [])

  lemma RecordShaped(m: Metrics, q: Request)
    requires Shaped(m)
    ensures Shaped(Record(m, q))
  {
    if Admits(m, q) {
      var h := Observe(OrEmpty(Get(m.histograms, SeriesOf(q))), Latency(q));
      PutShape(m.counters, KeyOf(q), OrZero(Get(m.counters, KeyOf(q))) + 1);
      PutShape(m.histograms, SeriesOf(q), h);
      var histograms := Put(m.histograms, SeriesOf(q), h);
      forall k ensures |OrEmpty(Get(histograms, k)).buckets| == BUCKETS {
        GetPut(m.histograms, SeriesOf(q), h, k);
      }
      forall e | e in histograms ensures |e.value.buckets| == BUCKETS {
        GetOfEntry(histograms, e);
        assert |OrEmpty(Get(histograms, e.key)).buckets| == BUCKETS;
      }
    }
  }

  ghost function After(qs: seq<Request>): (m: Metrics)
    ensures Shaped(m)
  {
    if qs == [] then NoMetrics
    else
      var m := After(qs[..|qs| - 1]);
      RecordShaped(m, qs[|qs| - 1]);
      Record(m, qs[|qs| - 1])
  }

  /** The requests that were recorded. */
  ghost function Recorded(qs: seq<Request>): seq<Request>
  {
    if qs == [] then []
    else
      var q := qs[|qs| - 1];
      Recorded(qs[..|qs| - 1]) + (if Admits(After(qs[..|qs| - 1]), q) then [q] else [])
  }

  // ---------------------------------------------------------------- counting

  function Count(qs: seq<Request>, p: Request -> bool): nat
  {
    if qs == [] then 0 else Count(qs[..|qs| - 1], p) + (if p(qs[|qs| - 1]) then 1 else 0)
  }

  function Sum(qs: seq<Request>, p: Request -> bool): real
  {
    if qs == [] then 0.0 else Sum(qs[..|qs| - 1], p) + (if p(qs[|qs| - 1]) then qs[|qs| - 1].latencyMs / 1000.0 else 0.0)
  }

  function Of(k: Series): Request -> bool { (q: Request) => q.route == Some(k.route) && q.method_ == k.method_ }

  function OfCounter(k: CounterKey): Request -> bool
  {
    (q: Request) => q.route == Some(k.series.route) && q.method_ == k.series.method_ && q.status == k.status
  }

  function OfWithin(k: Series, b: Bound): Request -> bool
  {
    (q: Request) => Of(k)(q) && (b.Infinity? || q.latencyMs <= b.s * 1000.0)
  }

  lemma CountAdd(qs: seq<Request>, q: Request, p: Request -> bool)
    ensures Count(qs + [q], p) == Count(qs, p) + (if p(q) then 1 else 0)
    ensures Sum(qs + [q], p) == Sum(qs, p) + (if p(q) then Latency(q) else 0.0)
  {
    assert (qs + [q])[..|qs|] == qs;
  }

  // ---------------------------------------------------------------- cumulative buckets

  /** The sum of the first `n` buckets. */
  function Cumulative(buckets: seq<nat>, n: nat): nat
    requires n <= |buckets|
  {
    if n == 0 then 0 else Cumulative(buckets, n - 1) + buckets[n - 1]
  }

  lemma {:induction false} CumulativeBump(buckets: seq<nat>, i: nat, n: nat)
    requires i < |buckets| && n <= |buckets|
    ensures Cumulative(buckets[i := buckets[i] + 1], n) == Cumulative(buckets, n) + (if i < n then 1 else 0)
  {
    if n > 0 {
      CumulativeBump(buckets, i, n - 1);
    }
  }

  lemma BoundsAscend(x: real, i: nat, j: nat)
    requires i <= j < BUCKETS && AtMost(x, BOUNDS[i])
    ensures AtMost(x, BOUNDS[j])
    decreases j - i
  {
    if i < j {
      NextBound(x, i);
      BoundsAscend(x, i + 1, j);
    }
  }

  lemma NextBound(x: real, i: nat)
    requires i + 1 < BUCKETS && AtMost(x, BOUNDS[i])
    ensures AtMost(x, BOUNDS[i + 1])
  {
  }

  /** A latency counts in a cumulative bucket exactly when it is within the bound. */
  lemma BucketWithin(x: real, n: nat)
    requires n < BUCKETS
    ensures BucketOf(x, 0) <= n <==> AtMost(x, BOUNDS[n])
  {
    if BucketOf(x, 0) <= n { BoundsAscend(x, BucketOf(x, 0), n); }
  }

  // ---------------------------------------------------------------- what the tables say

  ghost predicate HistogramTells(h: Histogram, recorded: seq<Request>, k: Series)
  {
    && |h.buckets| == BUCKETS
    && h.count == Count(recorded, Of(k))
    && h.sum == Sum(recorded, Of(k))
    && forall n | 0 <= n < BUCKETS :: Cumulative(h.buckets, n + 1) == Count(recorded, OfWithin(k, BOUNDS[n]))
  }

  /** One cumulative bucket after a latency that falls into bucket `i`. */
  lemma BumpTells(buckets: seq<nat>, i: nat, n: nat, recorded: seq<Request>, k: Series, b: Bound, q: Request)
    requires i < |buckets| && n < |buckets| && Of(k)(q) && (i <= n <==> AtMost(Latency(q), b))
    requires Cumulative(buckets, n + 1) == Count(recorded, OfWithin(k, b))
    ensures Cumulative(buckets[i := buckets[i] + 1], n + 1) == Count(recorded + [q], OfWithin(k, b))
  {
    CountAdd(recorded, q, OfWithin(k, b));
    CumulativeBump(buckets, i, n + 1);
  }

  lemma ObserveTells(h: Histogram, recorded: seq<Request>, k: Series, q: Request)
    requires HistogramTells(h, recorded, k) && q.route.Some? && SeriesOf(q) == k
    ensures HistogramTells(Observe(h, Latency(q)), recorded + [q], k)
  {
    CountAdd(recorded, q, Of(k));
    var h' := Observe(h, Latency(q));
    forall n | 0 <= n < BUCKETS
      ensures Cumulative(h'.buckets, n + 1) == Count(recorded + [q], OfWithin(k, BOUNDS[n]))
    {
      BucketWithin(Latency(q), n);
      BumpTells(h.buckets, BucketOf(Latency(q), 0), n, recorded, k, BOUNDS[n], q);
    }
  }

  lemma OtherTells(h: Histogram, recorded: seq<Request>, k: Series, q: Request)
    requires HistogramTells(h, recorded, k) && q.route.Some? && SeriesOf(q) != k
    ensures HistogramTells(h, recorded + [q], k)
  {
    CountAdd(recorded, q, Of(k));
    forall n | 0 <= n < BUCKETS ensures Cumulative(h.buckets, n + 1) == Count(recorded + [q], OfWithin(k, BOUNDS[n])) {
      CountAdd(recorded, q, OfWithin(k, BOUNDS[n]));
    }
  }

  lemma {:induction false} NothingRecorded(k: Series)
    ensures HistogramTells(EmptyHistogram, [], k)
  {
    forall n | 0 <= n < BUCKETS ensures Cumulative(EmptyHistogram.buckets, n + 1) == Count([], OfWithin(k, BOUNDS[n])) {
      CumulativeZeros(BUCKETS, n + 1);
    }
  }

  lemma {:induction false} CumulativeZeros(m: nat, n: nat)
    requires n <= m
    ensures Cumulative(Zeros(m), n) == 0
  {
    if n > 0 { CumulativeZeros(m, n - 1); }
  }

  /** The counters of a method and route over all statuses. */
  function Statuses(counters: seq<Entry<CounterKey, nat>>, k: Series): nat
  {
    if counters == [] then 0
    else (if counters[0].key.series == k then counters[0].value else 0) + Statuses(counters[1..], k)
  }

  lemma {:induction false} StatusesPut(counters: seq<Entry<CounterKey, nat>>, key: CounterKey, k: Series)
    ensures Statuses(Put(counters, key, OrZero(Get(counters, key)) + 1), k) ==
            Statuses(counters, k) + (if key.series == k then 1 else 0)
  {
    if counters == [] {
      assert [Entry(key, 1)][1..] == [];
    } else {
      var v := OrZero(Get(counters, key)) + 1;
      if counters[0].key == key {
        assert ([Entry(key, v)] + counters[1..])[1..] == counters[1..];
      } else {
        StatusesPut(counters[1..], key, k);
        assert ([counters[0]] + Put(counters[1..], key, v))[1..] == Put(counters[1..], key, v);
      }
    }
  }

  // one request's effect on a lookup, a sum and the sizes

  lemma RecordHistogram(m: Metrics, q: Request, k: Series)
    requires Shaped(m)
    ensures OrEmpty(Get(Record(m, q).histograms, k)) ==
            if Admits(m, q) && SeriesOf(q) == k then Observe(OrEmpty(Get(m.histograms, k)), Latency(q))
            else OrEmpty(Get(m.histograms, k))
  {
    if Admits(m, q) {
      GetPut(m.histograms, SeriesOf(q), Observe(OrEmpty(Get(m.histograms, SeriesOf(q))), Latency(q)), k);
    }
  }

  lemma RecordCounter(m: Metrics, q: Request, key: CounterKey)
    requires Shaped(m)
    ensures OrZero(Get(Record(m, q).counters, key)) ==
            OrZero(Get(m.counters, key)) + (if Admits(m, q) && KeyOf(q) == key then 1 else 0)
  {
    if Admits(m, q) { GetPut(m.counters, KeyOf(q), OrZero(Get(m.counters, KeyOf(q))) + 1, key); }
  }

  lemma RecordStatuses(m: Metrics, q: Request, k: Series)
    requires Shaped(m)
    ensures Statuses(Record(m, q).counters, k) ==
            Statuses(m.counters, k) + (if Admits(m, q) && SeriesOf(q) == k then 1 else 0)
  {
    if Admits(m, q) { StatusesPut(m.counters, KeyOf(q), k); }
  }

  ghost predicate Capped(m: Metrics)
  {
    |m.counters| <= MAX_REQUEST_COUNT_ENTRIES && |m.histograms| <= MAX_HISTOGRAM_ENTRIES
  }

  lemma RecordCapped(m: Metrics, q: Request)
    requires Shaped(m) && Capped(m)
    ensures Capped(Record(m, q))
  {
    if Admits(m, q) {
      PutShape(m.counters, KeyOf(q), OrZero(Get(m.counters, KeyOf(q))) + 1);
      PutShape(m.histograms, SeriesOf(q), Observe(OrEmpty(Get(m.histograms, SeriesOf(q))), Latency(q)));
    }
  }

  // over every sequence of requests

  /** The last request, admitted or not. */
  lemma LastRecorded(qs: seq<Request>, p: Request -> bool)
    requires qs != []
    ensures var before, q := qs[..|qs| - 1], qs[|qs| - 1];
            Count(Recorded(qs), p) == Count(Recorded(before), p) + (if Admits(After(before), q) && p(q) then 1 else 0)
  {
    var before, q := qs[..|qs| - 1], qs[|qs| - 1];
    if Admits(After(before), q) { CountAdd(Recorded(before), q, p); }
    else { assert Recorded(before) + [] == Recorded(before); }
  }

  lemma {:induction false} HistogramsTell(qs: seq<Request>, k: Series)
    ensures HistogramTells(OrEmpty(Get(After(qs).histograms, k)), Recorded(qs), k)
  {
    if qs == [] {
      NothingRecorded(k);
    } else {
      var before, q := qs[..|qs| - 1], qs[|qs| - 1];
      var m := After(before);
      HistogramsTell(before, k);
      RecordHistogram(m, q, k);
      if !Admits(m, q) {
        assert Recorded(before) + [] == Recorded(before);
      } else if SeriesOf(q) == k {
        ObserveTells(OrEmpty(Get(m.histograms, k)), Recorded(before), k, q);
      } else {
        OtherTells(OrEmpty(Get(m.histograms, k)), Recorded(before), k, q);
      }
    }
  }

  /** Each request counter is the number of recorded requests with its method, route and status. */
  lemma {:induction false} CountersTell(qs: seq<Request>, key: CounterKey)
    ensures OrZero(Get(After(qs).counters, key)) == Count(Recorded(qs), OfCounter(key))
  {
    if qs != [] {
      CountersTell(qs[..|qs| - 1], key);
      RecordCounter(After(qs[..|qs| - 1]), qs[|qs| - 1], key);
      LastRecorded(qs, OfCounter(key));
    }
  }

  lemma {:induction false} StatusesTell(qs: seq<Request>, k: Series)
    ensures Statuses(After(qs).counters, k) == Count(Recorded(qs), Of(k))
  {
    if qs != [] {
      StatusesTell(qs[..|qs| - 1], k);
      RecordStatuses(After(qs[..|qs| - 1]), qs[|qs| - 1], k);
      LastRecorded(qs, Of(k));
    }
  }

  // ---------------------------------------------------------------- guarantees

  /** Each cumulative bucket is the number of recorded latencies at or below its bound. */
  lemma BucketsAreCumulative(qs: seq<Request>, e: Entry<Series, Histogram>, n: nat)
    requires e in After(qs).histograms && n < BUCKETS
    ensures |e.value.buckets| == BUCKETS
    ensures Cumulative(e.value.buckets, n + 1) == Count(Recorded(qs), OfWithin(e.key, BOUNDS[n]))
    ensures e.value.sum == Sum(Recorded(qs), Of(e.key))
  {
    GetOfEntry(After(qs).histograms, e);
    HistogramsTell(qs, e.key);
  }

  lemma {:induction false} AllWithinInfinity(qs: seq<Request>, k: Series)
    ensures Count(qs, OfWithin(k, Infinity)) == Count(qs, Of(k))
  {
    if qs != [] { AllWithinInfinity(qs[..|qs| - 1], k); }
  }

  /** The +Inf bucket is the count, and the count is the sum of the request counters over all statuses. */
  lemma CountsAgree(qs: seq<Request>, e: Entry<Series, Histogram>)
    requires e in After(qs).histograms
    ensures |e.value.buckets| == BUCKETS
    ensures Cumulative(e.value.buckets, BUCKETS) == e.value.count == Statuses(After(qs).counters, e.key)
  {
    BucketsAreCumulative(qs, e, BUCKETS - 1);
    GetOfEntry(After(qs).histograms, e);
    HistogramsTell(qs, e.key);
    AllWithinInfinity(Recorded(qs), e.key);
    StatusesTell(qs, e.key);
  }

  /** Both tables stay within their caps. */
  lemma {:induction false} TablesAreCapped(qs: seq<Request>)
    ensures |After(qs).counters| <= MAX_REQUEST_COUNT_ENTRIES
    ensures |After(qs).histograms| <= MAX_HISTOGRAM_ENTRIES
  {
    if qs != [] {
      TablesAreCapped(qs[..|qs| - 1]);
      RecordCapped(After(qs[..|qs| - 1]), qs[|qs| - 1]);
    }
  }

  predicate HasEnd(path: string, x: string)
  {
    |x| <= |path| && forall i | 0 <= i < |x| :: path[|path| - |x| + i] == x[i]
  }

  /** The routes of health and documentation endpoints. */
  predicate Unmetered(path: string)
  {
    HasEnd(path, "/ok") || HasEnd(path, "/info") || HasEnd(path, "/metrics") || HasEnd(path, "/docs") || HasEnd(path, "/openapi.json")
  }

  lemma UnmeteredIff(path: string)
    ensures Filtered(path) <==> Unmetered(path)
  {
    EndIff(path, "/ok");
    EndIff(path, "/info");
    EndIff(path, "/metrics");
    EndIff(path, "/docs");
    EndIff(path, "/openapi.json");
  }

  lemma EndIff(path: string, x: string)
    ensures EndsWith(path, x) <==> HasEnd(path, x)
  {
    if HasEnd(path, x) { assert path[|path| - |x|..] == x; }
  }

  /**
    Exactly which requests are recorded: those with an ordinary route, if counter and
    histogram are already there or their tables have room.
   */
  lemma {:induction false} RecordedIff(qs: seq<Request>, q: Request)
    ensures Recorded(qs + [q]) == Recorded(qs) + (
              if && q.route.Some? && !Unmetered(q.route.value)
                 && (Get(After(qs).counters, CounterKey(Series(q.method_, q.route.value), q.status)).Some?
                     || |After(qs).counters| < 5000)
                 && (Get(After(qs).histograms, Series(q.method_, q.route.value)).Some? || |After(qs).histograms| < 1000)
              then [q] else [])
  {
    assert (qs + [q])[..|qs|] == qs;
    if q.route.Some? { UnmeteredIff(q.route.value); }
  }

  // ---------------------------------------------------------------- the collector

  /** One line of the Prometheus text, without its labels for the deployment. */
  datatype Line =
    | CounterLine(key: CounterKey, count: nat)
    | BucketLine(series: Series, le: Bound, count: nat)
    | SumLine(series: Series, sum: real)
    | CountLine(series: Series, count: nat)

  function CounterLines(counters: seq<Entry<CounterKey, nat>>): seq<Line>
  {
    seq(|counters|, i requires 0 <= i < |counters| => CounterLine(counters[i].key, counters[i].value))
  }

  function BucketLines(k: Series, buckets: seq<nat>): seq<Line>
    requires |buckets| == BUCKETS
  {
    seq(BUCKETS, i requires 0 <= i < BUCKETS => BucketLine(k, BOUNDS[i], Cumulative(buckets, i + 1)))
  }

  function HistogramLines(histograms: seq<Entry<Series, Histogram>>): seq<Line>
    requires forall e | e in histograms :: |e.value.buckets| == BUCKETS
  {
    if histograms == [] then []
    else
      var e := histograms[|histograms| - 1];
      HistogramLines(histograms[..|histograms| - 1])
        + (BucketLines(e.key, e.value.buckets) + [SumLine(e.key, e.value.sum), CountLine(e.key, e.value.count)])
  }

  // ---------------------------------------------------------------- what the export says

  /** The line is right about the requests. */
  predicate LineTells(line: Line, recorded: seq<Request>)
  {
    match line
    case CounterLine(key, count) => count == Count(recorded, OfCounter(key))
    case BucketLine(k, le, count) => count == Count(recorded, OfWithin(k, le))
    case SumLine(k, sum) => sum == Sum(recorded, Of(k))
    case CountLine(k, count) => count == Count(recorded, Of(k))
  }

  lemma CounterLinesTell(qs: seq<Request>, line: Line)
    requires line in CounterLines(After(qs).counters)
    ensures line.CounterLine? && LineTells(line, Recorded(qs))
  {
    var counters := After(qs).counters;
    var i :| 0 <= i < |counters| && line == CounterLine(counters[i].key, counters[i].value);
    GetOfEntry(counters, counters[i]);
    CountersTell(qs, counters[i].key);
  }

  lemma SeriesLinesTell(k: Series, h: Histogram, recorded: seq<Request>, line: Line)
    requires HistogramTells(h, recorded, k)
    requires line in BucketLines(k, h.buckets) + [SumLine(k, h.sum), CountLine(k, h.count)]
    ensures LineTells(line, recorded)
  {
    if line in BucketLines(k, h.buckets) {
      var i :| 0 <= i < BUCKETS && line == BucketLine(k, BOUNDS[i], Cumulative(h.buckets, i + 1));
    }
  }

  lemma {:induction false} LineOfEntry(histograms: seq<Entry<Series, Histogram>>, line: Line) returns (e: Entry<Series, Histogram>)
    requires forall h | h in histograms :: |h.value.buckets| == BUCKETS
    requires line in HistogramLines(histograms)
    ensures e in histograms
    ensures line in BucketLines(e.key, e.value.buckets) + [SumLine(e.key, e.value.sum), CountLine(e.key, e.value.count)]
  {
    var before := histograms[..|histograms| - 1];
    e := histograms[|histograms| - 1];
    if line in HistogramLines(before) { e := LineOfEntry(before, line); }
  }

  lemma {:induction false} LinesOfEntry(histograms: seq<Entry<Series, Histogram>>, e: Entry<Series, Histogram>)
    requires forall h | h in histograms :: |h.value.buckets| == BUCKETS
    requires e in histograms
    ensures forall x | x in BucketLines(e.key, e.value.buckets) :: x in HistogramLines(histograms)
    ensures SumLine(e.key, e.value.sum) in HistogramLines(histograms)
    ensures CountLine(e.key, e.value.count) in HistogramLines(histograms)
  {
    var before := histograms[..|histograms| - 1];
    if e in before { LinesOfEntry(before, e); }
  }

  /** Every exported line is right about the recorded requests. */
  lemma ExportTells(qs: seq<Request>, line: Line)
    requires line in CounterLines(After(qs).counters) + HistogramLines(After(qs).histograms)
    ensures LineTells(line, Recorded(qs))
  {
    if line in CounterLines(After(qs).counters) {
      CounterLinesTell(qs, line);
    } else {
      var e := LineOfEntry(After(qs).histograms, line);
      GetOfEntry(After(qs).histograms, e);
      HistogramsTell(qs, e.key);
      SeriesLinesTell(e.key, e.value, Recorded(qs), line);
    }
  }

  lemma CounterExported(qs: seq<Request>, key: CounterKey)
    requires Count(Recorded(qs), OfCounter(key)) > 0
    ensures CounterLine(key, Count(Recorded(qs), OfCounter(key))) in CounterLines(After(qs).counters)
  {
    var counters := After(qs).counters;
    CountersTell(qs, key);
    EntryOfGet(counters, key);
    var i :| 0 <= i < |counters| && counters[i] == Entry(key, Get(counters, key).value);
    assert CounterLines(counters)[i] == CounterLine(key, counters[i].value);
  }

  lemma SeriesListed(histograms: seq<Entry<Series, Histogram>>, k: Series, h: Histogram, recorded: seq<Request>, n: nat)
    requires forall x | x in histograms :: |x.value.buckets| == BUCKETS
    requires Entry(k, h) in histograms && HistogramTells(h, recorded, k) && n < BUCKETS
    ensures var lines := HistogramLines(histograms);
            && SumLine(k, Sum(recorded, Of(k))) in lines
            && CountLine(k, Count(recorded, Of(k))) in lines
            && BucketLine(k, BOUNDS[n], Count(recorded, OfWithin(k, BOUNDS[n]))) in lines
  {
    LinesOfEntry(histograms, Entry(k, h));
    assert BucketLines(k, h.buckets)[n] == BucketLine(k, BOUNDS[n], Cumulative(h.buckets, n + 1));
  }

  lemma SeriesExported(qs: seq<Request>, k: Series, n: nat)
    requires Count(Recorded(qs), Of(k)) > 0 && n < BUCKETS
    ensures var lines := HistogramLines(After(qs).histograms);
            && SumLine(k, Sum(Recorded(qs), Of(k))) in lines
            && CountLine(k, Count(Recorded(qs), Of(k))) in lines
            && BucketLine(k, BOUNDS[n], Count(Recorded(qs), OfWithin(k, BOUNDS[n]))) in lines
  {
    var histograms := After(qs).histograms;
    HistogramsTell(qs, k);
    var h := OrEmpty(Get(histograms, k));
    assert h.count == Count(Recorded(qs), Of(k));
    EntryOfGet(histograms, k);
    SeriesListed(histograms, k, h, Recorded(qs), n);
  }

  /** And every recorded request has its lines: its counter, the sum and count of its series, and one for each bound. */
  lemma ExportIsComplete(qs: seq<Request>, q: Request, n: nat)
    requires q in Recorded(qs) && q.route.Some? && n < BUCKETS
    ensures var lines := CounterLines(After(qs).counters) + HistogramLines(After(qs).histograms);
            var k := Series(q.method_, q.route.value);
            && CounterLine(CounterKey(k, q.status), Count(Recorded(qs), OfCounter(CounterKey(k, q.status)))) in lines
            && SumLine(k, Sum(Recorded(qs), Of(k))) in lines
            && CountLine(k, Count(Recorded(qs), Of(k))) in lines
            && BucketLine(k, BOUNDS[n], Count(Recorded(qs), OfWithin(k, BOUNDS[n]))) in lines
  {
    var k := Series(q.method_, q.route.value);
    CountMember(Recorded(qs), q, OfCounter(CounterKey(k, q.status)));
    CountMember(Recorded(qs), q, Of(k));
    CounterExported(qs, CounterKey(k, q.status));
    SeriesExported(qs, k, n);
  }

  lemma {:induction false} CountMember(qs: seq<Request>, q: Request, p: Request -> bool)
    requires q in qs && p(q)
    ensures Count(qs, p) > 0
  {
    var before := qs[..|qs| - 1];
    if q in before { CountMember(before, q, p); }
  }

  /** The bucket loop of `record_request`, which stops at the first bound that fits. */
  method ObserveLatency(h: Histogram, seconds: real) returns (h': Histogram)
    requires |h.buckets| == BUCKETS
    ensures h' == Observe(h, seconds)
  {
    var i := 0;
    while !AtMost(seconds, BOUNDS[i])
      invariant 0 <= i < BUCKETS
      invariant BucketOf(seconds, 0) == BucketOf(seconds, i)
      decreases BUCKETS - i
    {
      i := i + 1;
    }
    h' := Histogram(h.buckets[i := h.buckets[i] + 1], h.sum + seconds, h.count + 1);
  }

  class HTTPMetricsCollector {
    var counters: seq<Entry<CounterKey, nat>>
    var histograms: seq<Entry<Series, Histogram>>

    ghost function View(): Metrics
      reads this
    {
      Metrics(counters, histograms)
    }

    constructor ()
      ensures View() == After([])
    {
      counters, histograms := [], [];
    }

    method RecordRequest(q: Request)
      requires Shaped(View())
      modifies this
      ensures Shaped(View()) && View() == Record(old(View()), q)
    {
      RecordShaped(View(), q);
      if q.route.None? { return; }
      var path := q.route.value;
      if Filtered(path) { return; }
      var series := Series(q.method_, path);
      var key := CounterKey(series, q.status);
      var counter := Get(counters, key);
      if counter.None? && |counters| >= MAX_REQUEST_COUNT_ENTRIES { return; }
      var found := Get(histograms, series);
      if found.None? && |histograms| >= MAX_HISTOGRAM_ENTRIES { return; }
      counters := Put(counters, key, OrZero(counter) + 1);
      var seconds := q.latencyMs / 1000.0;
      var h := ObserveLatency(OrEmpty(found), seconds);
      histograms := Put(histograms, series, h);
    }

    /** The Prometheus lines of `get_metrics`. */
    method GetMetrics() returns (lines: seq<Line>)
      requires Shaped(View())
      ensures lines == CounterLines(counters) + HistogramLines(histograms)
    {
      lines := [];
      var i := 0;
      while i < |counters|
        invariant 0 <= i <= |counters|
        invariant lines == CounterLines(counters)[..i]
      {
        lines := lines + [CounterLine(counters[i].key, counters[i].value)];
        i := i + 1;
      }
      var j := 0;
      while j < |histograms|
        invariant 0 <= j <= |histograms|
        invariant lines == CounterLines(counters) + HistogramLines(histograms[..j])
      {
        var e := histograms[j];
        var buckets := ExportBuckets(e.key, e.value.buckets);
        HistogramLinesNext(histograms, j);
        lines := lines + (buckets + [SumLine(e.key, e.value.sum), CountLine(e.key, e.value.count)]);
        j := j + 1;
      }
      assert histograms[..j] == histograms;
    }
  }

  /** The accumulating loop over one histogram's buckets. */
  method ExportBuckets(k: Series, buckets: seq<nat>) returns (lines: seq<Line>)
    requires |buckets| == BUCKETS
    ensures lines == BucketLines(k, buckets)
  {
    lines := [];
    var acc, i := 0, 0;
    while i < BUCKETS
      invariant 0 <= i <= BUCKETS
      invariant acc == Cumulative(buckets, i)
      invariant lines == BucketLines(k, buckets)[..i]
    {
      acc := acc + buckets[i];
      lines := lines + [BucketLine(k, BOUNDS[i], acc)];
      i := i + 1;
    }
  }

  lemma HistogramLinesNext(histograms: seq<Entry<Series, Histogram>>, j: nat)
    requires j < |histograms| && forall e | e in histograms :: |e.value.buckets| == BUCKETS
    ensures var e := histograms[j];
            HistogramLines(histograms[..j + 1]) ==
            HistogramLines(histograms[..j])
              + (BucketLines(e.key, e.value.buckets) + [SumLine(e.key, e.value.sum), CountLine(e.key, e.value.count)])
  {
    assert histograms[..j + 1][..j] == histograms[..j];
  }
}
