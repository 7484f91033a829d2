/**
 The statistics of the performance monitor: a running mean kept without the sum, a mean kept with
 it, a minimum for which zero also means "no sample yet", and a histogram of latencies.
 Durations are nanoseconds.
 */
module PerformanceStats {
  import opened Division

  // ------------------------------------------------------------------ the running mean

  function Sum(xs: seq<int>): int {
    if xs == [] then 0 else Sum(xs[..|xs| - 1]) + xs[|xs| - 1]
  }

  /** The mean over one more sample: multiplied out, added to and divided again, with truncation. */
  function Next(mean: int, n: nat, x: int): int {
    TruncDiv(mean * n + x, n + 1)
  }

  function RunningMean(xs: seq<int>): int {
    if xs == [] then 0 else Next(RunningMean(xs[..|xs| - 1]), |xs| - 1, xs[|xs| - 1])
  }

  predicate NonNegative(xs: seq<int>) {
    forall i :: 0 <= i < |xs| ==> xs[i] >= 0
  }

  /** `e` is the remainder that the division drops. */
  lemma NextFacts(mean: int, n: nat, x: int) returns (e: nat)
    requires mean >= 0 && x >= 0
    ensures Next(mean, n, x) >= 0 && e <= n
    ensures (n + 1) * Next(mean, n, x) + e == n * mean + x
  {
    var t, d := mean * n + x, n + 1;
    assert mean * n >= 0;
    e := t % d;
    assert t == t / d * d + t % d;
    assert d * (t / d) == t / d * d && n * mean == mean * n;
  }

  /** How far the kept mean is behind, times the number of samples. */
  function Deficit(xs: seq<int>): int {
    Sum(xs) - |xs| * RunningMean(xs)
  }

  function Triangle(n: nat): nat {
    if n == 0 then 0 else Triangle(n - 1) + n - 1
  }

  lemma {:induction false} TriangleIs(n: nat)
    ensures 2 * Triangle(n) == n * (n - 1)
  {
    if n > 0 {
      TriangleIs(n - 1);
      assert n * (n - 1) == (n - 1) * (n - 1 - 1) + 2 * (n - 1);
    }
  }

  /** The kept mean never exceeds the true one and trails it by at most (n-1)/2. */
  lemma DriftBound(xs: seq<int>)
    requires NonNegative(xs)
    ensures |xs| * RunningMean(xs) <= Sum(xs)
    ensures 2 * (Sum(xs) - |xs| * RunningMean(xs)) <= |xs| * (|xs| - 1)
  {
    DeficitBound(xs);
    TriangleIs(|xs|);
  }

  /** One step adds the remainder of its division to the deficit, nothing else. */
  lemma {:induction false} DeficitBound(xs: seq<int>)
    requires NonNegative(xs)
    ensures RunningMean(xs) >= 0 && 0 <= Deficit(xs) <= Triangle(|xs|)
  {
    if xs != [] {
      var n := |xs| - 1;
      DeficitBound(xs[..n]);
      var _ := NextFacts(RunningMean(xs[..n]), n, xs[n]);
    }
  }

  function UpTo(n: nat): seq<int> {
    if n == 0 then [] else UpTo(n - 1) + [n - 1]
  }

  /** The bound is met: over the samples 0, 1, ..., n-1 the kept mean stays 0. */
  lemma {:induction false} DriftIsTight(n: nat)
    ensures |UpTo(n)| == n && NonNegative(UpTo(n)) && RunningMean(UpTo(n)) == 0
    ensures Deficit(UpTo(n)) == Triangle(n)
  {
    if n > 0 {
      DriftIsTight(n - 1);
      assert UpTo(n)[..n - 1] == UpTo(n - 1);
      NextOfZero(n - 1);
    }
  }

  lemma NextOfZero(n: nat)
    ensures Next(0, n, n) == 0
  {
    DivUnique(n, n + 1, 0, n);
  }

  /** The kept mean lies between the least and the greatest sample. */
  lemma {:induction false} MeanWithin(xs: seq<int>, low: int, high: int)
    requires xs != [] && 0 <= low
    requires forall i :: 0 <= i < |xs| ==> low <= xs[i] <= high
    ensures low <= RunningMean(xs) <= high
  {
    var n := |xs| - 1;
    if n > 0 {
      MeanWithin(xs[..n], low, high);
      NextWithin(RunningMean(xs[..n]), n, xs[n], low, high);
    }
  }

  lemma NextWithin(mean: int, n: nat, x: int, low: int, high: int)
    requires 0 <= low <= mean <= high && low <= x <= high
    ensures low <= Next(mean, n, x) <= high
  {
    var e := NextFacts(mean, n, x);
    StepWithin(mean, n, x, low, high, Next(mean, n, x), e);
  }

  lemma StepWithin(mean: int, n: nat, x: int, low: int, high: int, r: int, e: nat)
    requires low <= mean <= high && low <= x <= high
    requires e <= n && (n + 1) * r + e == n * mean + x
    ensures low <= r <= high
  {
    assert n * low <= n * mean <= n * high;
    assert (n + 1) * low == n * low + low && (n + 1) * high == n * high + high;
    QuotientWithin(n + 1, r, e, low, high);
  }

  lemma QuotientWithin(d: nat, r: int, e: nat, low: int, high: int)
    requires e < d && d * low <= d * r + e <= d * high
    ensures low <= r <= high
  {
    MultipleAtLeast(low - r, d);
    MultipleAtLeast(r - high, d);
    assert (low - r) * d == d * low - d * r;
    assert (r - high) * d == d * r - d * high;
  }

  // ------------------------------------------------------------------ the least and the greatest

  /** The minimum as it is kept: a kept zero is taken for "none yet". */
  function Fastest(xs: seq<int>): int {
    if xs == [] then 0
    else
      var m, x := Fastest(xs[..|xs| - 1]), xs[|xs| - 1];
      if m == 0 || x < m then x else m
  }

  function Slowest(xs: seq<int>): int {
    if xs == [] then 0
    else
      var m, x := Slowest(xs[..|xs| - 1]), xs[|xs| - 1];
      if x > m then x else m
  }

  predicate IsLeast(xs: seq<int>, m: int) {
    m in xs && forall i :: 0 <= i < |xs| ==> m <= xs[i]
  }

  predicate IsGreatest(xs: seq<int>, m: int) {
    m in xs && forall i :: 0 <= i < |xs| ==> xs[i] <= m
  }

  /** The samples after the last zero. */
  function SinceZero(xs: seq<int>): seq<int> {
    if xs == [] || xs[|xs| - 1] == 0 then [] else SinceZero(xs[..|xs| - 1]) + [xs[|xs| - 1]]
  }

  /** What the kept minimum is the minimum of. */
  lemma {:induction false} FastestSinceZero(xs: seq<int>)
    requires NonNegative(xs)
    ensures Fastest(xs) >= 0
    ensures SinceZero(xs) == [] <==> Fastest(xs) == 0
    ensures SinceZero(xs) != [] ==> IsLeast(SinceZero(xs), Fastest(xs))
  {
    if xs != [] {
      FastestSinceZero(xs[..|xs| - 1]);
    }
  }

  lemma {:induction false} SinceZeroAll(xs: seq<int>)
    ensures 0 !in xs ==> SinceZero(xs) == xs
  {
    if xs != [] {
      SinceZeroAll(xs[..|xs| - 1]);
      assert xs == xs[..|xs| - 1] + [xs[|xs| - 1]];
    }
  }

  /** The kept minimum is the true one exactly when no sample was zero or the last one was. */
  lemma FastestIsLeastIff(xs: seq<int>)
    requires xs != [] && NonNegative(xs)
    ensures IsLeast(xs, Fastest(xs)) <==> 0 !in xs || xs[|xs| - 1] == 0
  {
    FastestSinceZero(xs);
    SinceZeroAll(xs);
    if 0 in xs {
      var i :| 0 <= i < |xs| && xs[i] == 0;
    }
  }

  lemma {:induction false} SlowestIsGreatest(xs: seq<int>)
    requires xs != [] && NonNegative(xs)
    ensures IsGreatest(xs, Slowest(xs))
  {
    var front, x := xs[..|xs| - 1], xs[|xs| - 1];
    assert xs == front + [x];
    if front != [] {
      SlowestIsGreatest(front);
      assert forall i :: 0 <= i < |front| ==> front[i] <= Slowest(front);
    }
  }

  /** `m` is the quotient rounded down. */
  predicate IsFloor(m: int, sum: int, n: nat) {
    n * m <= sum < n * (m + 1)
  }

  /** The mean kept with the sum is the exact quotient, rounded down. */
  lemma ExactMean(sum: int, n: nat)
    requires n > 0 && sum >= 0
    ensures IsFloor(TruncDiv(sum, n), sum, n)
  {
    var q := sum / n;
    assert sum == q * n + sum % n;
    assert n * (q + 1) == n * q + n;
  }

  // ------------------------------------------------------------------ the histogram

  datatype Bucket = Under1ms | Under5ms | Under10ms | Under50ms | Under100ms | Under500ms | Under1s | Under5s | From5s

  const BUCKETS: seq<Bucket> :=
    [Under1ms, Under5ms, Under10ms, Under50ms, Under100ms, Under500ms, Under1s, Under5s, From5s]

  function BucketOf(latency: int): Bucket {
    var ms := TruncDiv(latency, 1_000_000);
    if ms < 1 then Under1ms
    else if ms < 5 then Under5ms
    else if ms < 10 then Under10ms
    else if ms < 50 then Under50ms
    else if ms < 100 then Under100ms
    else if ms < 500 then Under500ms
    else if ms < 1000 then Under1s
    else if ms < 5000 then Under5s
    else From5s
  }

  /** Where a bucket begins, in milliseconds; each but the last ends where the next begins. */
  function Begins(i: int): int
    requires 0 <= i < 9
  {
    [0, 1, 5, 10, 50, 100, 500, 1000, 5000][i]
  }

  /** The buckets partition the non-negative latencies at the named bounds. */
  lemma BucketIsInterval(latency: int, i: int)
    requires latency >= 0 && 0 <= i < 9
    ensures BucketOf(latency) == BUCKETS[i] <==>
            Begins(i) * 1_000_000 <= latency && (i == 8 || latency < Begins(if i == 8 then i else i + 1) * 1_000_000)
  {}

  function CountIn(xs: seq<int>, b: Bucket): nat {
    if xs == [] then 0 else CountIn(xs[..|xs| - 1], b) + if BucketOf(xs[|xs| - 1]) == b then 1 else 0
  }

  function TotalIn(counts: map<Bucket, int>, bs: seq<Bucket>): int
    requires forall b :: b in bs ==> b in counts
  {
    if bs == [] then 0
    else
      assert bs[|bs| - 1] in bs;
      TotalIn(counts, bs[..|bs| - 1]) + counts[bs[|bs| - 1]]
  }

  /** Every bucket holds the number of samples that fall into it. */
  ghost predicate IsHistogram(counts: map<Bucket, int>, xs: seq<int>) {
    forall b {:trigger CountIn(xs, b)} :: b in counts && counts[b] == CountIn(xs, b)
  }

  lemma TotalAfter(counts: map<Bucket, int>, bs: seq<Bucket>, b: Bucket)
    requires forall x :: x in bs ==> x in counts
    requires forall i, j :: 0 <= i < j < |bs| ==> bs[i] != bs[j]
    requires b in counts
    ensures TotalIn(counts[b := counts[b] + 1], bs) == TotalIn(counts, bs) + if b in bs then 1 else 0
  {
    if bs != [] {
      TotalAfter(counts, bs[..|bs| - 1], b);
    }
  }

  lemma HistogramAppend(counts: map<Bucket, int>, xs: seq<int>, x: int)
    requires IsHistogram(counts, xs)
    ensures BucketOf(x) in counts
    ensures IsHistogram(counts[BucketOf(x) := counts[BucketOf(x)] + 1], xs + [x])
  {
    var after := counts[BucketOf(x) := CountIn(xs, BucketOf(x)) + 1];
    forall b ensures b in after && after[b] == CountIn(xs + [x], b) {
      CountAppend(xs, x, b);
    }
  }

  lemma CountAppend(xs: seq<int>, x: int, b: Bucket)
    ensures CountIn(xs + [x], b) == CountIn(xs, b) + if BucketOf(x) == b then 1 else 0
  {
    assert (xs + [x])[..|xs|] == xs;
  }

  /** No sample is lost: the counts add up to the number of samples. */
  lemma {:induction false} HistogramTotal(counts: map<Bucket, int>, xs: seq<int>)
    requires IsHistogram(counts, xs)
    ensures forall b :: b in BUCKETS ==> b in counts
    ensures TotalIn(counts, BUCKETS) == |xs|
  {
    AllCounted(counts, xs);
    if xs == [] {
      ZeroTotal(counts, BUCKETS);
    } else {
      var n, x := |xs| - 1, xs[|xs| - 1];
      var before := counts[BucketOf(x) := counts[BucketOf(x)] - 1];
      forall b ensures b in before && before[b] == CountIn(xs[..n], b) {
        assert counts[b] == CountIn(xs, b);
      }
      HistogramTotal(before, xs[..n]);
      TotalAfter(before, BUCKETS, BucketOf(x));
      assert before[BucketOf(x) := before[BucketOf(x)] + 1] == counts;
    }
  }

  lemma AllCounted(counts: map<Bucket, int>, xs: seq<int>)
    requires IsHistogram(counts, xs)
    ensures forall b: Bucket :: b in counts
    ensures xs == [] ==> forall b :: b in counts ==> counts[b] == 0
  {
    forall b: Bucket ensures b in counts && (xs == [] ==> counts[b] == 0) {
      var n := CountIn(xs, b);
      assert xs == [] ==> n == 0;
    }
  }

  lemma {:induction false} ZeroTotal(counts: map<Bucket, int>, bs: seq<Bucket>)
    requires forall b :: b in bs ==> b in counts && counts[b] == 0
    ensures TotalIn(counts, bs) == 0
  {
    if bs != [] {
      assert bs[|bs| - 1] in bs;
      ZeroTotal(counts, bs[..|bs| - 1]);
    }
  }

  /** Histogram, minimum and maximum of the latencies recorded so far. */
  ghost predicate LatenciesMatch(counts: map<Bucket, int>, least: int, greatest: int, xs: seq<int>) {
    IsHistogram(counts, xs) && least == Fastest(xs) && greatest == Slowest(xs)
  }

  const NO_COUNTS: map<Bucket, int> :=
    map[Under1ms := 0, Under5ms := 0, Under10ms := 0, Under50ms := 0, Under100ms := 0,
        Under500ms := 0, Under1s := 0, Under5s := 0, From5s := 0]

  lemma NothingYet()
    ensures LatenciesMatch(NO_COUNTS, 0, 0, [])
  {
    forall b: Bucket ensures b in NO_COUNTS && NO_COUNTS[b] == 0 {
      match b
      case Under1ms => case Under5ms => case Under10ms => case Under50ms => case Under100ms =>
      case Under500ms => case Under1s => case Under5s => case From5s =>
    }
  }

  // ------------------------------------------------------------------ the monitor

  /** One recorded event: its message type or protocol, how long it took, whether it succeeded. */
  datatype Sample = Sample(key: string, time: int, ok: bool)

  function AllTimes(samples: seq<Sample>): seq<int> {
    if samples == [] then [] else AllTimes(samples[..|samples| - 1]) + [samples[|samples| - 1].time]
  }

  /** Only those of one key. */
  function Only(samples: seq<Sample>, key: string): seq<Sample> {
    if samples == [] then []
    else
      var last := samples[|samples| - 1];
      Only(samples[..|samples| - 1], key) + if last.key == key then [last] else []
  }

  function Errors(samples: seq<Sample>): nat {
    if samples == [] then 0
    else Errors(samples[..|samples| - 1]) + if samples[|samples| - 1].ok then 0 else 1
  }

  lemma SamplesAppend(samples: seq<Sample>, s: Sample)
    ensures AllTimes(samples + [s]) == AllTimes(samples) + [s.time]
    ensures Errors(samples + [s]) == Errors(samples) + if s.ok then 0 else 1
  {
    assert (samples + [s])[..|samples|] == samples;
  }

  lemma OnlyAppend(samples: seq<Sample>, s: Sample, k: string)
    ensures Only(samples + [s], k) == Only(samples, k) + if s.key == k then [s] else []
  {
    assert (samples + [s])[..|samples|] == samples;
  }

  lemma TimesAppend(xs: seq<int>, x: int)
    ensures Sum(xs + [x]) == Sum(xs) + x
    ensures RunningMean(xs + [x]) == Next(RunningMean(xs), |xs|, x)
    ensures Fastest(xs + [x]) == if Fastest(xs) == 0 || x < Fastest(xs) then x else Fastest(xs)
    ensures Slowest(xs + [x]) == if x > Slowest(xs) then x else Slowest(xs)
  {
    assert (xs + [x])[..|xs|] == xs;
  }

  lemma {:induction false} TimesLength(samples: seq<Sample>)
    ensures |AllTimes(samples)| == |samples| && Errors(samples) <= |samples|
  {
    if samples != [] {
      TimesLength(samples[..|samples| - 1]);
    }
  }

  datatype TypeStats = TypeStats(
    count: int,
    successCount: int,
    errorCount: int,
    averageLatency: int,
    totalLatency: int,
    maxLatency: int)

  datatype ProtocolStats = ProtocolStats(messageCount: int, averageTime: int, errorCount: int)

  function TypeStatsOf(samples: seq<Sample>): TypeStats {
    var xs, n := AllTimes(samples), |samples|;
    TypeStats(n, n - Errors(samples), Errors(samples), if n == 0 then 0 else TruncDiv(Sum(xs), n), Sum(xs), Slowest(xs))
  }

  function ProtocolStatsOf(samples: seq<Sample>): ProtocolStats {
    ProtocolStats(|samples|, RunningMean(AllTimes(samples)), Errors(samples))
  }

  lemma {:induction false} ErrorsAre(samples: seq<Sample>)
    ensures Errors(samples) == |set i | 0 <= i < |samples| && !samples[i].ok|
  {
    var bad := set i | 0 <= i < |samples| && !samples[i].ok;
    if samples == [] {
      assert bad == {};
    } else {
      var n := |samples| - 1;
      ErrorsAre(samples[..n]);
      var before := set i | 0 <= i < |samples[..n]| && !samples[..n][i].ok;
      assert bad == if samples[n].ok then before else before + {n};
    }
  }

  lemma {:induction false} TimesAre(samples: seq<Sample>)
    ensures |AllTimes(samples)| == |samples|
    ensures forall i :: 0 <= i < |samples| ==> AllTimes(samples)[i] == samples[i].time
  {
    if samples != [] {
      TimesAre(samples[..|samples| - 1]);
    }
  }

  /** What the statistics of a message type count. */
  lemma TypeStatsCount(samples: seq<Sample>)
    ensures var t := TypeStatsOf(samples);
            && t.count == |samples| && t.successCount + t.errorCount == t.count
            && t.errorCount == |set i | 0 <= i < |samples| && !samples[i].ok|
            && t.totalLatency == Sum(AllTimes(samples))
  {
    ErrorsAre(samples);
  }

  /** Its average is the mean of all times rounded down. */
  lemma TypeAverageIsMean(samples: seq<Sample>)
    requires samples != [] && NonNegative(AllTimes(samples))
    ensures IsFloor(TypeStatsOf(samples).averageLatency, Sum(AllTimes(samples)), |samples|)
  {
    SumNonNegative(AllTimes(samples));
    AverageOf(samples);
    ExactMean(Sum(AllTimes(samples)), |samples|);
  }

  lemma AverageOf(samples: seq<Sample>)
    requires samples != []
    ensures TypeStatsOf(samples).averageLatency == TruncDiv(Sum(AllTimes(samples)), |samples|)
  {}

  /** Its maximum is the greatest time. */
  lemma TypeMaximumIsGreatest(samples: seq<Sample>)
    requires samples != [] && forall i :: 0 <= i < |samples| ==> samples[i].time >= 0
    ensures exists i :: 0 <= i < |samples| && samples[i].time == TypeStatsOf(samples).maxLatency
    ensures forall i :: 0 <= i < |samples| ==> samples[i].time <= TypeStatsOf(samples).maxLatency
  {
    var xs := AllTimes(samples);
    TimesAre(samples);
    SlowestIsGreatest(xs);
    var i :| 0 <= i < |xs| && xs[i] == Slowest(xs);
    assert samples[i].time == Slowest(xs);
    assert forall j :: 0 <= j < |samples| ==> samples[j].time == xs[j];
  }

  /** What the statistics of a protocol count, and which mean they keep. */
  lemma ProtocolStatsCount(samples: seq<Sample>)
    ensures var p := ProtocolStatsOf(samples);
            && p.messageCount == |samples| && p.errorCount == |set i | 0 <= i < |samples| && !samples[i].ok|
            && p.averageTime == RunningMean(AllTimes(samples))
  {
    ErrorsAre(samples);
  }

  lemma {:induction false} SumNonNegative(xs: seq<int>)
    requires NonNegative(xs)
    ensures Sum(xs) >= 0
  {
    if xs != [] {
      SumNonNegative(xs[..|xs| - 1]);
    }
  }

  /** The table that results when every sample updates the entry of its own key. */
  function Table<T>(samples: seq<Sample>, statsOf: seq<Sample> -> T): map<string, T> {
    if samples == [] then map[]
    else
      var k := samples[|samples| - 1].key;
      Table(samples[..|samples| - 1], statsOf)[k := statsOf(Only(samples, k))]
  }

  /** The entry of a key is about all its samples and no others; a key without any has none. */
  lemma {:induction false} TableEntry<T>(samples: seq<Sample>, statsOf: seq<Sample> -> T, k: string)
    ensures k in Table(samples, statsOf) <==> Only(samples, k) != []
    ensures k in Table(samples, statsOf) ==> Table(samples, statsOf)[k] == statsOf(Only(samples, k))
  {
    if samples != [] {
      var front := samples[..|samples| - 1];
      TableEntry(front, statsOf, k);
      assert k != samples[|samples| - 1].key ==> Only(samples, k) == Only(front, k);
    }
  }

  lemma TableAppend<T>(samples: seq<Sample>, statsOf: seq<Sample> -> T, s: Sample)
    ensures Table(samples + [s], statsOf) == Table(samples, statsOf)[s.key := statsOf(Only(samples, s.key) + [s])]
  {
    OnlyAppend(samples, s, s.key);
    assert (samples + [s])[..|samples|] == samples;
  }

  predicate CountersMatch(total: int, successful: int, failed: int, messages: seq<Sample>) {
    total == |messages| && failed == Errors(messages) && successful == total - failed
  }

  /** Statistics about processed messages. */
  class MessageProcessingStats {
    var totalMessages: int
    var successfulMessages: int
    var failedMessages: int
    var typeStats: map<string, TypeStats>
    var minLatency: int
    var maxLatency: int
    var latencyBuckets: map<Bucket, int>
    /** Everything recorded so far. */
    ghost var messages: seq<Sample>

    ghost predicate Valid()
      reads this
    {
      && CountersMatch(totalMessages, successfulMessages, failedMessages, messages)
      && typeStats == Table(messages, TypeStatsOf)
      && LatenciesMatch(latencyBuckets, minLatency, maxLatency, AllTimes(messages))
    }

    constructor ()
      ensures Valid() && messages == []
    {
      totalMessages, successfulMessages, failedMessages, typeStats := 0, 0, 0, map[];
      minLatency, maxLatency, latencyBuckets, messages := 0, 0, NO_COUNTS, [];
      NothingYet();
    }

    method RecordMessageProcessing(messageType: string, processingTime: int, success: bool)
      requires Valid()
      modifies this
      ensures Valid() && messages == old(messages) + [Sample(messageType, processingTime, success)]
    {
      ghost var s := Sample(messageType, processingTime, success);
      UpdateCounters(success, s);
      UpdateTypeStats(messageType, processingTime, success);
      UpdateLatencyStats(processingTime, AllTimes(messages));
      SamplesAppend(messages, s);
      messages := messages + [s];
    }

    method UpdateCounters(success: bool, ghost s: Sample)
      requires CountersMatch(totalMessages, successfulMessages, failedMessages, messages) && s.ok == success
      modifies this`totalMessages, this`successfulMessages, this`failedMessages
      ensures CountersMatch(totalMessages, successfulMessages, failedMessages, messages + [s])
    {
      SamplesAppend(messages, s);
      totalMessages := totalMessages + 1;
      if success {
        successfulMessages := successfulMessages + 1;
      } else {
        failedMessages := failedMessages + 1;
      }
    }

    method UpdateTypeStats(messageType: string, processingTime: int, success: bool)
      requires typeStats == Table(messages, TypeStatsOf)
      modifies this`typeStats
      ensures typeStats == Table(messages + [Sample(messageType, processingTime, success)], TypeStatsOf)
    {
      ghost var s := Sample(messageType, processingTime, success);
      TableEntry(messages, TypeStatsOf, messageType);
      TableAppend(messages, TypeStatsOf, s);
      var t := TypeStats(0, 0, 0, 0, 0, 0);
      if messageType in typeStats {
        t := typeStats[messageType];
      }
      t := AddToType(t, processingTime, success, Only(messages, messageType), s);
      typeStats := typeStats[messageType := t];
    }

    method AddToType(t0: TypeStats, processingTime: int, success: bool, ghost mine: seq<Sample>, ghost s: Sample)
      returns (t: TypeStats)
      requires t0 == TypeStatsOf(mine) && s.time == processingTime && s.ok == success
      ensures t == TypeStatsOf(mine + [s])
    {
      SamplesAppend(mine, s);
      TimesAppend(AllTimes(mine), processingTime);
      t := t0.(count := t0.count + 1);
      if success {
        t := t.(successCount := t.successCount + 1);
      } else {
        t := t.(errorCount := t.errorCount + 1);
      }
      t := t.(totalLatency := t.totalLatency + processingTime);
      t := t.(averageLatency := TruncDiv(t.totalLatency, t.count));
      if processingTime > t.maxLatency {
        t := t.(maxLatency := processingTime);
      }
    }

    method UpdateLatencyStats(latency: int, ghost before: seq<int>)
      requires LatenciesMatch(latencyBuckets, minLatency, maxLatency, before)
      modifies this`latencyBuckets, this`minLatency, this`maxLatency
      ensures LatenciesMatch(latencyBuckets, minLatency, maxLatency, before + [latency])
    {
      HistogramAppend(latencyBuckets, before, latency);
      TimesAppend(before, latency);
      var bucket := BucketOf(latency);
      latencyBuckets := latencyBuckets[bucket := latencyBuckets[bucket] + 1];
      if minLatency == 0 || latency < minLatency {
        minLatency := latency;
      }
      if latency > maxLatency {
        maxLatency := latency;
      }
    }
  }

  /** Statistics about routed messages, by protocol. */
  class MessageRoutingStats {
    var totalRouted: int
    var routingErrors: int
    var protocolStats: map<string, ProtocolStats>
    /** Everything recorded so far. */
    ghost var routed: seq<Sample>

    ghost predicate Valid()
      reads this
    {
      totalRouted == |routed| && routingErrors == Errors(routed) && protocolStats == Table(routed, ProtocolStatsOf)
    }

    constructor ()
      ensures Valid() && routed == []
    {
      totalRouted, routingErrors, protocolStats, routed := 0, 0, map[], [];
    }

    method RecordRoutingStats(protocol: string, routingTime: int, success: bool)
      requires Valid()
      modifies this
      ensures Valid() && routed == old(routed) + [Sample(protocol, routingTime, success)]
    {
      ghost var s := Sample(protocol, routingTime, success);
      SamplesAppend(routed, s);
      totalRouted := totalRouted + 1;
      if !success {
        routingErrors := routingErrors + 1;
      }
      UpdateProtocolStats(protocol, routingTime, success);
      routed := routed + [s];
    }

    method UpdateProtocolStats(protocol: string, routingTime: int, success: bool)
      requires protocolStats == Table(routed, ProtocolStatsOf)
      modifies this`protocolStats
      ensures protocolStats == Table(routed + [Sample(protocol, routingTime, success)], ProtocolStatsOf)
    {
      ghost var s := Sample(protocol, routingTime, success);
      TableEntry(routed, ProtocolStatsOf, protocol);
      TableAppend(routed, ProtocolStatsOf, s);
      var p := ProtocolStats(0, 0, 0);
      if protocol in protocolStats {
        p := protocolStats[protocol];
      }
      p := AddToProtocol(p, routingTime, success, Only(routed, protocol), s);
      protocolStats := protocolStats[protocol := p];
    }

    method AddToProtocol(p0: ProtocolStats, routingTime: int, success: bool, ghost mine: seq<Sample>, ghost s: Sample)
      returns (p: ProtocolStats)
      requires p0 == ProtocolStatsOf(mine) && s.time == routingTime && s.ok == success
      ensures p == ProtocolStatsOf(mine + [s])
    {
      SamplesAppend(mine, s);
      TimesLength(mine);
      TimesAppend(AllTimes(mine), routingTime);
      p := p0.(messageCount := p0.messageCount + 1);
      if !success {
        p := p.(errorCount := p.errorCount + 1);
      }
      var totalTime := p.averageTime * (p.messageCount - 1);
      p := p.(averageTime := TruncDiv(totalTime + routingTime, p.messageCount));
    }
  }
}
