/**
 The bitrate controller: a three-state congestion machine and an adaptive target bitrate, both
 driven once per tick by the recent network statistics. Rates and scores are exact reals, and
 times and durations are integers (nanoseconds).
 */
module NetworkOptimizer {
  import opened Division

  datatype CongestionState = Normal | Detected | Recovering

  datatype Config = Config(
    congestionControlEnabled: bool, congestionThreshold: real, congestionRecoveryTime: int,
    adaptiveBitrateEnabled: bool, minBitrate: int, maxBitrate: int, stepSize: int,
    qualityThreshold: real)

  datatype NetworkStats = NetworkStats(packetsSent: int, packetsLost: int, rtt: int, jitter: int)

  /** What a tick reads and writes. */
  datatype Control = Control(
    state: CongestionState, lastCongestion: int, current: int, target: int, lossRate: real)

  const MAX_HISTORY: nat := 100
  const MAX_ADJUSTMENTS: nat := 50

  // ------------------------------------------------------------------ measurements

  function LossRate(history: seq<NetworkStats>): real
    requires |history| >= 2
  {
    var recent, previous := history[|history| - 1], history[|history| - 2];
    var sent, lost := recent.packetsSent - previous.packetsSent, recent.packetsLost - previous.packetsLost;
    if sent > 0 then (lost as real) / (sent as real) else 0.0
  }

  function TotalRtt(stats: seq<NetworkStats>): int {
    if stats == [] then 0
    else TotalRtt(stats[..|stats| - 1]) + if stats[|stats| - 1].rtt > 0 then stats[|stats| - 1].rtt else 0
  }

  function RttCount(stats: seq<NetworkStats>): nat {
    if stats == [] then 0
    else RttCount(stats[..|stats| - 1]) + if stats[|stats| - 1].rtt > 0 then 1 else 0
  }

  function AverageRtt(stats: seq<NetworkStats>): int {
    if RttCount(stats) > 0 then TruncDiv(TotalRtt(stats), RttCount(stats)) else 0
  }

  function Milliseconds(nanoseconds: int): int {
    TruncDiv(nanoseconds, 1_000_000)
  }

  function NonNegative(x: real): real {
    if x < 0.0 then 0.0 else x
  }

  function RttScore(rtt: int): real {
    if rtt > 0 then NonNegative(1.0 - Milliseconds(rtt) as real / 1000.0) else 1.0
  }

  function LossScore(lossRate: real): real {
    NonNegative(1.0 - lossRate * 10.0)
  }

  function JitterScore(jitter: int): real {
    if jitter > 0 then NonNegative(1.0 - Milliseconds(jitter) as real / 100.0) else 1.0
  }

  function Quality(history: seq<NetworkStats>, lossRate: real): real
    requires |history| >= 5
  {
    var recent := history[|history| - 5..];
    Score(AverageRtt(recent), lossRate, recent[4].jitter)
  }

  function Score(rtt: int, lossRate: real, jitter: int): real {
    RttScore(rtt) * LossScore(lossRate) * JitterScore(jitter)
  }

  // ------------------------------------------------------------------ one tick

  function AtLeast(x: int, low: int): int {
    if x < low then low else x
  }

  function AtMost(x: int, high: int): int {
    if x > high then high else x
  }

  /** The bitrate after the cut by a fifth. */
  function CutBitrate(cfg: Config, current: int): int {
    AtLeast(TruncDiv(current * 4, 5), cfg.minBitrate)
  }

  function CongestionStep(cfg: Config, c: Control, history: seq<NetworkStats>, now: int): Control {
    if |history| < 2 then c
    else
      var loss := LossRate(history);
      var c := c.(lossRate := loss);
      if loss > cfg.congestionThreshold then
        if c.state == Normal then
          c.(state := Detected, lastCongestion := now, current := CutBitrate(cfg, c.current))
        else c
      else if c.state == Detected then
        if now - c.lastCongestion > cfg.congestionRecoveryTime then c.(state := Recovering) else c
      else if c.state == Recovering && c.current < c.target then
        var raised := AtMost(c.current + cfg.stepSize, c.target);
        c.(current := raised, state := if raised >= c.target then Normal else Recovering)
      else c
  }

  function NewTarget(cfg: Config, target: int, quality: real): int {
    if quality > cfg.qualityThreshold then
      if target + cfg.stepSize <= cfg.maxBitrate then target + cfg.stepSize else target
    else if quality < cfg.qualityThreshold * 0.7 then
      if target - cfg.stepSize >= cfg.minBitrate then target - cfg.stepSize else target
    else target
  }

  function Approach(cfg: Config, current: int, target: int): int {
    var half := TruncDiv(cfg.stepSize, 2);
    if current < target then AtMost(current + half, target)
    else if current > target then AtLeast(current - half, target)
    else current
  }

  function AdaptiveStep(cfg: Config, c: Control, history: seq<NetworkStats>): Control {
    if |history| < 5 then c
    else
      var target := NewTarget(cfg, c.target, Quality(history, c.lossRate));
      c.(target := target, current := if c.state == Normal then Approach(cfg, c.current, target) else c.current)
  }

  function AfterCongestion(cfg: Config, c: Control, history: seq<NetworkStats>, now: int): Control {
    if cfg.congestionControlEnabled then CongestionStep(cfg, c, history, now) else c
  }

  function Tick(cfg: Config, c: Control, history: seq<NetworkStats>, now: int): Control {
    var c := AfterCongestion(cfg, c, history, now);
    if cfg.adaptiveBitrateEnabled then AdaptiveStep(cfg, c, history) else c
  }

  function Start(cfg: Config): Control {
    var middle := TruncDiv(cfg.minBitrate + cfg.maxBitrate, 2);
    Control(Normal, 0, middle, middle, 0.0)
  }

  /** The history with one more sample, cut to its limit. */
  function Appended(history: seq<NetworkStats>, stats: NetworkStats): seq<NetworkStats> {
    var all := history + [stats];
    if |all| > MAX_HISTORY then all[1..] else all
  }

  /** The adjustments so far with one more, unless nothing changes, cut to their limit. */
  function WithAdjustment(adjustments: seq<int>, current: int, newBitrate: int): seq<int> {
    var all := adjustments + [newBitrate];
    if newBitrate == current then adjustments else if |all| > MAX_ADJUSTMENTS then all[1..] else all
  }

  // ------------------------------------------------------------------ the object

  class Optimizer {
    const config: Config
    var statsHistory: seq<NetworkStats>
    var congestionState: CongestionState
    var lastCongestionTime: int
    var currentBitrate: int
    var targetBitrate: int
    var bitrateHistory: seq<int>
    var packetLossRate: real
    var congestionDetected: bool
    var bitrateAdjustments: nat
    var averageRtt: int
    var qualityScore: real

    ghost function Abs(): Control
      reads this
    {
      Control(congestionState, lastCongestionTime, currentBitrate, targetBitrate, packetLossRate)
    }

    ghost predicate Valid()
      reads this
    {
      && |statsHistory| <= MAX_HISTORY && |bitrateHistory| <= MAX_ADJUSTMENTS
      && (congestionDetected <==> congestionState == Detected)
      && |bitrateHistory| <= bitrateAdjustments
      && (bitrateHistory != [] ==> bitrateHistory[|bitrateHistory| - 1] == currentBitrate)
    }

    constructor (config: Config)
      ensures Valid() && Abs() == Start(config) && this.config == config
      ensures statsHistory == [] && bitrateHistory == []
    {
      this.config := config;
      statsHistory, bitrateHistory := [], [];
      congestionState, lastCongestionTime, congestionDetected := Normal, 0, false;
      currentBitrate := TruncDiv(config.minBitrate + config.maxBitrate, 2);
      targetBitrate := TruncDiv(config.minBitrate + config.maxBitrate, 2);
      packetLossRate, qualityScore := 0.0, 0.0;
      bitrateAdjustments, averageRtt := 0, 0;
    }

    method UpdateNetworkStats(stats: NetworkStats)
      requires Valid()
      modifies this`statsHistory
      ensures Valid()
      ensures statsHistory == Appended(old(statsHistory), stats)
    {
      statsHistory := statsHistory + [stats];
      if |statsHistory| > MAX_HISTORY {
        statsHistory := statsHistory[1..];
      }
    }

    method AdjustBitrate(newBitrate: int)
      requires Valid()
      modifies this`currentBitrate, this`bitrateAdjustments, this`bitrateHistory
      ensures Valid() && currentBitrate == newBitrate
      ensures bitrateAdjustments == old(bitrateAdjustments) + if newBitrate == old(currentBitrate) then 0 else 1
      ensures bitrateHistory == WithAdjustment(old(bitrateHistory), old(currentBitrate), newBitrate)
    {
      if newBitrate == currentBitrate {
        return;
      }
      currentBitrate := newBitrate;
      bitrateAdjustments := bitrateAdjustments + 1;
      bitrateHistory := bitrateHistory + [newBitrate];
      if |bitrateHistory| > MAX_ADJUSTMENTS {
        bitrateHistory := bitrateHistory[1..];
      }
    }

    method PerformCongestionControl(now: int)
      requires Valid()
      modifies this
      ensures Valid() && statsHistory == old(statsHistory)
      ensures Abs() == CongestionStep(config, old(Abs()), statsHistory, now)
    {
      if |statsHistory| < 2 {
        return;
      }
      var recent, previous := statsHistory[|statsHistory| - 1], statsHistory[|statsHistory| - 2];
      var packetsSent := recent.packetsSent - previous.packetsSent;
      var packetsLost := recent.packetsLost - previous.packetsLost;
      var lossRate := 0.0;
      if packetsSent > 0 {
        lossRate := packetsLost as real / packetsSent as real;
      }
      packetLossRate := lossRate;
      if lossRate > config.congestionThreshold {
        if congestionState == Normal {
          congestionState := Detected;
          lastCongestionTime := now;
          congestionDetected := true;
          var newBitrate := TruncDiv(currentBitrate * 4, 5);
          if newBitrate < config.minBitrate {
            newBitrate := config.minBitrate;
          }
          AdjustBitrate(newBitrate);
        }
      } else if congestionState == Detected {
        if now - lastCongestionTime > config.congestionRecoveryTime {
          congestionState := Recovering;
          congestionDetected := false;
        }
      } else if congestionState == Recovering {
        if currentBitrate < targetBitrate {
          var newBitrate := currentBitrate + config.stepSize;
          if newBitrate > targetBitrate {
            newBitrate := targetBitrate;
          }
          AdjustBitrate(newBitrate);
          if newBitrate >= targetBitrate {
            congestionState := Normal;
          }
        }
      }
    }

    /** The mean of the positive round-trip times, 0 if there are none. */
    method MeasureRtt(recent: seq<NetworkStats>) returns (avgRtt: int)
      modifies this`averageRtt
      ensures avgRtt == AverageRtt(recent)
      ensures averageRtt == if RttCount(recent) > 0 then avgRtt else old(averageRtt)
    {
      var total, count, i := 0, 0, 0;
      while i < |recent|
        invariant i <= |recent|
        invariant total == TotalRtt(recent[..i]) && count == RttCount(recent[..i])
      {
        assert recent[..i + 1][..i] == recent[..i];
        if recent[i].rtt > 0 {
          total, count := total + recent[i].rtt, count + 1;
        }
        i := i + 1;
      }
      assert recent[..i] == recent;
      avgRtt := 0;
      if count > 0 {
        avgRtt := TruncDiv(total, count);
        averageRtt := avgRtt;
      }
    }

    method CalculateNetworkQuality() returns (score: real)
      modifies this`averageRtt
      ensures |statsHistory| >= 5 ==> score == Quality(statsHistory, packetLossRate)
      ensures |statsHistory| < 5 ==> score == 0.5
    {
      if |statsHistory| < 5 {
        return 0.5;
      }
      var recent := statsHistory[|statsHistory| - 5..];
      var avgRtt := MeasureRtt(recent);
      var rttScore := 1.0;
      if avgRtt > 0 {
        rttScore := 1.0 - Milliseconds(avgRtt) as real / 1000.0;
        if rttScore < 0.0 {
          rttScore := 0.0;
        }
      }
      var lossScore := 1.0 - packetLossRate * 10.0;
      if lossScore < 0.0 {
        lossScore := 0.0;
      }
      var jitterScore := 1.0;
      if recent[4].jitter > 0 {
        jitterScore := 1.0 - Milliseconds(recent[4].jitter) as real / 100.0;
        if jitterScore < 0.0 {
          jitterScore := 0.0;
        }
      }
      assert rttScore == RttScore(avgRtt) && lossScore == LossScore(packetLossRate);
      assert jitterScore == JitterScore(recent[4].jitter);
      score := rttScore * lossScore * jitterScore;
    }

    method PerformAdaptiveBitrate()
      requires Valid()
      modifies this
      ensures Valid() && statsHistory == old(statsHistory)
      ensures Abs() == AdaptiveStep(config, old(Abs()), statsHistory)
    {
      if |statsHistory| < 5 {
        return;
      }
      var score := CalculateNetworkQuality();
      qualityScore := score;
      AdjustTarget(score);
      if congestionState == Normal {
        ChaseTarget();
      }
    }

    method AdjustTarget(score: real)
      modifies this`targetBitrate
      ensures targetBitrate == NewTarget(config, old(targetBitrate), score)
    {
      if score > config.qualityThreshold {
        var newTarget := targetBitrate + config.stepSize;
        if newTarget <= config.maxBitrate {
          targetBitrate := newTarget;
        }
      } else if score < config.qualityThreshold * 0.7 {
        var newTarget := targetBitrate - config.stepSize;
        if newTarget >= config.minBitrate {
          targetBitrate := newTarget;
        }
      }
    }

    method ChaseTarget()
      requires Valid()
      modifies this`currentBitrate, this`bitrateAdjustments, this`bitrateHistory
      ensures Valid() && currentBitrate == Approach(config, old(currentBitrate), targetBitrate)
    {
      if currentBitrate < targetBitrate {
        var newBitrate := currentBitrate + TruncDiv(config.stepSize, 2);
        if newBitrate > targetBitrate {
          newBitrate := targetBitrate;
        }
        AdjustBitrate(newBitrate);
      } else if currentBitrate > targetBitrate {
        var newBitrate := currentBitrate - TruncDiv(config.stepSize, 2);
        if newBitrate < targetBitrate {
          newBitrate := targetBitrate;
        }
        AdjustBitrate(newBitrate);
      }
    }

    method PerformOptimization(now: int)
      requires Valid()
      modifies this
      ensures Valid() && statsHistory == old(statsHistory)
      ensures Abs() == Tick(config, old(Abs()), statsHistory, now)
    {
      if config.congestionControlEnabled {
        PerformCongestionControl(now);
      }
      if config.adaptiveBitrateEnabled {
        PerformAdaptiveBitrate();
      }
    }
  }

  // ------------------------------------------------------------------ what the measurements mean

  /** The loss rate is the share of the packets sent since the sample before that were lost since. */
  lemma LossRateIs(history: seq<NetworkStats>)
    requires |history| >= 2
    ensures var n := |history|;
            var sent := history[n - 1].packetsSent - history[n - 2].packetsSent;
            var lost := history[n - 1].packetsLost - history[n - 2].packetsLost;
            && (sent > 0 ==> LossRate(history) * sent as real == lost as real)
            && (sent <= 0 ==> LossRate(history) == 0.0)
            && (0 <= lost <= sent ==> 0.0 <= LossRate(history) <= 1.0)
  {
    var n := |history|;
    var sent := history[n - 1].packetsSent - history[n - 2].packetsSent;
    var lost := history[n - 1].packetsLost - history[n - 2].packetsLost;
    if sent > 0 {
      ShareIs(lost as real, sent as real);
    }
  }

  lemma ShareIs(part: real, whole: real)
    requires whole > 0.0
    ensures (part / whole) * whole == part
    ensures 0.0 <= part <= whole ==> 0.0 <= part / whole <= 1.0
  {}

  lemma {:induction false} RttTotals(stats: seq<NetworkStats>, low: int, high: int)
    requires forall i :: 0 <= i < |stats| && stats[i].rtt > 0 ==> low <= stats[i].rtt <= high
    ensures RttCount(stats) * low <= TotalRtt(stats) <= RttCount(stats) * high
  {
    if stats != [] {
      var front, n, x := stats[..|stats| - 1], RttCount(stats[..|stats| - 1]), stats[|stats| - 1].rtt;
      RttTotals(front, low, high);
      if x > 0 {
        OneMore(n, low, high, TotalRtt(front), x);
      }
    }
  }

  lemma OneMore(n: nat, low: int, high: int, total: int, x: int)
    requires n * low <= total <= n * high && low <= x <= high
    ensures (n + 1) * low <= total + x <= (n + 1) * high
  {}

  lemma {:induction false} RttCounts(stats: seq<NetworkStats>)
    ensures RttCount(stats) == 0 <==> forall i :: 0 <= i < |stats| ==> stats[i].rtt <= 0
    ensures TotalRtt(stats) >= RttCount(stats)
  {
    if stats != [] {
      RttCounts(stats[..|stats| - 1]);
      assert stats == stats[..|stats| - 1] + [stats[|stats| - 1]];
    }
  }

  /** The average lies between any bounds of the positive times, and is 0 if there are none. */
  lemma AverageRttWithin(stats: seq<NetworkStats>, low: int, high: int)
    requires forall i :: 0 <= i < |stats| && stats[i].rtt > 0 ==> low <= stats[i].rtt <= high
    ensures if forall i :: 0 <= i < |stats| ==> stats[i].rtt <= 0 then AverageRtt(stats) == 0
            else low <= AverageRtt(stats) <= high
  {
    RttTotals(stats, low, high);
    RttCounts(stats);
    if RttCount(stats) > 0 {
      QuotientBetween(TotalRtt(stats), RttCount(stats), low, high);
    }
  }

  lemma QuotientBetween(total: int, n: nat, low: int, high: int)
    requires n > 0 && total >= 0 && n * low <= total <= n * high
    ensures low <= TruncDiv(total, n) <= high
  {
    var q, r := total / n, total % n;
    assert total == q * n + r;
    MultipleAtLeast(low - q, n);
    MultipleAtLeast(q - high, n);
    assert (low - q) * n == n * low - q * n && (q - high) * n == q * n - n * high;
  }

  /** The same measurements, with no positive round-trip time less than before. */
  predicate Slower(stats: seq<NetworkStats>, later: seq<NetworkStats>) {
    && |later| == |stats|
    && forall i :: 0 <= i < |stats| ==>
         later[i] == stats[i].(rtt := later[i].rtt) &&
         if stats[i].rtt > 0 then later[i].rtt >= stats[i].rtt else later[i].rtt == stats[i].rtt
  }

  lemma {:induction false} SlowerTotals(stats: seq<NetworkStats>, later: seq<NetworkStats>)
    requires Slower(stats, later)
    ensures RttCount(later) == RttCount(stats) && 0 <= TotalRtt(stats) <= TotalRtt(later)
  {
    if stats != [] {
      SlowerTotals(stats[..|stats| - 1], later[..|later| - 1]);
    }
  }

  lemma SlowerAverage(stats: seq<NetworkStats>, later: seq<NetworkStats>)
    requires Slower(stats, later)
    ensures AverageRtt(stats) <= AverageRtt(later)
  {
    SlowerTotals(stats, later);
    if RttCount(stats) > 0 {
      QuotientRises(TotalRtt(stats), TotalRtt(later), RttCount(stats));
    }
  }

  lemma QuotientRises(t: int, u: int, n: nat)
    requires n > 0 && 0 <= t <= u
    ensures TruncDiv(t, n) <= TruncDiv(u, n)
  {
    var q := t / n;
    assert t == q * n + t % n;
    assert n * q == q * n;
    LeastQuotient(u, n, q);
  }

  lemma LeastQuotient(total: int, n: nat, low: int)
    requires n > 0 && total >= 0 && n * low <= total
    ensures low <= TruncDiv(total, n)
  {
    var q, r := total / n, total % n;
    assert total == q * n + r;
    MultipleAtLeast(low - q, n);
    assert (low - q) * n == n * low - q * n;
  }

  lemma LessTime(a: int, b: int)
    requires a <= b
    ensures Milliseconds(a) <= Milliseconds(b)
    ensures a > 0 ==> Milliseconds(a) * 1_000_000 <= a < (Milliseconds(a) + 1) * 1_000_000
  {}

  /** More delay, loss or jitter never raises a score, and scores are between 0 and 1. */
  lemma ScoresFall(rtt: int, rtt': int, loss: real, loss': real, jitter: int, jitter': int)
    requires rtt <= rtt' && 0.0 <= loss <= loss' && jitter <= jitter'
    ensures 0.0 <= RttScore(rtt') <= RttScore(rtt) <= 1.0
    ensures 0.0 <= LossScore(loss') <= LossScore(loss) <= 1.0
    ensures 0.0 <= JitterScore(jitter') <= JitterScore(jitter) <= 1.0
  {
    LessTime(rtt, rtt');
    LessTime(jitter, jitter');
  }

  /** Each score falls in proportion: to 0 at a second of delay, a tenth lost, a tenth of a second of jitter. */
  lemma ScoresAre(rtt: int, lossRate: real, jitter: int)
    ensures 0 <= rtt <= 1_000_000_000 ==> 1000.0 * RttScore(rtt) == 1000.0 - Milliseconds(rtt) as real
    ensures rtt >= 1_000_000_000 ==> RttScore(rtt) == 0.0
    ensures 0.0 <= lossRate <= 0.1 ==> LossScore(lossRate) + 10.0 * lossRate == 1.0
    ensures lossRate >= 0.1 ==> LossScore(lossRate) == 0.0
    ensures 0 <= jitter <= 100_000_000 ==> 100.0 * JitterScore(jitter) == 100.0 - Milliseconds(jitter) as real
    ensures jitter >= 100_000_000 ==> JitterScore(jitter) == 0.0
  {}

  lemma Products(a: real, b: real, c: real, a': real, b': real, c': real)
    requires 0.0 <= a' <= a && 0.0 <= b' <= b && 0.0 <= c' <= c
    ensures 0.0 <= a' * b' * c' <= a * b * c
  {
    assert a' * b' <= a * b' && a * b' <= a * b && 0.0 <= a' * b';
    Times(a' * b', a * b, c', c);
  }

  lemma Times(x: real, y: real, c': real, c: real)
    requires 0.0 <= x <= y && 0.0 <= c' <= c
    ensures 0.0 <= x * c' <= y * c
  {
    assert x * c' <= y * c' && y * c' <= y * c;
  }

  lemma ProductsFall(r: int, r': int, loss: real, loss': real, j: int, j': int)
    requires r <= r' && 0.0 <= loss <= loss' && j <= j'
    ensures 0.0 <= Score(r', loss', j') <= Score(r, loss, j) <= 1.0
  {
    ScoresFall(r, r', loss, loss', j, j');
    Products(RttScore(r), LossScore(loss), JitterScore(j), RttScore(r'), LossScore(loss'), JitterScore(j'));
    Products(1.0, 1.0, 1.0, RttScore(r), LossScore(loss), JitterScore(j));
  }

  /** The last five of `later` are slower and their last jitter is no less. */
  predicate Worse(h: seq<NetworkStats>, g: seq<NetworkStats>) {
    && |h| == |g| == 5 && h[4].jitter <= g[4].jitter
    && Slower(h, g[4 := g[4].(jitter := h[4].jitter)])
  }

  lemma WorseAverage(h: seq<NetworkStats>, g: seq<NetworkStats>)
    requires Worse(h, g)
    ensures AverageRtt(h) <= AverageRtt(g)
  {
    var g' := g[4 := g[4].(jitter := h[4].jitter)];
    SlowerAverage(h, g');
    SameRtt(g, g');
  }

  /** Raising round-trip times, the loss rate or the last jitter never raises the quality. */
  lemma WorseNeverHelps(history: seq<NetworkStats>, later: seq<NetworkStats>, loss: real, loss': real)
    requires |history| >= 5 && |later| >= 5 && 0.0 <= loss <= loss'
    requires Worse(history[|history| - 5..], later[|later| - 5..])
    ensures 0.0 <= Quality(later, loss') <= Quality(history, loss) <= 1.0
  {
    var h, g := history[|history| - 5..], later[|later| - 5..];
    WorseAverage(h, g);
    ProductsFall(AverageRtt(h), AverageRtt(g), loss, loss', h[4].jitter, g[4].jitter);
  }

  lemma {:induction false} SameRtt(a: seq<NetworkStats>, b: seq<NetworkStats>)
    requires |a| == |b| && forall i :: 0 <= i < |a| ==> a[i].rtt == b[i].rtt
    ensures TotalRtt(a) == TotalRtt(b) && RttCount(a) == RttCount(b)
  {
    if a != [] {
      SameRtt(a[..|a| - 1], b[..|b| - 1]);
    }
  }

  // ------------------------------------------------------------------ what the measurements do to the target

  const DEFAULT: Config := Config(true, 0.05, 5_000_000_000, true, 500, 5000, 200, 0.8)

  /** The last five samples have no loss and no jitter to speak of. */
  predicate Clean(history: seq<NetworkStats>) {
    |history| >= 5 && LossRate(history) == 0.0 && history[|history| - 1].jitter <= 0
  }

  /** With the default settings round-trip times under 200 ms raise the target, as long as there is room. */
  lemma ShortTimesRaise(c: Control, history: seq<NetworkStats>, now: int)
    requires Clean(history)
    requires forall i :: |history| - 5 <= i < |history| ==> history[i].rtt < 200_000_000
    ensures Quality(history, 0.0) > 0.8
    ensures Tick(DEFAULT, c, history, now).target == if c.target + 200 <= 5000 then c.target + 200 else c.target
  {
    CleanQuality(history);
    var recent := history[|history| - 5..];
    AverageRttWithin(recent, 1, 199_999_999);
    LessTime(AverageRtt(recent), 199_999_999);
  }

  /** Times of a second or more make the quality 0 and lower the target. */
  lemma LongTimesLower(c: Control, history: seq<NetworkStats>, now: int)
    requires Clean(history)
    requires forall i :: |history| - 5 <= i < |history| ==> history[i].rtt >= 1_000_000_000
    ensures Quality(history, 0.0) == 0.0
    ensures Tick(DEFAULT, c, history, now).target == if c.target - 200 >= 500 then c.target - 200 else c.target
  {
    CleanQuality(history);
    var recent := history[|history| - 5..];
    assert recent[0].rtt > 0;
    AverageRttWithin(recent, 1_000_000_000, MaxRtt(recent));
    LessTime(1_000_000_000, AverageRtt(recent));
  }

  function MaxRtt(stats: seq<NetworkStats>): (m: int)
    ensures forall i :: 0 <= i < |stats| ==> stats[i].rtt <= m
  {
    if stats == [] then 0
    else
      var m, x := MaxRtt(stats[..|stats| - 1]), stats[|stats| - 1].rtt;
      if x > m then x else m
  }

  lemma CleanQuality(history: seq<NetworkStats>)
    requires Clean(history)
    ensures Quality(history, 0.0) == RttScore(AverageRtt(history[|history| - 5..]))
  {
    assert LossScore(0.0) == 1.0;
    assert history[|history| - 5..][4] == history[|history| - 1];
  }

  /** The bitrate comes nearer to the target by half a step, and never goes past it. */
  lemma ApproachNears(cfg: Config, current: int, target: int)
    requires cfg.stepSize >= 0
    ensures var a, half := Approach(cfg, current, target), cfg.stepSize / 2;
            && (current <= target ==> current <= a <= target && (a == target || a == current + half))
            && (current >= target ==> target <= a <= current && (a == target || a == current - half))
            && (current - half <= target <= current + half ==> a == target)
  {}

  // ------------------------------------------------------------------ whole runs

  /** What the controller sees at one tick. */
  datatype Input = Input(history: seq<NetworkStats>, now: int)

  function Run(cfg: Config, c: Control, inputs: seq<Input>): Control {
    if inputs == [] then c
    else
      var last := inputs[|inputs| - 1];
      Tick(cfg, Run(cfg, c, inputs[..|inputs| - 1]), last.history, last.now)
  }

  predicate Sensible(cfg: Config) {
    0 <= cfg.minBitrate <= cfg.maxBitrate && cfg.stepSize >= 0
  }

  predicate InRange(cfg: Config, c: Control) {
    && cfg.minBitrate <= c.current <= cfg.maxBitrate
    && cfg.minBitrate <= c.target <= cfg.maxBitrate
  }

  lemma TickInRange(cfg: Config, c: Control, history: seq<NetworkStats>, now: int)
    requires Sensible(cfg) && InRange(cfg, c)
    ensures InRange(cfg, Tick(cfg, c, history, now))
  {
  }

  /** In every run current and target bitrate stay within the configured bounds. */
  lemma {:induction false} BitratesStayInRange(cfg: Config, inputs: seq<Input>)
    requires Sensible(cfg)
    ensures InRange(cfg, Run(cfg, Start(cfg), inputs))
  {
    if inputs != [] {
      BitratesStayInRange(cfg, inputs[..|inputs| - 1]);
      var last := inputs[|inputs| - 1];
      TickInRange(cfg, Run(cfg, Start(cfg), inputs[..|inputs| - 1]), last.history, last.now);
    }
  }

  /**
   One tick in every state: the machine only moves on around its cycle; the cut is made exactly
   on entering Detected; in Detected the bitrate is frozen; and a tick that starts in Recovering
   lowers it only if the same tick reaches Normal and then finds the quality poor.
   */
  lemma TickCycle(cfg: Config, c: Control, history: seq<NetworkStats>, now: int)
    requires Sensible(cfg) && InRange(cfg, c)
    ensures var d := Tick(cfg, c, history, now);
            && (c.state == Normal ==> d.state != Recovering)
            && (c.state == Detected ==> d.state != Normal && d.current == c.current)
            && (c.state == Recovering ==> d.state != Detected)
            && (c.state == Normal && d.state == Detected ==>
                  d.current == CutBitrate(cfg, c.current) && d.lastCongestion == now)
            && (d.lastCongestion != c.lastCongestion ==> c.state == Normal && d.state == Detected)
            && (c.state == Recovering && d.current < c.current ==>
                  d.state == Normal && |history| >= 5 && Quality(history, d.lossRate) < cfg.qualityThreshold * 0.7)
  {
  }

  /** The quality at which a tick takes one step off the target. */
  predicate Poor(cfg: Config, quality: real) {
    quality <= cfg.qualityThreshold && quality < cfg.qualityThreshold * 0.7
  }

  /**
   When a tick that starts in Recovering lowers the bitrate: its first half reaches the target and
   Normal, its second half finds the quality poor, and half a step below the old target is less
   than the bitrate was.
   */
  predicate FallsFromRecovering(cfg: Config, c: Control, history: seq<NetworkStats>) {
    && cfg.congestionControlEnabled && cfg.adaptiveBitrateEnabled
    && |history| >= 5 && LossRate(history) <= cfg.congestionThreshold
    && c.current < c.target <= c.current + cfg.stepSize
    && Poor(cfg, Quality(history, LossRate(history)))
    && c.target - cfg.stepSize >= cfg.minBitrate
    && c.target - TruncDiv(cfg.stepSize, 2) < c.current
  }

  /** The bitrate does fall in a tick from Recovering, exactly under that condition. */
  lemma RecoveringFallsIff(cfg: Config, c: Control, history: seq<NetworkStats>, now: int)
    requires Sensible(cfg) && InRange(cfg, c) && c.state == Recovering
    ensures Tick(cfg, c, history, now).current < c.current <==> FallsFromRecovering(cfg, c, history)
  {
    var a := AfterCongestion(cfg, c, history, now);
    if cfg.adaptiveBitrateEnabled && |history| >= 5 {
      var q := Quality(history, a.lossRate);
      var target := NewTarget(cfg, a.target, q);
      assert a.state == Normal ==> a.current == a.target == c.target > c.current;
      assert Tick(cfg, c, history, now).current == if a.state == Normal then Approach(cfg, a.current, target) else a.current;
      assert target < a.target ==> Poor(cfg, q) && target == a.target - cfg.stepSize >= cfg.minBitrate;
    }
  }

  /** A tick that stays in Recovering never lowers the bitrate. */
  lemma StayingNeverFalls(cfg: Config, c: Control, history: seq<NetworkStats>, now: int)
    requires Sensible(cfg) && InRange(cfg, c) && c.state == Recovering
    ensures var d := Tick(cfg, c, history, now);
            d.state == Recovering ==> d.current >= c.current
  {
    RecoveringFallsIff(cfg, c, history, now);
    assert FallsFromRecovering(cfg, c, history) ==> AfterCongestion(cfg, c, history, now).state == Normal;
  }

  /** Loss at or under the threshold, and no evidence of poor quality. */
  predicate Calm(cfg: Config, x: Input) {
    && |x.history| >= 2 && LossRate(x.history) <= cfg.congestionThreshold
    && (|x.history| >= 5 ==> Quality(x.history, LossRate(x.history)) >= cfg.qualityThreshold * 0.7)
  }

  ghost predicate AllCalm(cfg: Config, inputs: seq<Input>) {
    forall i :: 0 <= i < |inputs| ==> Calm(cfg, inputs[i])
  }

  /** The least number of steps that covers `distance`. */
  function StepsFor(distance: int, step: int): int
    requires step > 0
  {
    (distance + step - 1) / step
  }

  lemma OneStepLess(distance: int, step: nat)
    requires step > 0
    ensures StepsFor(distance - step, step) == StepsFor(distance, step) - 1
    ensures distance > 0 ==> StepsFor(distance, step) >= 1
  {
    var d := distance - 1;
    var q, r := d / step, d % step;
    assert (q + 1) * step == q * step + step;
    DivUnique(distance + step - 1, step, q + 1, r);
  }

  function RunFrom(cfg: Config, c: Control, inputs: seq<Input>): Control
    decreases |inputs|
  {
    if inputs == [] then c
    else RunFrom(cfg, Tick(cfg, c, inputs[0].history, inputs[0].now), inputs[1..])
  }

  lemma {:induction false} RunFromIsRun(cfg: Config, c: Control, inputs: seq<Input>)
    ensures RunFrom(cfg, c, inputs) == Run(cfg, c, inputs)
    decreases |inputs|
  {
    if |inputs| == 1 {
      assert inputs[1..] == [] && inputs[..0] == [];
    } else if |inputs| > 1 {
      var n := |inputs| - 1;
      var d := Tick(cfg, c, inputs[0].history, inputs[0].now);
      RunFromIsRun(cfg, d, inputs[1..]);
      RunFromIsRun(cfg, c, inputs[..n]);
      RunFromIsRun(cfg, d, inputs[1..n]);
      assert inputs[..n][1..] == inputs[1..n] && inputs[1..][..n - 1] == inputs[1..n];
    }
  }

  predicate Climbing(c: Control) {
    c.state == Recovering && c.current < c.target
  }

  lemma CalmTick(cfg: Config, c: Control, x: Input)
    requires Sensible(cfg) && cfg.congestionControlEnabled && InRange(cfg, c) && Calm(cfg, x)
    ensures var d := Tick(cfg, c, x.history, x.now);
            && (c.state == Normal ==> d.state == Normal)
            && (Climbing(c) ==> d.state == Normal || (Climbing(d) && d.current == c.current + cfg.stepSize))
  {
  }

  lemma {:induction false} RecoveryFrom(cfg: Config, c: Control, inputs: seq<Input>)
    requires Sensible(cfg) && cfg.stepSize > 0 && cfg.congestionControlEnabled && InRange(cfg, c)
    requires c.state == Normal || (Climbing(c) && |inputs| >= StepsFor(cfg.maxBitrate - c.current, cfg.stepSize))
    requires AllCalm(cfg, inputs)
    ensures RunFrom(cfg, c, inputs).state == Normal
    decreases |inputs|
  {
    OneStepLess(cfg.maxBitrate - c.current, cfg.stepSize);
    if inputs != [] {
      var d := Tick(cfg, c, inputs[0].history, inputs[0].now);
      TickInRange(cfg, c, inputs[0].history, inputs[0].now);
      CalmTick(cfg, c, inputs[0]);
      assert AllCalm(cfg, inputs[1..]);
      RecoveryFrom(cfg, d, inputs[1..]);
    }
  }

  /**
   Recovery is bounded although the target may rise on every tick: from Recovering with the
   bitrate below the target, any calm run of ceil((max - current) / step) ticks or more ends in
   Normal.
   */
  lemma RecoveryIsBounded(cfg: Config, c: Control, inputs: seq<Input>)
    requires Sensible(cfg) && cfg.stepSize > 0 && cfg.congestionControlEnabled && InRange(cfg, c)
    requires Climbing(c) && AllCalm(cfg, inputs)
    requires |inputs| >= StepsFor(cfg.maxBitrate - c.current, cfg.stepSize)
    ensures Run(cfg, c, inputs).state == Normal
  {
    RecoveryFrom(cfg, c, inputs);
    RunFromIsRun(cfg, c, inputs);
  }

  /** Calm, and the quality not good enough to raise the target either. */
  predicate Steady(cfg: Config, x: Input) {
    && Calm(cfg, x)
    && (|x.history| >= 5 ==> Quality(x.history, LossRate(x.history)) <= cfg.qualityThreshold)
  }

  ghost predicate AllSteady(cfg: Config, inputs: seq<Input>) {
    forall i :: 0 <= i < |inputs| ==> Steady(cfg, inputs[i])
  }

  lemma {:induction false} StuckRun(cfg: Config, c: Control, inputs: seq<Input>)
    requires cfg.congestionControlEnabled && c.state == Recovering && c.current >= c.target
    requires AllSteady(cfg, inputs)
    ensures var d := Run(cfg, c, inputs);
            d.state == Recovering && d.current == c.current && d.target == c.target
  {
    if inputs != [] {
      StuckRun(cfg, c, inputs[..|inputs| - 1]);
      assert Steady(cfg, inputs[|inputs| - 1]);
    }
  }

  /**
   Without `current < target` recovery is not guaranteed, because that guard has no else branch:
   while the quality stays between the two thresholds, the machine leaves Recovering exactly
   when the bitrate was below the target on entry.
   */
  lemma SteadyRecoveryIff(cfg: Config, c: Control, inputs: seq<Input>)
    requires Sensible(cfg) && cfg.stepSize > 0 && cfg.congestionControlEnabled && InRange(cfg, c)
    requires c.state == Recovering && AllSteady(cfg, inputs)
    requires |inputs| >= 1 && |inputs| >= StepsFor(cfg.maxBitrate - c.current, cfg.stepSize)
    ensures Run(cfg, c, inputs).state == Normal <==> c.current < c.target
  {
    if c.current < c.target {
      forall i | 0 <= i < |inputs| ensures Calm(cfg, inputs[i]) { assert Steady(cfg, inputs[i]); }
      RecoveryIsBounded(cfg, c, inputs);
    } else {
      StuckRun(cfg, c, inputs);
    }
  }

  // ------------------------------------------------------------------ recovery in any calm run

  /** The target does not depend on the state of the machine. */
  function TargetTick(cfg: Config, target: int, x: Input): int {
    if cfg.adaptiveBitrateEnabled && |x.history| >= 5 then NewTarget(cfg, target, Quality(x.history, LossRate(x.history)))
    else target
  }

  function TargetAfter(cfg: Config, target: int, inputs: seq<Input>): int {
    if inputs == [] then target
    else TargetTick(cfg, TargetAfter(cfg, target, inputs[..|inputs| - 1]), inputs[|inputs| - 1])
  }

  /** A calm tick from Recovering: the target only rises, and the bitrate waits until it is below the target. */
  lemma CalmRecoveringTick(cfg: Config, c: Control, x: Input)
    requires Sensible(cfg) && cfg.congestionControlEnabled && Calm(cfg, x) && c.state == Recovering
    ensures c.target <= TargetTick(cfg, c.target, x)
    ensures c.current >= c.target ==>
              var d := Tick(cfg, c, x.history, x.now);
              d.state == Recovering && d.current == c.current && d.target == TargetTick(cfg, c.target, x)
  {}

  lemma CalmTargetRises(cfg: Config, target: int, x: Input)
    requires Sensible(cfg) && Calm(cfg, x)
    ensures target <= TargetTick(cfg, target, x)
  {}

  /** While the target has not passed the bitrate the machine waits in Recovering. */
  lemma {:induction false} Waits(cfg: Config, c: Control, inputs: seq<Input>)
    requires Sensible(cfg) && cfg.congestionControlEnabled && c.state == Recovering && AllCalm(cfg, inputs)
    requires c.current >= TargetAfter(cfg, c.target, inputs)
    ensures var d := Run(cfg, c, inputs);
            d.state == Recovering && d.current == c.current && d.target == TargetAfter(cfg, c.target, inputs)
  {
    if inputs != [] {
      var front, x := inputs[..|inputs| - 1], inputs[|inputs| - 1];
      assert Calm(cfg, x);
      CalmTargetRises(cfg, TargetAfter(cfg, c.target, front), x);
      Waits(cfg, c, front);
      CalmRecoveringTick(cfg, Run(cfg, c, front), x);
    }
  }

  /** In any calm run from Recovering the machine is back in Normal, or climbs, or still waits. */
  lemma {:induction false} CalmStates(cfg: Config, c: Control, inputs: seq<Input>)
    requires Sensible(cfg) && cfg.congestionControlEnabled && InRange(cfg, c) && c.state == Recovering
    requires AllCalm(cfg, inputs)
    ensures var d := Run(cfg, c, inputs);
            && InRange(cfg, d)
            && (d.state == Normal || (Climbing(d) && d.current >= c.current) ||
                (d.state == Recovering && d.current == c.current >= d.target == TargetAfter(cfg, c.target, inputs)))
  {
    if inputs != [] {
      var front, x := inputs[..|inputs| - 1], inputs[|inputs| - 1];
      var d := Run(cfg, c, front);
      assert Calm(cfg, x);
      CalmStates(cfg, c, front);
      TickInRange(cfg, d, x.history, x.now);
      CalmTick(cfg, d, x);
      if d.state == Recovering && d.current >= d.target {
        CalmRecoveringTick(cfg, d, x);
      }
    }
  }

  lemma FewerSteps(near: int, far: int, step: int)
    requires step > 0 && near <= far
    ensures StepsFor(near, step) <= StepsFor(far, step)
  {
    var q, p := StepsFor(near, step), StepsFor(far, step);
    var r, t := (near + step - 1) % step, (far + step - 1) % step;
    assert q * step + r == near + step - 1 && p * step + t == far + step - 1;
    MultipleAtLeast(q - p, step);
    assert (q - p) * step == q * step - p * step;
  }

  /**
   For every calm run from Recovering, once the target has settled for as many ticks as the climb
   can take: the machine is back in Normal exactly if the settled target is above the bitrate on entry.
   */
  lemma CalmRecoveryIff(cfg: Config, c: Control, a: seq<Input>, b: seq<Input>)
    requires Sensible(cfg) && cfg.stepSize > 0 && cfg.congestionControlEnabled && InRange(cfg, c)
    requires c.state == Recovering && AllCalm(cfg, a) && AllCalm(cfg, b)
    requires |b| >= StepsFor(cfg.maxBitrate - c.current, cfg.stepSize)
    requires TargetAfter(cfg, c.target, a + b) == TargetAfter(cfg, c.target, a)
    ensures Run(cfg, c, a + b).state == Normal <==> c.current < TargetAfter(cfg, c.target, a)
  {
    if c.current < TargetAfter(cfg, c.target, a) {
      Recovers(cfg, c, a, b);
    } else {
      BothCalm(cfg, a, b);
      Waits(cfg, c, a + b);
    }
  }

  lemma BothCalm(cfg: Config, a: seq<Input>, b: seq<Input>)
    requires AllCalm(cfg, a) && AllCalm(cfg, b)
    ensures AllCalm(cfg, a + b)
  {
    forall i | 0 <= i < |a + b| ensures Calm(cfg, (a + b)[i]) {
      assert (a + b)[i] == if i < |a| then a[i] else b[i - |a|];
    }
  }

  lemma Recovers(cfg: Config, c: Control, a: seq<Input>, b: seq<Input>)
    requires Sensible(cfg) && cfg.stepSize > 0 && cfg.congestionControlEnabled && InRange(cfg, c)
    requires c.state == Recovering && AllCalm(cfg, a) && AllCalm(cfg, b)
    requires |b| >= StepsFor(cfg.maxBitrate - c.current, cfg.stepSize)
    requires c.current < TargetAfter(cfg, c.target, a)
    ensures Run(cfg, c, a + b).state == Normal
  {
    RecoversThen(cfg, c, a, b, Run(cfg, c, a));
    RunAppend(cfg, c, a, b);
  }

  lemma RecoversThen(cfg: Config, c: Control, a: seq<Input>, b: seq<Input>, d: Control)
    requires Sensible(cfg) && cfg.stepSize > 0 && cfg.congestionControlEnabled && InRange(cfg, c)
    requires c.state == Recovering && AllCalm(cfg, a) && AllCalm(cfg, b) && d == Run(cfg, c, a)
    requires |b| >= StepsFor(cfg.maxBitrate - c.current, cfg.stepSize)
    requires c.current < TargetAfter(cfg, c.target, a)
    ensures Run(cfg, d, b).state == Normal
  {
    ClimbsOrDone(cfg, c, a);
    RecoversWithin(cfg, d, b, c.current);
  }

  lemma ClimbsOrDone(cfg: Config, c: Control, a: seq<Input>)
    requires Sensible(cfg) && cfg.congestionControlEnabled && InRange(cfg, c)
    requires c.state == Recovering && AllCalm(cfg, a) && c.current < TargetAfter(cfg, c.target, a)
    ensures var d := Run(cfg, c, a);
            InRange(cfg, d) && (d.state == Normal || (Climbing(d) && c.current <= d.current))
  {
    CalmStates(cfg, c, a);
  }

  lemma RecoversWithin(cfg: Config, d: Control, b: seq<Input>, low: int)
    requires Sensible(cfg) && cfg.stepSize > 0 && cfg.congestionControlEnabled && InRange(cfg, d)
    requires d.state == Normal || (Climbing(d) && low <= d.current)
    requires AllCalm(cfg, b) && |b| >= StepsFor(cfg.maxBitrate - low, cfg.stepSize)
    ensures Run(cfg, d, b).state == Normal
  {
    if Climbing(d) {
      FewerSteps(cfg.maxBitrate - d.current, cfg.maxBitrate - low, cfg.stepSize);
    }
    RecoveryFrom(cfg, d, b);
    RunFromIsRun(cfg, d, b);
  }

  // ------------------------------------------------------------------ runs over one growing history

  /** A sample as it is received, and the clock of the tick that follows it. */
  datatype Received = Received(stats: NetworkStats, now: int)

  /** What the controller sees at each tick: the history of all samples so far, cut to its limit. */
  function InputsOf(samples: seq<Received>): seq<Input> {
    if samples == [] then []
    else
      var last := samples[|samples| - 1];
      InputsOf(samples[..|samples| - 1]) + [Input(HistoryOf(samples), last.now)]
  }

  function HistoryOf(samples: seq<Received>): seq<NetworkStats> {
    if samples == [] then []
    else Appended(HistoryOf(samples[..|samples| - 1]), samples[|samples| - 1].stats)
  }

  predicate Follows(x: Received, y: Received) {
    x.stats.packetsSent <= y.stats.packetsSent && x.stats.packetsLost <= y.stats.packetsLost && x.now <= y.now
  }

  /** Packet counters and the clock never run backwards. */
  predicate Receivable(samples: seq<Received>) {
    forall i :: 0 < i < |samples| ==> Follows(samples[i - 1], samples[i])
  }

  /** The control after these samples with a tick after each. */
  function RunReceived(cfg: Config, samples: seq<Received>): Control {
    Run(cfg, Start(cfg), InputsOf(samples))
  }

  lemma ReceiveOne(cfg: Config, samples: seq<Received>, x: Received)
    ensures HistoryOf(samples + [x]) == Appended(HistoryOf(samples), x.stats)
    ensures InputsOf(samples + [x]) == InputsOf(samples) + [Input(HistoryOf(samples + [x]), x.now)]
    ensures RunReceived(cfg, samples + [x]) == Tick(cfg, RunReceived(cfg, samples), HistoryOf(samples + [x]), x.now)
  {
    assert (samples + [x])[..|samples|] == samples;
    var inputs := InputsOf(samples + [x]);
    assert inputs[..|inputs| - 1] == InputsOf(samples);
  }

  /** The history is what was received last, at most a hundred samples. */
  lemma {:induction false} HistoryIsLast(samples: seq<Received>)
    ensures |HistoryOf(samples)| == if |samples| < 100 then |samples| else 100
    ensures forall i :: 0 <= i < |HistoryOf(samples)| ==>
              HistoryOf(samples)[i] == samples[|samples| - |HistoryOf(samples)| + i].stats
  {
    if samples != [] {
      HistoryIsLast(samples[..|samples| - 1]);
    }
  }

  // ------------------------------------------------------------------ a run that gets stuck

  /** No round-trip times were measured. */
  predicate Silent(history: seq<NetworkStats>) {
    forall i :: 0 <= i < |history| ==> history[i].rtt == 0
  }

  lemma {:induction false} NoRtt(stats: seq<NetworkStats>)
    requires forall i :: 0 <= i < |stats| ==> stats[i].rtt <= 0
    ensures RttCount(stats) == 0
  {
    if stats != [] {
      NoRtt(stats[..|stats| - 1]);
    }
  }

  /** Without round-trip times the quality is a matter of loss and of the last jitter. */
  lemma SilentQuality(history: seq<NetworkStats>, lossRate: real)
    requires |history| >= 5 && Silent(history)
    ensures Quality(history, lossRate) == LossScore(lossRate) * JitterScore(history[|history| - 1].jitter)
  {
    var recent := history[|history| - 5..];
    NoRtt(recent);
    assert recent[4] == history[|history| - 1];
  }

  lemma Scores()
    ensures LossScore(0.0) == 1.0 && LossScore(0.1) == 0.0
    ensures JitterScore(60_000_000) == 0.4 && JitterScore(30_000_000) == 0.7
  {}

  /** Five samples or more, no round-trip times, and this much loss and jitter at the end. */
  predicate Shows(history: seq<NetworkStats>, lossRate: real, jitter: int) {
    && |history| >= 5 && Silent(history)
    && LossRate(history) == lossRate && history[|history| - 1].jitter == jitter
  }

  lemma PoorTick(c: Control, history: seq<NetworkStats>, now: int)
    requires c.state == Normal && c.target <= c.current && 700 <= c.target
    requires Shows(history, 0.0, 60_000_000)
    ensures Tick(DEFAULT, c, history, now) ==
            c.(target := c.target - 200, current := AtLeast(c.current - 100, c.target - 200), lossRate := 0.0)
  {
    SilentQuality(history, 0.0);
    Scores();
  }

  lemma LossyTick(c: Control, history: seq<NetworkStats>, now: int)
    requires c.state == Normal && 700 <= c.target
    requires |history| >= 5 && Silent(history) && LossRate(history) == 0.1
    ensures Tick(DEFAULT, c, history, now) == Control(Detected, now, CutBitrate(DEFAULT, c.current), c.target - 200, 0.1)
  {
    SilentQuality(history, 0.1);
    Scores();
  }

  lemma CalmAgainTick(c: Control, history: seq<NetworkStats>, now: int)
    requires c.state == Detected && now - c.lastCongestion > 5_000_000_000
    requires Shows(history, 0.0, 30_000_000)
    ensures Tick(DEFAULT, c, history, now) == c.(state := Recovering, lossRate := 0.0)
  {
    SilentQuality(history, 0.0);
    Scores();
  }

  lemma PoorInDetectedTick(c: Control, history: seq<NetworkStats>, now: int)
    requires c.state == Detected && now - c.lastCongestion <= 5_000_000_000 && 700 <= c.target
    requires Shows(history, 0.0, 60_000_000)
    ensures Tick(DEFAULT, c, history, now) == c.(target := c.target - 200, lossRate := 0.0)
  {
    SilentQuality(history, 0.0);
    Scores();
  }

  lemma StuckTick(c: Control, history: seq<NetworkStats>, now: int)
    requires c == Control(Recovering, c.lastCongestion, 1800, 1550, 0.0) && Shows(history, 0.0, 30_000_000)
    ensures Tick(DEFAULT, c, history, now) == c
  {
    SilentQuality(history, 0.0);
    Scores();
  }

  /** Too few samples to judge the quality, and no loss: nothing changes. */
  lemma QuietTick(c: Control, history: seq<NetworkStats>, now: int)
    requires c.state == Normal && c.lossRate == 0.0 && |history| < 5
    requires |history| >= 2 ==> LossRate(history) == 0.0
    ensures Tick(DEFAULT, c, history, now) == c
  {}

  lemma CalmInDetectedTick(c: Control, history: seq<NetworkStats>, now: int)
    requires c.state == Detected && now - c.lastCongestion <= 5_000_000_000
    requires Shows(history, 0.0, 30_000_000)
    ensures Tick(DEFAULT, c, history, now) == c.(lossRate := 0.0)
  {
    SilentQuality(history, 0.0);
    Scores();
  }

  lemma FallingFromTick(c: Control, history: seq<NetworkStats>, now: int)
    requires c == Control(Recovering, c.lastCongestion, 2120, 2150, 0.0) && Shows(history, 0.0, 60_000_000)
    ensures Tick(DEFAULT, c, history, now) == Control(Normal, c.lastCongestion, 2050, 1950, 0.0)
  {
    SilentQuality(history, 0.0);
    Scores();
  }

  /** The default interval of samples and ticks, two seconds. */
  const INTERVAL: int := 2_000_000_000

  predicate OnTime(samples: seq<Received>) {
    forall i :: 0 <= i < |samples| ==> samples[i].now == (i + 1) * INTERVAL
  }

  /** These samples come on time, `last` comes last, and they lead to this history and control. */
  ghost predicate Reached(cfg: Config, samples: seq<Received>, last: Received, history: seq<NetworkStats>, c: Control) {
    && samples != [] && samples[|samples| - 1] == last && Receivable(samples) && OnTime(samples)
    && HistoryOf(samples) == history && RunReceived(cfg, samples) == c
  }

  lemma ReachNext(cfg: Config, samples: seq<Received>, last: Received, history: seq<NetworkStats>, c: Control,
                  x: Received, longer: seq<NetworkStats>, d: Control)
    requires Reached(cfg, samples, last, history, c) && Follows(last, x) && x.now == last.now + INTERVAL
    requires longer == Appended(history, x.stats) && d == Tick(cfg, c, longer, x.now)
    ensures Reached(cfg, samples + [x], x, longer, d)
  {
    ReceiveOne(cfg, samples, x);
    StillReceivable(samples, x);
  }

  lemma StillReceivable(samples: seq<Received>, x: Received)
    requires Receivable(samples) && OnTime(samples) && samples != []
    requires Follows(samples[|samples| - 1], x) && x.now == samples[|samples| - 1].now + INTERVAL
    ensures Receivable(samples + [x]) && OnTime(samples + [x])
  {}

  /** The `k`-th sample, of this jitter in milliseconds, with so many packets lost by now. */
  function At(k: nat, lost: int, jitterMs: int): Received {
    Received(NetworkStats(1000 * k, lost, 0, jitterMs * 1_000_000), k * INTERVAL)
  }

  /** The `k`-th sample, by which a tenth of the packets since the one before was lost. */
  function Lossy(k: nat): Received {
    Received(NetworkStats(1000 * k, 100, 0, 0), k * INTERVAL)
  }

  /** Five samples or more without round-trip times, with this one at the end. */
  predicate EndsIn(history: seq<NetworkStats>, x: Received) {
    |history| >= 5 && Silent(history) && history[|history| - 1] == x.stats
  }

  lemma NextHistory(history: seq<NetworkStats>, last: Received, x: Received)
    requires EndsIn(history, last) && x.stats.rtt == 0
    ensures EndsIn(Appended(history, x.stats), x)
    ensures LossRate(Appended(history, x.stats)) == LossRate([last.stats, x.stats])
  {
    var h := Appended(history, x.stats);
    assert h[|h| - 2] == last.stats;
  }

  /** One more sample that loses nothing. */
  lemma NothingLost(history: seq<NetworkStats>, last: Received, k: nat, jitterMs: int)
    requires EndsIn(history, last) && last.stats.packetsSent < 1000 * k && last.stats.packetsLost == 100
    ensures var x := At(k, 100, jitterMs);
            EndsIn(Appended(history, x.stats), x) && Shows(Appended(history, x.stats), 0.0, jitterMs * 1_000_000)
  {
    NextHistory(history, last, At(k, 100, jitterMs));
  }

  /** One sample every interval, with a jitter of 60 ms. */
  function Jitters(k: nat): seq<Received> {
    if k == 0 then [] else Jitters(k - 1) + [At(k, 0, 60)]
  }

  function JitterStats(k: nat): seq<NetworkStats> {
    seq(k, i requires 0 <= i < k => At(i + 1, 0, 60).stats)
  }

  /** Poor ticks take the target down twice as fast as the bitrate can follow. */
  function Falling(k: nat): Control {
    var j := if k < 5 then 0 else k - 4;
    Control(Normal, 0, 2750 - 100 * j, 2750 - 200 * j, 0.0)
  }

  lemma JitterHistory(k: nat)
    ensures |JitterStats(k)| == k && Silent(JitterStats(k))
    ensures k >= 2 ==> LossRate(JitterStats(k)) == 0.0
    ensures k >= 5 ==> EndsIn(JitterStats(k), At(k, 0, 60)) && Shows(JitterStats(k), 0.0, 60_000_000)
  {
    if k >= 2 {
      assert JitterStats(k)[k - 1] == At(k, 0, 60).stats && JitterStats(k)[k - 2] == At(k - 1, 0, 60).stats;
    }
  }

  lemma FallingTick(k: nat)
    requires 1 <= k <= 9
    ensures Tick(DEFAULT, Falling(k - 1), JitterStats(k), k * INTERVAL) == Falling(k)
  {
    JitterHistory(k);
    var h := JitterStats(k);
    if k >= 5 {
      PoorTick(Falling(k - 1), h, k * INTERVAL);
    } else {
      QuietTick(Falling(k - 1), h, k * INTERVAL);
    }
  }

  lemma {:induction false} JittersRun(k: nat)
    requires 1 <= k <= 9
    ensures Reached(DEFAULT, Jitters(k), At(k, 0, 60), JitterStats(k), Falling(k))
  {
    if k == 1 {
      FirstJitter();
    } else {
      JittersRun(k - 1);
      FallingTick(k);
      MoreJitter(k);
      ReachNext(DEFAULT, Jitters(k - 1), At(k - 1, 0, 60), JitterStats(k - 1), Falling(k - 1), At(k, 0, 60), JitterStats(k), Falling(k));
    }
  }

  lemma MoreJitter(k: nat)
    requires 1 <= k <= 9
    ensures JitterStats(k) == Appended(JitterStats(k - 1), At(k, 0, 60).stats)
  {}

  lemma FirstJitter()
    ensures Reached(DEFAULT, Jitters(1), At(1, 0, 60), JitterStats(1), Falling(1))
  {
    FallingTick(1);
    MoreJitter(1);
    ReceiveOne(DEFAULT, [], At(1, 0, 60));
    assert Jitters(1) == [] + [At(1, 0, 60)];
  }

  /** After `k` jittery samples a lossy one. */
  lemma LossyRun(k: nat) returns (history: seq<NetworkStats>)
    requires 5 <= k <= 9
    ensures Reached(DEFAULT, Jitters(k) + [Lossy(k + 1)], Lossy(k + 1), history,
                    Control(Detected, (k + 1) * INTERVAL, CutBitrate(DEFAULT, Falling(k).current), Falling(k).target - 200, 0.1))
    ensures EndsIn(history, Lossy(k + 1))
  {
    JittersRun(k);
    JitterHistory(k);
    history := LossyOn(Jitters(k), At(k, 0, 60), JitterStats(k), Falling(k), Lossy(k + 1));
  }

  lemma LossyOn(samples: seq<Received>, last: Received, h: seq<NetworkStats>, c: Control, x: Received)
    returns (longer: seq<NetworkStats>)
    requires Reached(DEFAULT, samples, last, h, c) && EndsIn(h, last) && c.state == Normal && 700 <= c.target
    requires Follows(last, x) && x.now == last.now + INTERVAL && x.stats.rtt == 0
    requires LossRate([last.stats, x.stats]) == 0.1
    ensures Reached(DEFAULT, samples + [x], x, longer,
                    Control(Detected, x.now, CutBitrate(DEFAULT, c.current), c.target - 200, 0.1))
    ensures EndsIn(longer, x)
  {
    NextHistory(h, last, x);
    longer := Appended(h, x.stats);
    LossyTick(c, longer, x.now);
    ReachNext(DEFAULT, samples, last, h, c, x, longer,
              Control(Detected, x.now, CutBitrate(DEFAULT, c.current), c.target - 200, 0.1));
  }

  const STUCK: Control := Control(Recovering, 10 * INTERVAL, 1800, 1550, 0.0)

  /** Nine jittery samples, a lossy one, and calm ones until the recovery time is over. */
  function Storm(): seq<Received> {
    Jitters(9) + [Lossy(10)] + [At(11, 100, 30)] + [At(12, 100, 30)] + [At(13, 100, 30)]
  }

  /** With the default settings a bitrate above the target on entry to Recovering is reachable. */
  lemma StormEndsAboveTarget() returns (history: seq<NetworkStats>)
    ensures Reached(DEFAULT, Storm(), At(13, 100, 30), history, STUCK)
    ensures EndsIn(history, At(13, 100, 30))
  {
    var h10 := LossyRun(9);
    var c10, c11 := Control(Detected, 10 * INTERVAL, 1800, 1550, 0.1), Control(Detected, 10 * INTERVAL, 1800, 1550, 0.0);
    var h11 := CalmOn(Jitters(9) + [Lossy(10)], Lossy(10), h10, c10, 11);
    var h12 := CalmOn(Jitters(9) + [Lossy(10)] + [At(11, 100, 30)], At(11, 100, 30), h11, c11, 12);
    NothingLost(h12, At(12, 100, 30), 13, 30);
    history := Appended(h12, At(13, 100, 30).stats);
    CalmAgainTick(c11, history, 13 * INTERVAL);
    ReachNext(DEFAULT, Jitters(9) + [Lossy(10)] + [At(11, 100, 30)] + [At(12, 100, 30)], At(12, 100, 30), h12, c11,
              At(13, 100, 30), history, STUCK);
  }

  /** A calm sample while the recovery time of Detected is not over. */
  lemma CalmOn(samples: seq<Received>, last: Received, h: seq<NetworkStats>, c: Control, k: nat)
    returns (longer: seq<NetworkStats>)
    requires Reached(DEFAULT, samples, last, h, c) && EndsIn(h, last) && c.state == Detected
    requires last.now == (k - 1) * INTERVAL && last.stats.packetsSent < 1000 * k && last.stats.packetsLost == 100
    requires k * INTERVAL - c.lastCongestion <= 5_000_000_000
    ensures Reached(DEFAULT, samples + [At(k, 100, 30)], At(k, 100, 30), longer, c.(lossRate := 0.0))
    ensures EndsIn(longer, At(k, 100, 30))
  {
    NothingLost(h, last, k, 30);
    longer := Appended(h, At(k, 100, 30).stats);
    CalmInDetectedTick(c, longer, k * INTERVAL);
    ReachNext(DEFAULT, samples, last, h, c, At(k, 100, 30), longer, c.(lossRate := 0.0));
  }

  lemma {:induction false} InputsAppend(a: seq<Received>, b: seq<Received>)
    ensures |InputsOf(a + b)| == |a| + |b| && |InputsOf(a)| == |a|
    ensures InputsOf(a + b)[..|a|] == InputsOf(a)
  {
    if b != [] {
      var n := |b| - 1;
      InputsAppend(a, b[..n]);
      assert (a + b)[..|a + b| - 1] == a + b[..n];
    } else {
      assert a + b == a;
      if a != [] {
        InputsAppend(a[..|a| - 1], []);
        assert a[..|a| - 1] + [] == a[..|a| - 1];
      }
    }
  }

  lemma {:induction false} RunAppend(cfg: Config, c: Control, a: seq<Input>, b: seq<Input>)
    ensures Run(cfg, c, a + b) == Run(cfg, Run(cfg, c, a), b)
  {
    if b == [] {
      assert a + b == a;
    } else {
      RunAppend(cfg, c, a, b[..|b| - 1]);
      assert (a + b)[..|a + b| - 1] == a + b[..|b| - 1];
    }
  }

  /** What the ticks see that come after the first samples `a`. */
  function InputsAfter(a: seq<Received>, b: seq<Received>): seq<Input> {
    var inputs := InputsOf(a + b);
    if |inputs| < |a| then [] else inputs[|a|..]
  }

  /** From there on the controller stays in Recovering as long as the ticks are steady. */
  lemma RecoveryCanFail(more: seq<Received>)
    requires AllSteady(DEFAULT, InputsAfter(Storm(), more))
    ensures RunReceived(DEFAULT, Storm() + more).state == Recovering
  {
    var _ := StormEndsAboveTarget();
    ReceivedAfter(DEFAULT, Storm(), more);
    StuckRun(DEFAULT, STUCK, InputsAfter(Storm(), more));
  }

  lemma ReceivedAfter(cfg: Config, a: seq<Received>, b: seq<Received>)
    ensures RunReceived(cfg, a + b) == Run(cfg, RunReceived(cfg, a), InputsAfter(a, b))
  {
    InputsAppend(a, b);
    var inputs := InputsOf(a + b);
    assert inputs == InputsOf(a) + InputsAfter(a, b);
    RunAppend(cfg, Start(cfg), InputsOf(a), InputsAfter(a, b));
  }

  /** The storm, and then calm samples up to the `k`-th. */
  function StormThenCalm(k: nat): seq<Received> {
    if k <= 13 then Storm() else StormThenCalm(k - 1) + [At(k, 100, 30)]
  }

  /** For ever, although the network has recovered: nothing is lost any more and the jitter is constant. */
  lemma {:induction false} RecoveryNeverComes(k: nat) returns (history: seq<NetworkStats>)
    requires k >= 13
    ensures Reached(DEFAULT, StormThenCalm(k), At(k, 100, 30), history, STUCK)
    ensures EndsIn(history, At(k, 100, 30))
  {
    if k == 13 {
      history := StormEndsAboveTarget();
    } else {
      var h := RecoveryNeverComes(k - 1);
      history := StuckOn(StormThenCalm(k - 1), h, k);
    }
  }

  lemma StuckOn(samples: seq<Received>, h: seq<NetworkStats>, k: nat) returns (longer: seq<NetworkStats>)
    requires k > 0 && Reached(DEFAULT, samples, At(k - 1, 100, 30), h, STUCK) && EndsIn(h, At(k - 1, 100, 30))
    ensures Reached(DEFAULT, samples + [At(k, 100, 30)], At(k, 100, 30), longer, STUCK)
    ensures EndsIn(longer, At(k, 100, 30))
  {
    NothingLost(h, At(k - 1, 100, 30), k, 30);
    longer := Appended(h, At(k, 100, 30).stats);
    StuckTick(STUCK, longer, k * INTERVAL);
    ReachNext(DEFAULT, samples, At(k - 1, 100, 30), h, STUCK, At(k, 100, 30), longer, STUCK);
  }

  // ------------------------------------------------------------------ a run that falls from Recovering

  const CLOSE: Control := Control(Recovering, 6 * INTERVAL, 2120, 2150, 0.0)

  /** Five jittery samples, a lossy one, a poor one, and calm ones until the recovery time is over. */
  function Squall(): seq<Received> {
    Jitters(5) + [Lossy(6)] + [At(7, 100, 60)] + [At(8, 100, 30)] + [At(9, 100, 30)]
  }

  lemma RecoveringCloseToTarget() returns (history: seq<NetworkStats>)
    ensures Reached(DEFAULT, Squall(), At(9, 100, 30), history, CLOSE)
    ensures EndsIn(history, At(9, 100, 30))
  {
    var h6 := LossyRun(5);
    var c6, c7 := Control(Detected, 6 * INTERVAL, 2120, 2350, 0.1), Control(Detected, 6 * INTERVAL, 2120, 2150, 0.0);
    NothingLost(h6, Lossy(6), 7, 60);
    var h7 := Appended(h6, At(7, 100, 60).stats);
    PoorInDetectedTick(c6, h7, 7 * INTERVAL);
    ReachNext(DEFAULT, Jitters(5) + [Lossy(6)], Lossy(6), h6, c6, At(7, 100, 60), h7, c7);
    var h8 := CalmOn(Jitters(5) + [Lossy(6)] + [At(7, 100, 60)], At(7, 100, 60), h7, c7, 8);
    NothingLost(h8, At(8, 100, 30), 9, 30);
    history := Appended(h8, At(9, 100, 30).stats);
    CalmAgainTick(c7, history, 9 * INTERVAL);
    ReachNext(DEFAULT, Jitters(5) + [Lossy(6)] + [At(7, 100, 60)] + [At(8, 100, 30)], At(8, 100, 30), h8, c7,
              At(9, 100, 30), history, CLOSE);
  }

  /** In a run that can be received, a tick from Recovering lowers the bitrate from 2120 to 2050. */
  lemma RecoveringCanFall()
    ensures var longer := Squall() + [At(10, 100, 60)];
            && Receivable(longer) && OnTime(longer)
            && RunReceived(DEFAULT, Squall()) == Control(Recovering, 6 * INTERVAL, 2120, 2150, 0.0)
            && RunReceived(DEFAULT, longer) == Control(Normal, 6 * INTERVAL, 2050, 1950, 0.0)
  {
    var h := RecoveringCloseToTarget();
    NothingLost(h, At(9, 100, 30), 10, 60);
    var g := Appended(h, At(10, 100, 60).stats);
    FallingFromTick(CLOSE, g, 10 * INTERVAL);
    ReachNext(DEFAULT, Squall(), At(9, 100, 30), h, CLOSE, At(10, 100, 60), g, Control(Normal, 6 * INTERVAL, 2050, 1950, 0.0));
  }
}
