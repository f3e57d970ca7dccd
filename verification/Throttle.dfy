/** Adaptive backfill pacing and its circuit breaker. */
module Throttle {
  import opened Options

  datatype Config = Config(initialBatch: int, minBatch: int, maxBatch: int,
                           initialThrottle: int, minThrottle: int, maxThrottle: int, tripBelow: real)

  const RECOVER_ABOVE := 0.3

  /** maxConns and lag as the health queries return them. */
  datatype Metrics = Metrics(activeConns: int, maxConns: int, deadTuples: int, waiting: int, maxLagMs: real) {
    predicate Sane() { 0 <= activeConns && (maxConns > 0 ==> activeConns <= maxConns) }
  }

  function HealthScore(m: Option<Metrics>): real {
    match m
    case None => 0.5
    case Some(x) =>
      var conn := if x.maxConns > 0 then 1.0 - x.activeConns as real / x.maxConns as real else 1.0;
      var lag := if x.maxLagMs > 0.0 then NonNegative(1.0 - x.maxLagMs / 1000.0) else 1.0;
      var lock := if x.waiting > 0 then NonNegative(1.0 - x.waiting as real / 10.0) else 1.0;
      var bloat := if x.deadTuples > 1000000 then 0.5 else if x.deadTuples > 100000 then 0.75 else 1.0;
      0.3 * conn + 0.3 * lag + 0.2 * lock + 0.2 * bloat
  }

  function NonNegative(x: real): real { if x < 0.0 then 0.0 else x }

  /** The documented range is 0 to 1; the score in fact never goes below 0.1. */
  lemma ScoreBounds(m: Metrics)
    requires m.Sane()
    ensures 0.1 <= HealthScore(Some(m)) <= 1.0
  {
    if m.maxConns > 0 {
      var a, b := m.activeConns as real, m.maxConns as real;
      assert 0.0 <= a / b <= 1.0 by { FractionBounds(a, b); }
    }
  }

  lemma FractionBounds(a: real, b: real)
    requires 0.0 <= a <= b && b > 0.0
    ensures 0.0 <= a / b <= 1.0
  {
    assert (a / b) * b == a;
  }

  /** A share of a limit, at most 1. */
  function Share(x: real, limit: real): real
    requires limit > 0.0
  {
    if x <= 0.0 then 0.0 else if x < limit then x / limit else 1.0
  }

  /** Whatever the other signals are, each costs in proportion up to its weight: connections 0.3,
      lag 0.3 at a second, ten waiting queries 0.2, dead tuples 0.05 and 0.1 in two steps. */
  lemma SignalCosts(m: Metrics)
    ensures m.Sane() && m.maxConns > 0 ==>
            HealthScore(Some(m.(activeConns := 0))) - HealthScore(Some(m)) ==
            0.3 * Share(m.activeConns as real, m.maxConns as real)
    ensures HealthScore(Some(m.(maxLagMs := 0.0))) - HealthScore(Some(m)) == 0.3 * Share(m.maxLagMs, 1000.0)
    ensures HealthScore(Some(m.(waiting := 0))) - HealthScore(Some(m)) == 0.2 * Share(m.waiting as real, 10.0)
    ensures HealthScore(Some(m.(deadTuples := 0))) - HealthScore(Some(m)) ==
            if m.deadTuples > 1000000 then 0.1 else if m.deadTuples > 100000 then 0.05 else 0.0
    ensures m.maxConns <= 0 ==> HealthScore(Some(m)) == HealthScore(Some(m.(activeConns := 0, maxConns := 1)))
    ensures HealthScore(Some(Metrics(0, m.maxConns, 0, 0, 0.0))) == 1.0 && HealthScore(None) == 0.5
  {
    if m.Sane() && m.maxConns > 0 { QuotientIsShare(m.activeConns as real, m.maxConns as real); }
  }

  lemma QuotientIsShare(a: real, n: real)
    requires 0.0 <= a <= n && n > 0.0
    ensures a / n == Share(a, n) && 0.0 / n == 0.0
  {
    assert n / n == 1.0;
  }

  /** More load on any signal never raises the score. */
  lemma ScoreMonotone(m: Metrics, w: Metrics)
    requires m.maxConns == w.maxConns && m.activeConns <= w.activeConns && m.deadTuples <= w.deadTuples
    requires m.waiting <= w.waiting && m.maxLagMs <= w.maxLagMs
    ensures HealthScore(Some(w)) <= HealthScore(Some(m))
  {
    if m.maxConns > 0 { QuotientMonotone(m.activeConns as real, w.activeConns as real, m.maxConns as real); }
  }

  lemma QuotientMonotone(a: real, b: real, n: real)
    requires a <= b && n > 0.0
    ensures a / n <= b / n
  {
    assert (a / n) * n == a && (b / n) * n == b;
  }

  /** Go's integer division truncates toward zero. */
  function Quo(a: int, b: int): int
    requires b > 0
  {
    if a >= 0 then a / b else -((-a) / b)
  }

  function MinOf(a: int, b: int): int { if a < b then a else b }
  function MaxOf(a: int, b: int): int { if a > b then a else b }

  datatype Control = Control(batch: int, throttle: int, tripped: bool, trips: nat, good: nat, bad: nat)

  function StartOf(c: Config): Control { Control(c.initialBatch, c.initialThrottle, false, 0, 0, 0) }

  function Paced(c: Config, k: Control, score: real): Control {
    if score > 0.8 then
      k.(batch := MinOf(Quo(k.batch * 15, 10), c.maxBatch), throttle := MaxOf(k.throttle - 5, c.minThrottle))
    else if score < 0.3 then
      k.(batch := MaxOf(Quo(k.batch * 5, 10), c.minBatch), throttle := MinOf(k.throttle + 50, c.maxThrottle))
    else if score < 0.5 then
      k.(batch := MaxOf(Quo(k.batch * 8, 10), c.minBatch), throttle := MinOf(k.throttle + 20, c.maxThrottle))
    else k
  }

  /** One health check. */
  function Adjusted(c: Config, k: Control, score: real): Control {
    if k.tripped then
      if score > RECOVER_ABOVE then
        if k.good + 1 >= 3 then
          k.(good := 0, bad := 0, tripped := false, batch := c.initialBatch, throttle := c.initialThrottle)
        else k.(good := k.good + 1, bad := 0)
      else k.(good := 0, bad := k.bad + 1)
    else if score < c.tripBelow then
      if k.bad + 1 >= 3 then k.(bad := 0, good := 0, tripped := true, trips := k.trips + 1)
      else Paced(c, k.(bad := k.bad + 1, good := 0), score)
    else Paced(c, k.(good := k.good + 1, bad := 0), score)
  }

  class AdaptiveThrottle {
    const config: Config
    var currentBatchSize: int
    var currentThrottleMs: int
    var healthScore: real
    var circuitTripped: bool
    var tripCount: nat
    var consecutiveGood: nat
    var consecutiveBad: nat
    var metricsHistory: seq<Metrics>

    constructor (config: Config)
      ensures this.config == config && State() == StartOf(config) && metricsHistory == [] && healthScore == 1.0
    {
      this.config := config;
      currentBatchSize, currentThrottleMs := config.initialBatch, config.initialThrottle;
      healthScore, circuitTripped, tripCount := 1.0, false, 0;
      consecutiveGood, consecutiveBad, metricsHistory := 0, 0, [];
    }

    function State(): Control
      reads this
    {
      Control(currentBatchSize, currentThrottleMs, circuitTripped, tripCount, consecutiveGood, consecutiveBad)
    }

    method AdjustThrottle()
      modifies this
      ensures State() == Adjusted(config, old(State()), healthScore)
      ensures healthScore == old(healthScore) && metricsHistory == old(metricsHistory)
    {
      if circuitTripped {
        if healthScore > RECOVER_ABOVE {
          consecutiveGood := consecutiveGood + 1;
          consecutiveBad := 0;
          if consecutiveGood >= 3 {
            circuitTripped := false;
            consecutiveGood := 0;
            currentBatchSize := config.initialBatch;
            currentThrottleMs := config.initialThrottle;
          }
        } else {
          consecutiveGood := 0;
          consecutiveBad := consecutiveBad + 1;
        }
        return;
      }
      if healthScore < config.tripBelow {
        consecutiveBad := consecutiveBad + 1;
        consecutiveGood := 0;
        if consecutiveBad >= 3 {
          circuitTripped := true;
          tripCount := tripCount + 1;
          consecutiveBad := 0;
          return;
        }
      } else {
        consecutiveGood := consecutiveGood + 1;
        consecutiveBad := 0;
      }
      if healthScore > 0.8 {
        currentBatchSize := MinOf(Quo(currentBatchSize * 15, 10), config.maxBatch);
        currentThrottleMs := MaxOf(currentThrottleMs - 5, config.minThrottle);
      } else if healthScore < 0.3 {
        currentBatchSize := MaxOf(Quo(currentBatchSize * 5, 10), config.minBatch);
        currentThrottleMs := MinOf(currentThrottleMs + 50, config.maxThrottle);
      } else if healthScore < 0.5 {
        currentBatchSize := MaxOf(Quo(currentBatchSize * 8, 10), config.minBatch);
        currentThrottleMs := MinOf(currentThrottleMs + 20, config.maxThrottle);
      }
    }

    /** None: the metrics could not be collected, and nothing changes. Keeps the last 100 samples. */
    method UpdateHealth(collected: Option<Metrics>)
      requires |metricsHistory| <= 100
      modifies this
      ensures collected.None? ==>
                State() == old(State()) && healthScore == old(healthScore) && metricsHistory == old(metricsHistory)
      ensures collected.Some? ==>
                && healthScore == HealthScore(collected)
                && State() == Adjusted(config, old(State()), healthScore)
                && metricsHistory == LastHundred(old(metricsHistory) + [collected.value])
      ensures |metricsHistory| <= 100
    {
      if collected.None? { return; }
      healthScore := HealthScore(collected);
      metricsHistory := metricsHistory + [collected.value];
      if |metricsHistory| > 100 {
        metricsHistory := metricsHistory[1..];
      }
      AdjustThrottle();
    }
  }

  function LastHundred(h: seq<Metrics>): seq<Metrics> {
    if |h| > 100 then h[|h| - 100..] else h
  }

  /** The controller after a sequence of checks. */
  function Run(c: Config, k: Control, scores: seq<real>): Control {
    if scores == [] then k else Adjusted(c, Run(c, k, scores[..|scores| - 1]), scores[|scores| - 1])
  }

  /* ---------- The breaker against a specification without counters ---------- */

  predicate Qualifies(c: Config, tripped: bool, score: real) {
    if tripped then score > 0.3 else score < c.tripBelow
  }

  /** mode[n] says whether the breaker is open after n checks. It changes at check n exactly
      when the last three checks all happened in the old mode and all call for a change. */
  ghost predicate Flips(c: Config, scores: seq<real>, mode: seq<bool>, n: nat)
    requires n <= |scores| && |mode| >= n
  {
    && n >= 3
    && mode[n - 3] == mode[n - 2] == mode[n - 1]
    && forall i :: n - 3 <= i < n ==> Qualifies(c, mode[n - 1], scores[i])
  }

  ghost predicate IsTrace(c: Config, scores: seq<real>, mode: seq<bool>) {
    && |mode| == |scores| + 1 && !mode[0]
    && forall n :: 1 <= n <= |scores| ==> (mode[n] != mode[n - 1] <==> Flips(c, scores, mode, n))
  }

  function Modes(c: Config, scores: seq<real>): seq<bool> {
    if scores == [] then [false]
    else Modes(c, scores[..|scores| - 1]) + [Run(c, StartOf(c), scores).tripped]
  }

  /** The trailing run of qualifying checks in the current mode, as the counters hold it. */
  ghost predicate Streak(c: Config, scores: seq<real>, mode: seq<bool>, count: nat) {
    var n := |scores|;
    && |mode| == n + 1 && count < 3 && count <= n
    && (forall i :: n - count <= i < n ==> mode[i] == mode[n] && Qualifies(c, mode[n], scores[i]))
    && (count < n ==> mode[n - count - 1] != mode[n] || !Qualifies(c, mode[n], scores[n - count - 1]))
  }

  lemma StreakStep(c: Config, front: seq<real>, s: real, m: seq<bool>, count: nat)
    requires Streak(c, front, m, count)
    ensures var flip := count == 2 && Qualifies(c, m[|front|], s);
            var m' := m + [if flip then !m[|front|] else m[|front|]];
            && (Flips(c, front + [s], m', |front| + 1) <==> flip)
            && Streak(c, front + [s], m', if !flip && Qualifies(c, m[|front|], s) then count + 1 else 0)
  {
    var n, scores := |front|, front + [s];
    var flip := count == 2 && Qualifies(c, m[n], s);
    var m' := m + [if flip then !m[n] else m[n]];
    assert forall i :: 0 <= i < n ==> scores[i] == front[i];
    if Flips(c, scores, m', n + 1) {
      assert Qualifies(c, m'[n], scores[n]);
      assert Qualifies(c, m'[n], scores[n - 1]) && Qualifies(c, m'[n], scores[n - 2]);
    }
  }

  lemma TraceExtends(c: Config, front: seq<real>, s: real, m: seq<bool>, next: bool)
    requires IsTrace(c, front, m)
    requires next != m[|front|] <==> Flips(c, front + [s], m + [next], |front| + 1)
    ensures IsTrace(c, front + [s], m + [next])
  {
    var scores, m' := front + [s], m + [next];
    forall n | 1 <= n <= |front| ensures m'[n] != m'[n - 1] <==> Flips(c, scores, m', n) {
      assert Flips(c, scores, m', n) <==> Flips(c, front, m, n) by {
        if n >= 3 { assert forall i :: n - 3 <= i < n ==> scores[i] == front[i] && m'[i] == m[i]; }
      }
    }
  }

  function Count(k: Control): nat { if k.tripped then k.good else k.bad }

  lemma CountStep(c: Config, k: Control, s: real)
    requires Count(k) < 3
    ensures var flip := Count(k) == 2 && Qualifies(c, k.tripped, s);
            var k' := Adjusted(c, k, s);
            && k'.tripped == (if flip then !k.tripped else k.tripped)
            && Count(k') == (if !flip && Qualifies(c, k.tripped, s) then Count(k) + 1 else 0)
  {
  }

  /** The counters refine the specification: for every sequence of health scores the breaker
      opens after exactly three consecutive low checks since start or last recovery, and
      closes after exactly three consecutive checks above 0.3. */
  lemma {:induction false} BreakerRefinesTrace(c: Config, scores: seq<real>)
    ensures IsTrace(c, scores, Modes(c, scores))
    ensures Modes(c, scores)[|scores|] == Run(c, StartOf(c), scores).tripped
    ensures Streak(c, scores, Modes(c, scores), Count(Run(c, StartOf(c), scores)))
  {
    if scores != [] {
      var front, s := scores[..|scores| - 1], scores[|scores| - 1];
      BreakerRefinesTrace(c, front);
      var m, k := Modes(c, front), Run(c, StartOf(c), front);
      StreakStep(c, front, s, m, Count(k));
      CountStep(c, k, s);
      TraceExtends(c, front, s, m, Adjusted(c, k, s).tripped);
      assert front + [s] == scores;
    }
  }

  /** The specification leaves no freedom: a score sequence has one trace. */
  lemma {:induction false} TraceUnique(c: Config, scores: seq<real>, m: seq<bool>, m': seq<bool>, n: nat)
    requires IsTrace(c, scores, m) && IsTrace(c, scores, m') && n <= |scores|
    ensures m[..n + 1] == m'[..n + 1]
  {
    if n > 0 {
      TraceUnique(c, scores, m, m', n - 1);
      forall i | 0 <= i < n ensures m[i] == m'[i] { assert m[..n][i] == m'[..n][i]; }
      assert Flips(c, scores, m, n) <==> Flips(c, scores, m', n);
      assert m[n - 1] == m'[n - 1];
      assert m[n] != m[n - 1] <==> Flips(c, scores, m, n);
      assert m'[n] != m'[n - 1] <==> Flips(c, scores, m', n);
    }
    assert m[..n + 1] == m'[..n + 1];
  }

  /** The checks at which the breaker opens. */
  ghost function Openings(mode: seq<bool>): set<int> { set n | 0 <= n < |mode| && OpensAt(mode, n) }

  predicate OpensAt(mode: seq<bool>, n: int) { 1 <= n < |mode| && mode[n] && !mode[n - 1] }

  lemma OpeningsLast(mode: seq<bool>, next: bool)
    requires mode != []
    ensures Openings(mode + [next]) == Openings(mode) + if next && !mode[|mode| - 1] then {|mode|} else {}
  {
    var m := mode + [next];
    forall n | 0 <= n < |mode| ensures OpensAt(m, n) == OpensAt(mode, n) {}
    assert OpensAt(m, |mode|) <==> next && !mode[|mode| - 1];
  }

  /** Trips are at least six checks apart: three to recover, three to trip again. The trip count is
      that of the openings in the trace. */
  lemma {:induction false} TripCountBound(c: Config, scores: seq<real>)
    ensures var k := Run(c, StartOf(c), scores);
            6 * k.trips + Count(k) <= |scores| + if k.tripped then 3 else 0
    ensures Run(c, StartOf(c), scores).trips <= (|scores| + 3) / 6
    ensures Run(c, StartOf(c), scores).trips == |Openings(Modes(c, scores))|
  {
    if scores != [] {
      var front := scores[..|scores| - 1];
      BreakerRefinesTrace(c, front);
      TripCountBound(c, front);
      OpeningsLast(Modes(c, front), Run(c, StartOf(c), scores).tripped);
    }
  }

  /* ---------- Pacing ---------- */

  /** While the breaker stays open pacing is frozen at its value when it opened; when it
      closes, pacing is back at its initial values. */
  lemma {:induction false} FrozenWhileOpen(c: Config, k: Control, scores: seq<real>)
    requires k.tripped && forall n :: 0 <= n < |scores| ==> Run(c, k, scores[..n]).tripped
    ensures var r := Run(c, k, scores);
            if r.tripped then r.batch == k.batch && r.throttle == k.throttle
            else r.batch == c.initialBatch && r.throttle == c.initialThrottle
  {
    if scores != [] {
      var front := scores[..|scores| - 1];
      assert forall n :: 0 <= n < |front| ==> front[..n] == scores[..n];
      FrozenWhileOpen(c, k, front);
    }
  }

  ghost predicate Inside(c: Config, k: Control) {
    c.minBatch <= k.batch <= c.maxBatch && c.minThrottle <= k.throttle <= c.maxThrottle
  }

  lemma {:induction false} PacingStaysInside(c: Config, scores: seq<real>)
    requires 1 <= c.minBatch && Inside(c, StartOf(c))
    ensures Inside(c, Run(c, StartOf(c), scores))
  {
    if scores != [] { PacingStaysInside(c, scores[..|scores| - 1]); }
  }

  /** A lower score never yields a larger batch or a shorter throttle. */
  lemma PacingMonotone(c: Config, k: Control, low: real, high: real)
    requires 1 <= c.minBatch && Inside(c, k) && low <= high
    ensures Paced(c, k, low).batch <= Paced(c, k, high).batch
    ensures Paced(c, k, low).throttle >= Paced(c, k, high).throttle
    ensures high > 0.8 && k.batch >= 2 && k.batch < c.maxBatch ==> Paced(c, k, high).batch > k.batch
    ensures low < 0.5 && k.batch > c.minBatch ==> Paced(c, k, low).batch < k.batch
  {
  }

  /** A check of the backfill's throttle, in the numbers it is configured with. */
  lemma BackfillRates(planBatch: int, planThrottle: int, k: Control, score: real)
    requires !k.tripped && k.batch >= 0 && score >= 0.0
    ensures var c := BackfillConfig(planBatch, planThrottle);
            var q := Adjusted(c, k, score);
            && StartOf(c).batch == (if planBatch <= 0 then 1000 else planBatch) && StartOf(c).throttle == planThrottle
            && !q.tripped
            && (score > 0.8 ==> q.batch == MinOf(15 * k.batch / 10, 50000) && q.throttle == MaxOf(k.throttle - 5, 0))
            && (score < 0.3 ==> q.batch == MaxOf(k.batch / 2, 100) && q.throttle == MinOf(k.throttle + 50, 5000))
            && (0.3 <= score < 0.5 ==>
                  q.batch == MaxOf(8 * k.batch / 10, 100) && q.throttle == MinOf(k.throttle + 20, 5000))
            && (0.5 <= score <= 0.8 ==> q.batch == k.batch && q.throttle == k.throttle)
  {
  }

  /** What backfill passes: the plan's batch size unclamped, and no trip threshold. */
  function BackfillConfig(planBatch: int, planThrottle: int): Config {
    Config(if planBatch <= 0 then 1000 else planBatch, 100, 50000, planThrottle, 0, 5000, 0.0)
  }

  /** Under backfill's configuration the batch stays between 1 and the larger of the plan's
      value and the maximum, and no sane metrics ever open the breaker. */
  predicate Calm(c: Config, k: Control) {
    !k.tripped && 1 <= k.batch <= MaxOf(c.initialBatch, c.maxBatch)
  }

  lemma CalmStep(planBatch: int, planThrottle: int, k: Control, m: Metrics)
    requires Calm(BackfillConfig(planBatch, planThrottle), k) && m.Sane()
    ensures var c := BackfillConfig(planBatch, planThrottle); Calm(c, Adjusted(c, k, HealthScore(Some(m))))
  {
    ScoreBounds(m);
  }

  lemma {:induction false} BackfillNeverTrips(planBatch: int, planThrottle: int, ms: seq<Metrics>)
    requires forall m :: m in ms ==> m.Sane()
    ensures var c := BackfillConfig(planBatch, planThrottle);
            Calm(c, Run(c, StartOf(c), seq(|ms|, i requires 0 <= i < |ms| => HealthScore(Some(ms[i])))))
  {
    var c := BackfillConfig(planBatch, planThrottle);
    var scores := seq(|ms|, i requires 0 <= i < |ms| => HealthScore(Some(ms[i])));
    if ms != [] {
      var front := ms[..|ms| - 1];
      BackfillNeverTrips(planBatch, planThrottle, front);
      assert scores[..|scores| - 1] == seq(|front|, i requires 0 <= i < |front| => HealthScore(Some(front[i])));
      assert ms[|ms| - 1] in ms;
      CalmStep(planBatch, planThrottle, Run(c, StartOf(c), scores[..|scores| - 1]), ms[|ms| - 1]);
    }
  }

  /** The breaker is closed before the check and after it. */
  predicate StaysClosed(c: Config, k: Control, score: real) { !k.tripped && !Adjusted(c, k, score).tripped }

  /** One check with the breaker closed. The batch grows to 15 tenths above 0.8, is halved below 0.3,
      cut to 8 tenths below 0.5, each rounded down and within the limits, and stays in between. */
  lemma CheckRates(c: Config, k: Control, score: real)
    requires StaysClosed(c, k, score) && k.batch >= 0
    ensures var q := Adjusted(c, k, score);
            && (score > 0.8 ==>
                  && (q.batch == c.maxBatch || 10 * q.batch <= 15 * k.batch < 10 * q.batch + 10)
                  && 10 * q.batch <= 15 * k.batch && q.batch <= c.maxBatch
                  && q.throttle == MaxOf(k.throttle - 5, c.minThrottle))
            && (score < 0.3 ==>
                  && (q.batch == c.minBatch || 2 * q.batch <= k.batch < 2 * q.batch + 2)
                  && 2 * q.batch + 2 > k.batch && q.batch >= c.minBatch
                  && q.throttle == MinOf(k.throttle + 50, c.maxThrottle))
            && (0.3 <= score < 0.5 ==>
                  && (q.batch == c.minBatch || 10 * q.batch <= 8 * k.batch < 10 * q.batch + 10)
                  && 10 * q.batch + 10 > 8 * k.batch && q.batch >= c.minBatch
                  && q.throttle == MinOf(k.throttle + 20, c.maxThrottle))
            && (0.5 <= score <= 0.8 ==> q.batch == k.batch && q.throttle == k.throttle)
  {
  }

  /** The check that opens the breaker leaves pacing alone. */
  lemma OpeningKeepsPacing(c: Config, k: Control, score: real)
    requires !k.tripped && Adjusted(c, k, score).tripped
    ensures Adjusted(c, k, score).batch == k.batch && Adjusted(c, k, score).throttle == k.throttle
  {
  }

  /** Checks whose scores are all in a band, with the breaker closed throughout. */
  ghost predicate AllBetween(c: Config, k: Control, scores: seq<real>, low: real, high: real) {
    && (forall i :: 0 <= i < |scores| ==> low <= scores[i] < high)
    && forall n :: 0 <= n <= |scores| ==> !Run(c, k, scores[..n]).tripped
  }

  lemma BetweenStep(c: Config, k: Control, scores: seq<real>, low: real, high: real)
    requires scores != [] && AllBetween(c, k, scores, low, high)
    ensures var front, s := scores[..|scores| - 1], scores[|scores| - 1];
            && AllBetween(c, k, front, low, high) && low <= s < high && StaysClosed(c, Run(c, k, front), s)
  {
    var front := scores[..|scores| - 1];
    assert forall n :: 0 <= n <= |front| ==> front[..n] == scores[..n];
    assert scores[..|scores|] == scores;
  }

  function Power(base: nat, n: nat): nat { if n == 0 then 1 else base * Power(base, n - 1) }

  lemma PowerTimes(base: nat, n: nat, x: int)
    requires n > 0
    ensures Power(base, n) * x == base * (Power(base, n - 1) * x)
  {
  }

  /** One more step of a / b, after steps p / r. */
  lemma OneMoreStep(a: nat, b: nat, x: nat, y: nat, p: nat, r: int)
    requires a * x <= b * y && p * y <= r
    ensures a * (p * x) <= b * r
  {
    assert p * (a * x) <= p * (b * y);
    assert p * (a * x) == a * (p * x);
    assert p * (b * y) == b * (p * y);
  }

  /** Under n severe checks the batch is the minimum or halved at every one of them, and the throttle
      rises by 50 ms each to its maximum. */
  lemma {:induction false} SevereRuns(c: Config, k: Control, scores: seq<real>, low: real)
    requires AllBetween(c, k, scores, low, 0.3) && k.batch >= 0 && c.minBatch >= 0 && k.throttle <= c.maxThrottle
    ensures var q, n := Run(c, k, scores), |scores|;
            && q.batch >= 0 && (q.batch <= c.minBatch || Power(2, n) * q.batch <= k.batch)
            && q.throttle == MinOf(k.throttle + 50 * n, c.maxThrottle)
  {
    if scores != [] {
      var front, s := scores[..|scores| - 1], scores[|scores| - 1];
      BetweenStep(c, k, scores, low, 0.3);
      SevereRuns(c, k, front, low);
      var before, after := Run(c, k, front), Run(c, k, scores);
      CheckRates(c, before, s);
      if after.batch > c.minBatch {
        OneMoreStep(2, 1, after.batch, before.batch, Power(2, |front|), k.batch);
        PowerTimes(2, |scores|, after.batch);
      }
    }
  }

  /** Under n moderate checks the batch is the minimum or cut to 8 tenths at every one of them, and the
      throttle rises by 20 ms each to its maximum. */
  lemma {:induction false} ModerateRuns(c: Config, k: Control, scores: seq<real>)
    requires AllBetween(c, k, scores, 0.3, 0.5) && k.batch >= 0 && c.minBatch >= 0 && k.throttle <= c.maxThrottle
    ensures var q, n := Run(c, k, scores), |scores|;
            && q.batch >= 0 && (q.batch <= c.minBatch || Power(5, n) * q.batch <= Power(4, n) * k.batch)
            && q.throttle == MinOf(k.throttle + 20 * n, c.maxThrottle)
  {
    if scores != [] {
      var front, s := scores[..|scores| - 1], scores[|scores| - 1];
      BetweenStep(c, k, scores, 0.3, 0.5);
      ModerateRuns(c, k, front);
      var before, after := Run(c, k, front), Run(c, k, scores);
      CheckRates(c, before, s);
      if after.batch > c.minBatch {
        OneMoreStep(5, 4, after.batch, before.batch, Power(5, |front|), Power(4, |front|) * k.batch);
        PowerTimes(5, |scores|, after.batch);
        PowerTimes(4, |scores|, k.batch);
      }
    }
  }

  /** One check, or none when the metrics could not be collected. */
  function OneCheck(c: Config, k: Control, health: Option<Metrics>): Control {
    if health.None? then k else Adjusted(c, k, HealthScore(health))
  }

  function Checked(c: Config, k: Control, checks: seq<Option<Metrics>>): Control {
    if checks == [] then k else OneCheck(c, Checked(c, k, checks[..|checks| - 1]), checks[|checks| - 1])
  }

  /** The batch size after each of the checks. */
  function Paces(c: Config, k: Control, checks: seq<Option<Metrics>>): seq<int> {
    if checks == [] then [] else Paces(c, k, checks[..|checks| - 1]) + [Checked(c, k, checks).batch]
  }

  function BackfillPaces(planBatch: int, planThrottle: int, checks: seq<Option<Metrics>>): seq<int> {
    Paces(BackfillConfig(planBatch, planThrottle), StartOf(BackfillConfig(planBatch, planThrottle)), checks)
  }

  lemma PacesGrow(c: Config, k: Control, checks: seq<Option<Metrics>>, health: Option<Metrics>)
    ensures Checked(c, k, checks + [health]) == OneCheck(c, Checked(c, k, checks), health)
    ensures Paces(c, k, checks + [health]) == Paces(c, k, checks) + [Checked(c, k, checks + [health]).batch]
  {
    assert (checks + [health])[..|checks|] == checks;
  }

  /** Healthy checks, with the breaker closed throughout. */
  ghost predicate AllHealthy(c: Config, k: Control, scores: seq<real>) {
    && (forall i :: 0 <= i < |scores| ==> scores[i] > 0.8)
    && forall n :: 0 <= n <= |scores| ==> !Run(c, k, scores[..n]).tripped
  }

  /** n healthy checks grow the batch by at most a half each. */
  lemma {:induction false} GrowthAtMost(c: Config, b: int, n: nat)
    requires b >= 0 && c.maxBatch >= 0
    ensures Grown(c, b, n) >= 0 && Power(2, n) * Grown(c, b, n) <= Power(3, n) * b
  {
    if n > 0 {
      GrowthAtMost(c, b, n - 1);
      var before, after := Grown(c, b, n - 1), Grown(c, b, n);
      assert 2 * after <= 3 * before;
      OneMoreStep(2, 3, after, before, Power(2, n - 1), Power(3, n - 1) * b);
      PowerTimes(2, n, after);
      PowerTimes(3, n, b);
    }
  }

  /** b doubled j times. */
  function Doubled(b: int, j: nat): int { if j == 0 then b else 2 * Doubled(b, j - 1) }

  function Grown(c: Config, b: int, n: nat): int {
    if n == 0 then b else MinOf(Quo(Grown(c, b, n - 1) * 15, 10), c.maxBatch)
  }

  lemma {:induction false} HealthyPacing(c: Config, k: Control, scores: seq<real>)
    requires AllHealthy(c, k, scores) && k.throttle >= c.minThrottle
    ensures Run(c, k, scores).batch == Grown(c, k.batch, |scores|)
    ensures Run(c, k, scores).throttle == MaxOf(k.throttle - 5 * |scores|, c.minThrottle)
  {
    if scores != [] {
      var front := scores[..|scores| - 1];
      assert forall n :: 0 <= n <= |front| ==> front[..n] == scores[..n];
      assert scores[..|scores|] == scores;
      HealthyPacing(c, k, front);
    }
  }

  lemma GrownStep(c: Config, b: int, n: nat)
    requires b >= 2 && c.maxBatch >= 2
    ensures Grown(c, b, n + 1) == MinOf(Quo(Grown(c, b, n) * 15, 10), c.maxBatch)
    ensures Grown(c, b, n) >= 2 ==> Grown(c, b, n + 1) >= 2
  {
  }

  lemma FourSteps(c: Config, b: int, n: nat)
    requires b >= 2 && c.maxBatch >= 2 && Grown(c, b, n) >= 2
    ensures Grown(c, b, n + 4) >= MinOf(c.maxBatch, 2 * Grown(c, b, n))
  {
    GrownStep(c, b, n);
    GrownStep(c, b, n + 1);
    GrownStep(c, b, n + 2);
    GrownStep(c, b, n + 3);
  }

  lemma GrownKeeps(c: Config, b: int, n: nat, x: int)
    requires b >= 2 && c.maxBatch >= 2 && Grown(c, b, n) >= MinOf(c.maxBatch, x) >= 0
    ensures Grown(c, b, n + 1) >= MinOf(c.maxBatch, x)
  {
  }

  lemma {:induction false} GrowthDoubles(c: Config, b: int, n: nat)
    requires b >= 2 && c.maxBatch >= 2
    ensures Grown(c, b, n) >= MinOf(c.maxBatch, Doubled(b, n / 4)) && Doubled(b, n / 4) >= 2
  {
    var j := n / 4;
    if n == 4 * j && j > 0 {
      GrowthDoubles(c, b, 4 * (j - 1));
      assert 4 * (j - 1) / 4 == j - 1;
      FourSteps(c, b, 4 * (j - 1));
    } else if n > 0 {
      GrowthDoubles(c, b, n - 1);
      assert (n - 1) / 4 == j;
      GrownKeeps(c, b, n - 1, Doubled(b, j));
    }
  }

  /** From a batch of at least 2, healthy checks double it every four checks until the maximum.
      A batch of 1 never grows. */
  lemma HealthyConvergence(c: Config, k: Control, scores: seq<real>)
    requires AllHealthy(c, k, scores) && c.maxBatch >= 2 && k.batch >= 1 && k.throttle >= c.minThrottle
    ensures k.batch >= 2 ==> Run(c, k, scores).batch >= MinOf(c.maxBatch, Doubled(k.batch, |scores| / 4))
    ensures k.batch == 1 ==> Run(c, k, scores).batch == 1
    ensures Power(2, |scores|) * Run(c, k, scores).batch <= Power(3, |scores|) * k.batch
  {
    HealthyPacing(c, k, scores);
    GrowthAtMost(c, k.batch, |scores|);
    if k.batch >= 2 { GrowthDoubles(c, k.batch, |scores|); } else { StuckAtOne(c, |scores|); }
  }

  /** Healthy checks bring the throttle to its minimum exactly once 5 ms each cover the distance. */
  lemma HealthyThrottle(c: Config, k: Control, scores: seq<real>)
    requires AllHealthy(c, k, scores) && k.throttle >= c.minThrottle
    ensures Run(c, k, scores).throttle == c.minThrottle <==> 5 * |scores| >= k.throttle - c.minThrottle
  {
    HealthyPacing(c, k, scores);
  }

  lemma {:induction false} StuckAtOne(c: Config, n: nat)
    requires c.maxBatch >= 1
    ensures Grown(c, 1, n) == 1
  {
    if n > 0 { StuckAtOne(c, n - 1); }
  }
}
