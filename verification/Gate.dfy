/** Gate before destruction: what must have been read before a contract statement may run,
    whatever other clients write in between. */
module Gate {
  import opened Options
  import opened Plan
  import opened Storage
  import opened Rows
  import opened Lifecycle

  /** Action i was a full-table scan in Cutover that passed. */
  ghost predicate PassedAt(e: Env, c0: Conf, acts: seq<Action>, i: nat)
    requires Play(e, c0, acts).Some?
  {
    && i < |acts| && acts[i].Gate?
    && At(e, c0, acts, i).rec.state == Cutover
    && GatePasses(e, At(e, c0, acts, i).tab)
  }

  predicate PastGate(c: Conf) {
    || c.rec.state == Contracting || c.rec.state == Done
    || (c.rec.state == Cutover && c.pc.Exit? && c.pc.to == Contracting)
  }

  /** The only step past the gate is a scan that passes. */
  lemma GateStep(e: Env, c: Conf, a: Action)
    requires e.plan.backfill.column != "" && PcFits(e, c) && After(e, c, a).Some?
    requires !PastGate(c) && PastGate(After(e, c, a).value)
    ensures a.Gate? && c.rec.state == Cutover && GatePasses(e, c.tab)
  {
  }

  lemma {:induction false} PastGateMeansPassed(e: Env, c0: Conf, acts: seq<Action>, j: nat)
    requires e.plan.backfill.column != "" && Initial(c0) && Play(e, c0, acts).Some?
    requires j <= |acts| && PastGate(At(e, c0, acts, j))
    ensures exists i :: 0 <= i < j && PassedAt(e, c0, acts, i)
  {
    if j > 0 {
      AtStep(e, c0, acts, j - 1);
      var c := At(e, c0, acts, j - 1);
      PlayPrefix(e, c0, acts, j - 1);
      PcFitsAlways(e, c0, acts[..j - 1]);
      if PastGate(c) {
        PastGateMeansPassed(e, c0, acts, j - 1);
      } else {
        GateStep(e, c, acts[j - 1]);
        assert PassedAt(e, c0, acts, j - 1);
      }
    }
  }

  /** No NULL, and few enough rows off the source expression for both configured thresholds. */
  predicate Converged(p: MigrationPlan, r: Report) {
    && r.nulls == 0
    && r.drifted as real <= (1.0 - p.parityThreshold) * r.total as real
    && r.drifted as real <= (1.0 - p.slo.minParity) * r.total as real
  }

  lemma RatioAtLeast(total: nat, bad: nat, t: real)
    requires total > 0
    ensures Ratio(total, bad) >= t <==> bad as real <= (1.0 - t) * total as real
  {
    var n, q := total as real, Ratio(total, bad);
    assert q * n == (total - bad) as real == n - bad as real;
    assert q >= t <==> q * n >= t * n by {
      if q >= t { assert (q - t) * n >= 0.0; } else { assert (t - q) * n > 0.0; }
    }
    assert (1.0 - t) * n == n - t * n;
  }

  lemma ReportMeaning(p: MigrationPlan, r: Report)
    requires r.drifted <= r.total
    ensures r.nulls == 0 && ParityOf(r) >= Threshold(p) <==>
              Converged(p, r) && (r.total == 0 ==> p.parityThreshold <= 1.0 && p.slo.minParity <= 1.0)
  {
    if r.total > 0 {
      RatioAtLeast(r.total, r.drifted, p.parityThreshold);
      RatioAtLeast(r.total, r.drifted, p.slo.minParity);
    }
  }

  /** What a passing scan says of the table: no row is NULL, few enough rows are off the expression for
      both thresholds, and an empty table passes only thresholds of at most 1. */
  lemma GateMeaning(e: Env, tab: Table)
    ensures GatePasses(e, tab) <==>
              && (forall i :: i in tab ==> tab[i].val.Some?)
              && (|set i | i in tab && tab[i].val != e.source(tab[i].data)|) as real
                 <= (1.0 - e.plan.parityThreshold) * |tab| as real
              && (|set i | i in tab && tab[i].val != e.source(tab[i].data)|) as real
                 <= (1.0 - e.plan.slo.minParity) * |tab| as real
              && (|tab| == 0 ==> e.plan.parityThreshold <= 1.0 && e.plan.slo.minParity <= 1.0)
  {
    ScanMeaning(e, tab);
    DriftWithinTotal(tab, e.source);
    ReportMeaning(e.plan, Scan(tab, e.source));
  }

  lemma ScanMeaning(e: Env, tab: Table)
    ensures var r := Scan(tab, e.source);
            && r.total == |tab| && (r.nulls == 0 <==> forall i :: i in tab ==> tab[i].val.Some?)
            && r.drifted == |set i | i in tab && tab[i].val != e.source(tab[i].data)|
  {
    if Nulls(tab) != {} {
      var i :| i in Nulls(tab);
      assert i in tab && tab[i].val.None?;
    } else {
      forall i | i in tab ensures tab[i].val.Some? { assert i !in Nulls(tab); }
    }
    assert Drifted(tab, e.source) == set i | i in tab && tab[i].val != e.source(tab[i].data);
  }

  /** No contract statement runs unless an earlier cutover scan of the whole table saw no
      NULL and at most (1 - threshold) * total drifted rows. */
  lemma GateBeforeContract(e: Env, c0: Conf, acts: seq<Action>, j: nat)
    requires e.plan.backfill.column != "" && Initial(c0) && Play(e, c0, acts).Some?
    requires j < |acts| && acts[j].Exec? && At(e, c0, acts, j).rec.state == Contracting
    ensures exists i ::
              0 <= i < j && PassedAt(e, c0, acts, i) && Converged(e.plan, Scan(At(e, c0, acts, i).tab, e.source))
  {
    PastGateMeansPassed(e, c0, acts, j);
    var i :| 0 <= i < j && PassedAt(e, c0, acts, i);
    var t := At(e, c0, acts, i).tab;
    DriftWithinTotal(t, e.source);
    ReportMeaning(e.plan, Scan(t, e.source));
  }

  /** Action i was a readiness poll in Cutover that did not find services unready twice. */
  ghost predicate PolledAt(e: Env, c0: Conf, acts: seq<Action>, i: nat)
    requires Play(e, c0, acts).Some?
  {
    && i < |acts| && acts[i].Poll? && At(e, c0, acts, i).rec.state == Cutover
    && !(acts[i].first == SomeNotReady && acts[i].second == SomeNotReady)
  }

  predicate PastPoll(c: Conf) { PastGate(c) || (c.rec.state == Cutover && c.pc.Gating?) }

  lemma PollStep(e: Env, c: Conf, a: Action)
    requires PcFits(e, c) && After(e, c, a).Some? && !PastPoll(c) && PastPoll(After(e, c, a).value)
    ensures a.Poll? && c.rec.state == Cutover && !(a.first == SomeNotReady && a.second == SomeNotReady)
  {
  }

  lemma {:induction false} PastPollMeansPolled(e: Env, c0: Conf, acts: seq<Action>, j: nat)
    requires Initial(c0) && Play(e, c0, acts).Some?
    requires j <= |acts| && PastPoll(At(e, c0, acts, j))
    ensures exists i :: 0 <= i < j && PolledAt(e, c0, acts, i)
  {
    if j > 0 {
      AtStep(e, c0, acts, j - 1);
      var c := At(e, c0, acts, j - 1);
      PlayPrefix(e, c0, acts, j - 1);
      PcFitsAlways(e, c0, acts[..j - 1]);
      if PastPoll(c) {
        PastPollMeansPolled(e, c0, acts, j - 1);
      } else {
        PollStep(e, c, acts[j - 1]);
        assert PolledAt(e, c0, acts, j - 1);
      }
    }
  }

  /** No contract statement runs, with or without a backfill column, unless an earlier poll in
      Cutover got past the services; two not-ready answers never do. */
  lemma ReadinessBeforeContract(e: Env, c0: Conf, acts: seq<Action>, j: nat)
    requires Initial(c0) && Play(e, c0, acts).Some?
    requires j < |acts| && acts[j].Exec? && At(e, c0, acts, j).rec.state == Contracting
    ensures exists i :: 0 <= i < j && PolledAt(e, c0, acts, i)
  {
    PastPollMeansPolled(e, c0, acts, j);
  }

  /** A sample on which the share of matching rows reaches both thresholds. */
  ghost predicate GoodSample(e: Env, c: Conf, ids: set<RowId>) {
    && IsSample(e.plan, c.tab, ids)
    && ShareOf(c.tab, ids, e.source) >= e.plan.parityThreshold
    && ShareOf(c.tab, ids, e.source) >= e.plan.slo.minParity
  }

  ghost predicate SampledAt(e: Env, c0: Conf, acts: seq<Action>, i: nat)
    requires Play(e, c0, acts).Some?
  {
    i < |acts| && acts[i].Sample? && GoodSample(e, At(e, c0, acts, i), acts[i].ids)
  }

  predicate PastVerify(c: Conf) {
    || c.rec.state in {State.Canary, Cutover, Contracting, Done, RollingBack, RolledBack}
    || (c.rec.state == Verifying && c.pc.Exit?)
  }

  lemma VerifyStep(e: Env, c: Conf, a: Action)
    requires e.plan.backfill.column != "" && PcFits(e, c) && After(e, c, a).Some?
    requires !PastVerify(c) && PastVerify(After(e, c, a).value)
    ensures a.Sample? && GoodSample(e, c, a.ids)
  {
  }

  /** With a backfill column no run gets past Verifying without a sample, the whole table
      unless the rate is inside (0, 1), whose parity reached the thresholds. */
  lemma {:induction false} SampleBeforeCanary(e: Env, c0: Conf, acts: seq<Action>, j: nat)
    requires e.plan.backfill.column != "" && Initial(c0) && Play(e, c0, acts).Some?
    requires j <= |acts| && PastVerify(At(e, c0, acts, j))
    ensures exists i :: 0 <= i < j && SampledAt(e, c0, acts, i)
  {
    if j > 0 {
      AtStep(e, c0, acts, j - 1);
      var c := At(e, c0, acts, j - 1);
      PlayPrefix(e, c0, acts, j - 1);
      PcFitsAlways(e, c0, acts[..j - 1]);
      if PastVerify(c) {
        SampleBeforeCanary(e, c0, acts, j - 1);
      } else {
        VerifyStep(e, c, acts[j - 1]);
        assert SampledAt(e, c0, acts, j - 1);
      }
    }
  }

  predicate Forward(s: State) { s == Contracting || s == Done }
  predicate Backward(s: State) { s == RollingBack || s == RolledBack }

  lemma SideStep(e: Env, c: Conf, a: Action)
    requires PcFits(e, c) && After(e, c, a).Some?
    ensures Forward(c.rec.state) ==> Forward(After(e, c, a).value.rec.state)
    ensures Backward(c.rec.state) ==> Backward(After(e, c, a).value.rec.state)
  {
  }

  lemma {:induction false} SideIsFinal(e: Env, c0: Conf, acts: seq<Action>, i: nat, j: nat)
    requires Initial(c0) && Play(e, c0, acts).Some? && i <= j <= |acts|
    ensures Forward(At(e, c0, acts, i).rec.state) ==> Forward(At(e, c0, acts, j).rec.state)
    ensures Backward(At(e, c0, acts, i).rec.state) ==> Backward(At(e, c0, acts, j).rec.state)
    decreases j
  {
    if i < j {
      SideIsFinal(e, c0, acts, i, j - 1);
      AtStep(e, c0, acts, j - 1);
      PlayPrefix(e, c0, acts, j - 1);
      PcFitsAlways(e, c0, acts[..j - 1]);
      SideStep(e, At(e, c0, acts, j - 1), acts[j - 1]);
    }
  }

  /** No run executes both a contract and a rollback statement. */
  lemma NeverBothDirections(e: Env, c0: Conf, acts: seq<Action>, i: nat, j: nat)
    requires Initial(c0) && Play(e, c0, acts).Some?
    requires i < |acts| && acts[i].Exec? && At(e, c0, acts, i).rec.state == Contracting
    requires j < |acts| && acts[j].Exec?
    ensures At(e, c0, acts, j).rec.state != RollingBack
  {
    if i <= j { SideIsFinal(e, c0, acts, i, j); } else { SideIsFinal(e, c0, acts, j, i); }
  }
}
