/** The canary's verdict is a function of the plan: which step breaches first decides where
    every run leaves the canary, whatever crashes make it start over. */
module CanaryPhase {
  import opened Options
  import opened Plan
  import opened Storage
  import opened Lifecycle

  /** Which steps breach: only injected faults do, and only when some SLO limit is set. */
  lemma BreachCondition(p: MigrationPlan, step: int)
    ensures Breaches(p, step) <==>
              && p.failCanaryAtStep > 0 && step >= p.failCanaryAtStep
              && (p.slo.maxP99Ms > 0 || p.slo.maxErrorPct > 0.0)
  {
  }

  /** Step k is the first in plan order that breaches; steps need not be sorted. */
  ghost predicate FirstBreach(p: MigrationPlan, k: nat) {
    && k < |p.canarySteps| && Breaches(p, p.canarySteps[k])
    && forall j :: 0 <= j < k ==> !Breaches(p, p.canarySteps[j])
  }

  /** The checkpoint names the first breaching step. */
  ghost predicate NamesFirstBreach(p: MigrationPlan, ck: Checkpoint) {
    exists k: nat :: FirstBreach(p, k) && ck == Breach(p.canarySteps[k])
  }

  ghost predicate AllHealthy(p: MigrationPlan, n: nat) {
    n <= |p.canarySteps| && forall j :: 0 <= j < n ==> !Breaches(p, p.canarySteps[j])
  }

  ghost predicate CanaryInv(e: Env, c: Conf) {
    c.rec.state == State.Canary ==>
      match c.pc
      case Steps(i) => AllHealthy(e.plan, i) && (i > 0 ==> c.rec.checkpoint == CanaryAt(e.plan.canarySteps[i - 1]))
      case Exit(to, ck) => to == RollingBack && NamesFirstBreach(e.plan, ck)
      case _ => true
  }

  lemma CanaryStep(e: Env, c: Conf, a: Action)
    requires PcFits(e, c) && CanaryInv(e, c) && After(e, c, a).Some?
    ensures CanaryInv(e, After(e, c, a).value)
  {
    if a == Observe && c.rec.state == State.Canary && Breaches(e.plan, e.plan.canarySteps[c.pc.i]) {
      assert FirstBreach(e.plan, c.pc.i);
    }
  }

  lemma {:induction false} CanaryAlways(e: Env, c0: Conf, acts: seq<Action>)
    requires Initial(c0) && Play(e, c0, acts).Some?
    ensures CanaryInv(e, Play(e, c0, acts).value)
  {
    if acts != [] {
      var front := acts[..|acts| - 1];
      CanaryAlways(e, c0, front);
      PcFitsAlways(e, c0, front);
      CanaryStep(e, Play(e, c0, front).value, acts[|acts| - 1]);
    }
  }

  /** Every run that leaves the canary leaves it the same way: to Cutover when no step
      breaches; to RollingBack, naming the first breaching step, when one does and the plan
      says rollback; and not at all when one does and the plan says pause. */
  lemma CanaryVerdict(e: Env, c0: Conf, acts: seq<Action>, j: nat)
    requires Initial(c0) && Play(e, c0, acts).Some?
    requires j < |acts| && acts[j] == Save && At(e, c0, acts, j).rec.state == State.Canary
    ensures var r := At(e, c0, acts, j + 1).rec;
            if AllHealthy(e.plan, |e.plan.canarySteps|)
            then r.state == Cutover && r.checkpoint == CanaryAt(100)
            else r.state == RollingBack && e.plan.onFailure == OnRollback && NamesFirstBreach(e.plan, r.checkpoint)
  {
    AtStep(e, c0, acts, j);
    PlayPrefix(e, c0, acts, j);
    CanaryAlways(e, c0, acts[..j]);
    PcFitsAlways(e, c0, acts[..j]);
  }

  /** Inside one pass, the checkpoint on disk names the last healthy step and every step
      before the current one was healthy. */
  lemma HealthyPrefix(e: Env, c0: Conf, acts: seq<Action>)
    requires Initial(c0) && Play(e, c0, acts).Some?
    ensures var c := Play(e, c0, acts).value;
            c.rec.state == State.Canary && c.pc.Steps? ==>
              && AllHealthy(e.plan, c.pc.i)
              && (c.pc.i > 0 ==> c.rec.checkpoint == CanaryAt(e.plan.canarySteps[c.pc.i - 1]))
  {
    CanaryAlways(e, c0, acts);
    PcFitsAlways(e, c0, acts);
  }
}
