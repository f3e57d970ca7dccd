/** What the persisted and in-memory row counts of the backfill mean. */
module Accounting {
  import opened Options
  import opened Ddl
  import opened Plan
  import opened Storage
  import opened Rows
  import opened Lifecycle
  import opened Completeness

  /** Within one entry, rows done plus NULL rows ahead is the total counted at entry, and the
      loop ends only by a batch that wrote nothing, with rows done equal to that total: reading
      the largest id after a batch always finds a larger one. */
  lemma ProgressAccounting(e: Env, c0: Conf, acts: seq<Action>, batch: nat, pick: set<RowId>, rows: Table, max: RowId)
    requires Initial(c0) && Quiet(acts) && Play(e, c0, acts).Some?
    requires Simple(e, c0.tab) && ExpandKeeps(e.plan) && Contiguous(c0.tab)
    requires Play(e, c0, acts).value.rec.state == Backfilling
    ensures var c := Play(e, c0, acts).value;
            && (c.pc.Head? ==> c.pc.done + |NullsAbove(c.tab, c.pc.last)| == c.pc.total)
            && (c.pc.Head? && After(e, c, Update(batch, pick, rows)).Some? ==>
                  var c' := After(e, c, Update(batch, pick, rows)).value;
                  c'.pc.Exit? ==> c'.pc.ck == Progress(c.pc.last, c.pc.total, c.pc.num))
            && (c.pc.Updated? && After(e, c, ReadMax(max)).Some? ==> After(e, c, ReadMax(max)).value.pc.Advanced?)
  {
    FillAlways(e, c0.tab, c0, acts);
    var c := Play(e, c0, acts).value;
    if c.pc.Head? {
      assert NullsAbove(c.tab, c.pc.last) == Nulls(c.tab);
    }
  }

  function Crashes(acts: seq<Action>): nat {
    if acts == [] then 0 else Crashes(acts[..|acts| - 1]) + if acts[|acts| - 1].Crash? then 1 else 0
  }

  lemma {:induction false} CrashesIs(acts: seq<Action>)
    ensures Crashes(acts) == |set i | 0 <= i < |acts| && acts[i].Crash?|
  {
    if acts != [] {
      var front, n := acts[..|acts| - 1], |acts| - 1;
      CrashesIs(front);
      var all := set i | 0 <= i < |acts| && acts[i].Crash?;
      var some := set i | 0 <= i < |front| && front[i].Crash?;
      assert all == some + if acts[n].Crash? then {n} else {};
    }
  }

  ghost predicate BatchesAtMost(acts: seq<Action>, b: nat) {
    forall a :: a in acts && a.Update? ==> a.batch <= b
  }

  /** d counts rows filled, short by at most lag. */
  predicate Within(d: int, filled: int, lag: nat) { d <= filled <= d + lag }

  ghost predicate LagInv(t0: Table, lag: nat, b: nat, c: Conf) {
    c.rec.state == Backfilling ==>
      var filled := |Nulls(t0)| - |Nulls(c.tab)|;
      var d := Resume(c.rec.checkpoint).1;
      match c.pc
      case Updated(_, _, _, _, n) => n <= b && Within(d + n, filled, lag)
      case Advanced(_, d', _, _) => d <= d' <= d + b && Within(d', filled, lag)
      case Exit(_, ck) => Within(d, filled, lag) && (ck.Progress? ==> ck.rowsDone == d)
      case _ => Within(d, filled, lag)
  }

  lemma LagUpdate(e: Env, t0: Table, lag: nat, b: nat, c: Conf, batch: nat, pick: set<RowId>, rows: Table)
    requires Simple(e, t0) && FillInv(e, t0, c) && LagInv(t0, lag, b, c)
    requires batch <= b && After(e, c, Update(batch, pick, rows)).Some?
    ensures LagInv(t0, lag, b, After(e, c, Update(batch, pick, rows)).value)
  {
    assert NullsAbove(c.tab, c.pc.last) == Nulls(c.tab);
    BatchKeepsPartial(e, t0, c.tab, pick, batch);
    if pick == {} { assert |pick| == 0; }
  }

  lemma LagOther(e: Env, t0: Table, lag: nat, b: nat, c: Conf, a: Action)
    requires PcFits(e, c) && LagInv(t0, lag, b, c) && After(e, c, a).Some?
    requires a.SaveProgress? || a.CountNulls? || a.Sample? || a.Observe? || a.Poll? || a.Gate?
    ensures LagInv(t0, lag, b, After(e, c, a).value)
  {
  }

  lemma LagSave(e: Env, t0: Table, lag: nat, b: nat, c: Conf)
    requires FillInv(e, t0, c) && LagInv(t0, lag, b, c) && After(e, c, Save).Some?
    ensures LagInv(t0, lag, b, After(e, c, Save).value)
  {
  }

  lemma LagExec(e: Env, t0: Table, lag: nat, b: nat, c: Conf, a: Action)
    requires PcFits(e, c) && a.Exec? && After(e, c, a).Some?
    ensures LagInv(t0, lag, b, After(e, c, a).value)
  {
  }

  lemma LagStep(e: Env, t0: Table, lag: nat, b: nat, c: Conf, a: Action)
    requires Simple(e, t0) && Contiguous(t0)
    requires FillInv(e, t0, c) && LagInv(t0, lag, b, c) && !a.Write? && After(e, c, a).Some?
    requires a.Update? ==> a.batch <= b
    ensures LagInv(t0, if a.Crash? then lag + b else lag, b, After(e, c, a).value)
  {
    match a
    case Crash =>
    case Enter =>
    case Update(batch, pick, rows) => LagUpdate(e, t0, lag, b, c, batch, pick, rows);
    case ReadMax(_) => FilledIsBelow(e, t0, c.tab);
    case Save => LagSave(e, t0, lag, b, c);
    case Exec(_, _, _) => LagExec(e, t0, lag, b, c, a);
    case _ => LagOther(e, t0, lag, b, c, a);
  }

  /** One more batch of slack for every crash. */
  function Slack(acts: seq<Action>, b: nat): nat {
    if acts == [] then 0 else Slack(acts[..|acts| - 1], b) + if acts[|acts| - 1].Crash? then b else 0
  }

  lemma {:induction false} SlackPerCrash(acts: seq<Action>, b: nat)
    ensures Slack(acts, b) == b * Crashes(acts)
  {
    if acts != [] {
      SlackPerCrash(acts[..|acts| - 1], b);
      MulSucc(b, Crashes(acts[..|acts| - 1]));
    }
  }

  lemma MulSucc(b: nat, k: nat)
    ensures b * (k + 1) == b * k + b
  {
  }

  lemma {:induction false} LagAlways(e: Env, c0: Conf, acts: seq<Action>, b: nat)
    requires Initial(c0) && Quiet(acts) && Play(e, c0, acts).Some? && BatchesAtMost(acts, b)
    requires Simple(e, c0.tab) && ExpandKeeps(e.plan) && Contiguous(c0.tab)
    ensures LagInv(c0.tab, Slack(acts, b), b, Play(e, c0, acts).value)
  {
    if acts != [] {
      var front := acts[..|acts| - 1];
      var a := acts[|acts| - 1];
      LagAlways(e, c0, front, b);
      FillAlways(e, c0.tab, c0, front);
      LagStep(e, c0.tab, Slack(front, b), b, Play(e, c0, front).value, a);
    }
  }

  /** Across entries, whenever no batch is in flight the persisted rows_done falls short of
      the rows really filled by at most one batch per crash, and never exceeds them. */
  lemma ShortfallPerCrash(e: Env, c0: Conf, acts: seq<Action>, b: nat)
    requires Initial(c0) && Quiet(acts) && Play(e, c0, acts).Some? && BatchesAtMost(acts, b)
    requires Simple(e, c0.tab) && ExpandKeeps(e.plan) && Contiguous(c0.tab)
    ensures var c := Play(e, c0, acts).value;
            c.rec.state == Backfilling && (c.pc.Down? || c.pc.Head?) ==>
              var crashes := |set i | 0 <= i < |acts| && acts[i].Crash?|;
              var filled := |Nulls(c0.tab)| - |Nulls(c.tab)|;
              Resume(c.rec.checkpoint).1 <= filled <= Resume(c.rec.checkpoint).1 + b * crashes
  {
    CrashesIs(acts);
    LagAlways(e, c0, acts, b);
    SlackPerCrash(acts, b);
  }
}
