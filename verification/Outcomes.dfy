/** Two outcomes only: whatever crashes and failed statements a run meets, a migration that
    ends has either restored the schema it found or finished the whole change. */
module Outcomes {
  import opened Options
  import opened Ddl
  import opened Plan
  import opened Storage
  import opened Rows
  import opened Lifecycle

  ghost predicate AllResumable(p: MigrationPlan) {
    Resumable(p.expand) && Resumable(p.contract) && Resumable(p.rollback)
  }

  /** Statements this pass has acknowledged. */
  function Position(pc: Pc): nat { if pc.Stmt? then pc.i else 0 }

  ghost predicate RunningList(ss: seq<Stmt>, from: Option<Schema>, c: Conf) {
    from.Some? && HighWater(ss, from.value, c.sch, Position(c.pc))
  }

  ghost predicate FinishedList(ss: seq<Stmt>, from: Option<Schema>, c: Conf) {
    from.Some? && ApplyAll(ss, from.value) == Some(c.sch)
  }

  ghost predicate SchemaInv(e: Env, s0: Schema, c: Conf) {
    var p := e.plan;
    var s1 := ApplyAll(p.expand, s0);
    match c.rec.state
    case Pending => c.sch == s0
    case Expanding => RunningList(p.expand, Some(s0), c)
    case Contracting => RunningList(p.contract, s1, c)
    case Done => FinishedList(p.contract, s1, c)
    case RollingBack => RunningList(p.rollback, s1, c)
    case RolledBack => FinishedList(p.rollback, s1, c)
    case _ => s1 == Some(c.sch)
  }

  lemma HighWaterStart(ss: seq<Stmt>, s: Schema)
    ensures HighWater(ss, s, s, 0)
  {
    assert ApplyAll(ss[..0], s) == Some(s);
  }

  lemma HighWaterEnd(ss: seq<Stmt>, s0: Schema, s: Schema)
    requires HighWater(ss, s0, s, |ss|)
    ensures ApplyAll(ss, s0) == Some(s)
  {
    assert ss[..|ss|] == ss;
  }

  lemma HighWaterDown(ss: seq<Stmt>, s0: Schema, s: Schema, i: nat, j: nat)
    requires HighWater(ss, s0, s, i) && j <= i
    ensures HighWater(ss, s0, s, j)
  {
  }

  lemma ExecKeeps(e: Env, s0: Schema, c: Conf, sch: Schema, rows: Table, acked: bool)
    requires AllResumable(e.plan) && PcFits(e, c) && SchemaInv(e, s0, c)
    requires After(e, c, Exec(sch, rows, acked)).Some?
    ensures SchemaInv(e, s0, After(e, c, Exec(sch, rows, acked)).value)
  {
    var ss := Statements(e.plan, c.rec.state);
    var from := if c.rec.state == Expanding then s0 else ApplyAll(e.plan.expand, s0).value;
    HighWaterStep(ss, from, c.sch, c.pc.i);
    HighWaterDown(ss, from, sch, c.pc.i + 1, c.pc.i);
  }

  lemma SaveKeeps(e: Env, s0: Schema, c: Conf)
    requires PcFits(e, c) && SchemaInv(e, s0, c) && After(e, c, Save).Some?
    ensures SchemaInv(e, s0, After(e, c, Save).value)
  {
    var ss := Statements(e.plan, c.rec.state);
    if c.pc.Stmt? {
      HighWaterEnd(ss, if c.rec.state == Expanding then s0 else ApplyAll(e.plan.expand, s0).value, c.sch);
    }
    HighWaterStart(e.plan.expand, c.sch);
    HighWaterStart(e.plan.contract, c.sch);
    HighWaterStart(e.plan.rollback, c.sch);
  }

  lemma SchemaStep(e: Env, s0: Schema, c: Conf, a: Action)
    requires AllResumable(e.plan) && PcFits(e, c) && SchemaInv(e, s0, c) && After(e, c, a).Some?
    ensures SchemaInv(e, s0, After(e, c, a).value)
  {
    match a
    case Exec(sch, rows, acked) => ExecKeeps(e, s0, c, sch, rows, acked);
    case Save => SaveKeeps(e, s0, c);
    case Crash =>
      var ss := Statements(e.plan, c.rec.state);
      if c.pc.Stmt? {
        HighWaterDown(ss, if c.rec.state == Expanding then s0 else ApplyAll(e.plan.expand, s0).value, c.sch, c.pc.i, 0);
      }
    case _ =>
  }

  lemma {:induction false} SchemaAlways(e: Env, c0: Conf, acts: seq<Action>)
    requires AllResumable(e.plan) && Initial(c0) && Play(e, c0, acts).Some?
    ensures SchemaInv(e, c0.sch, Play(e, c0, acts).value)
  {
    if acts != [] {
      var front := acts[..|acts| - 1];
      SchemaAlways(e, c0, front);
      PcFitsAlways(e, c0, front);
      SchemaStep(e, c0.sch, Play(e, c0, front).value, acts[|acts| - 1]);
    }
  }

  /** A plan whose three lists are the generated ones. */
  ghost predicate IsGenerated(p: MigrationPlan) {
    && p.expand == ExpandOf(p.table, p.addColumns)
    && p.contract == ContractOf(p.addColumns, p.dropColumns)
    && p.rollback == RollbackOf(p.table, p.addColumns)
  }

  /** What Validate makes of a declarative plan without lists of its own. */
  lemma AcceptedIsGenerated(p: MigrationPlan)
    requires Validated(p).1 == Accepted && Declarative(p)
    requires p.expand == [] && p.contract == [] && p.rollback == []
    ensures IsGenerated(Validated(p).0)
  {
    AcceptedIs(p);
  }

  /** For generated lists: RolledBack means the original schema, exactly when the added names
      were fresh; Done means contract after expand, each run once. Any action sequence counts,
      with crashes, lost acknowledgements and foreign writes anywhere. */
  lemma TwoOutcomes(e: Env, c0: Conf, acts: seq<Action>)
    requires IsGenerated(e.plan) && WellFormed(c0.sch)
    requires Initial(c0) && Play(e, c0, acts).Some?
    ensures var c := Play(e, c0, acts).value;
            var s1 := ApplyAll(e.plan.expand, c0.sch);
            && s1.Some?
            && (c.rec.state == RolledBack ==> (c.sch == c0.sch <==> Fresh(e.plan.table, e.plan.addColumns, c0.sch)))
            && (c.rec.state == Done ==> Some(c.sch) == ApplyAll(e.plan.contract, s1.value))
  {
    var p := e.plan;
    GeneratedResumable(p.table, p.addColumns, p.dropColumns);
    SchemaAlways(e, c0, acts);
    RollbackInvertsExpand(p.table, p.addColumns, c0.sch);
  }

  /** A generated plan that also drops a required new column can never reach Done. */
  lemma SelfDefeatingPlanNeverFinishes(e: Env, c0: Conf, acts: seq<Action>)
    requires IsGenerated(e.plan)
    requires Initial(c0) && Play(e, c0, acts).Some?
    requires !(Required(e.plan.addColumns) !! Elements(e.plan.dropColumns))
    ensures Play(e, c0, acts).value.rec.state != Done
  {
    var p := e.plan;
    GeneratedResumable(p.table, p.addColumns, p.dropColumns);
    SchemaAlways(e, c0, acts);
    ContractAfterExpand(p.table, p.addColumns, p.dropColumns, c0.sch);
  }

  ghost predicate AllLost(t: Table) { forall i :: i in t ==> t[i].val.None? }

  ghost predicate LostWithColumn(p: MigrationPlan, c: Conf) {
    var drop := DropColumn(p.backfill.column);
    && (c.rec.state == Contracting && c.pc.Stmt? && c.pc.i <= |p.contract| && drop in p.contract[..c.pc.i] ==>
          AllLost(c.tab))
    && (c.rec.state == Done && drop in p.contract ==> AllLost(c.tab))
  }

  lemma LostStep(e: Env, c: Conf, a: Action)
    requires PcFits(e, c) && LostWithColumn(e.plan, c) && !a.Write? && After(e, c, a).Some?
    requires forall st :: st in e.plan.contract ==> !st.Raw?
    ensures LostWithColumn(e.plan, After(e, c, a).value)
  {
    var ss := e.plan.contract;
    if c.rec.state == Contracting && c.pc.Stmt? {
      assert ss[..|ss|] == ss;
      if a.Exec? { assert ss[..c.pc.i + 1] == ss[..c.pc.i] + [ss[c.pc.i]]; }
    }
  }

  /** A contract that drops the derived column takes every backfilled value along, however often
      crashes make it start again. */
  lemma {:induction false} DroppedColumnIsLost(e: Env, c0: Conf, acts: seq<Action>)
    requires Initial(c0) && Quiet(acts) && Play(e, c0, acts).Some?
    requires forall st :: st in e.plan.contract ==> !st.Raw?
    ensures LostWithColumn(e.plan, Play(e, c0, acts).value)
  {
    if acts != [] {
      var front := acts[..|acts| - 1];
      DroppedColumnIsLost(e, c0, front);
      PcFitsAlways(e, c0, front);
      LostStep(e, Play(e, c0, front).value, acts[|acts| - 1]);
    }
  }
}
