/** The backfill: crash-resumed batches against one UPDATE of the whole table. */
module Completeness {
  import opened Options
  import opened Ddl
  import opened Plan
  import opened Storage
  import opened Rows
  import opened Lifecycle

  /** What a single UPDATE of every NULL row would leave. */
  function OneShot(e: Env, t: Table): Table { Fill(t, Nulls(t), e.source) }

  /** t is t0 with the source expression's value in every row that was NULL, and is otherwise t0. */
  ghost predicate IsFilled(e: Env, t0: Table, t: Table) {
    && t.Keys == t0.Keys
    && forall i :: i in t0 ==>
         t[i] == if t0[i].val.None? then Row(t0[i].data, e.source(t0[i].data)) else t0[i]
  }

  lemma OneShotIff(e: Env, t0: Table, t: Table)
    ensures IsFilled(e, t0, t) <==> t == OneShot(e, t0)
  {
    var f := OneShot(e, t0);
    forall i | i in t0
      ensures f[i] == if t0[i].val.None? then Row(t0[i].data, e.source(t0[i].data)) else t0[i]
    {
      assert i in Nulls(t0) <==> t0[i].val.None?;
    }
  }

  /** A single-column backfill, whose expression has a value on every row it must fill. */
  ghost predicate Simple(e: Env, t: Table) { SingleColumn(e.plan) && HasValues(e, t) }

  predicate SingleColumn(p: MigrationPlan) { p.backfill.column != "" && p.backfill.multiSql == "" }

  ghost predicate HasValues(e: Env, t: Table) { forall i :: i in Nulls(t) ==> e.source(t[i].data).Some? }

  /** The statements leave the derived column in place. */
  ghost predicate Leave(p: MigrationPlan, ss: seq<Stmt>) {
    forall st :: st in ss ==> !st.Raw? && !(st.DropColumn? && st.column == p.backfill.column)
  }

  ghost predicate ExpandKeeps(p: MigrationPlan) { Leave(p, p.expand) }
  ghost predicate ContractKeeps(p: MigrationPlan) { Leave(p, p.contract) }
  ghost predicate KeepsValues(p: MigrationPlan) { ExpandKeeps(p) && ContractKeeps(p) }

  /** Every NULL row has a positive id, and every NULL row but the lowest lies above every
      row that already has a value. */
  ghost predicate Contiguous(t: Table) {
    && (forall i :: i in Nulls(t) ==> i > 0)
    && (forall z, x, y :: z in Nulls(t) && x in Nulls(t) && y in t && t[y].val.Some? && z < x ==> y < x)
  }

  /** t is t0 with some lowest part of its NULL rows filled. */
  ghost predicate Partial(e: Env, t0: Table, t: Table) {
    && Nulls(t) <= Nulls(t0)
    && t == Fill(t0, Nulls(t0) - Nulls(t), e.source)
    && forall x, y :: x in Nulls(t0) && x !in Nulls(t) && y in Nulls(t) ==> x < y
  }

  ghost predicate Below(last: int, s: set<RowId>) { forall x :: x in s ==> last < x }

  ghost predicate LoopInv(e: Env, t0: Table, c: Conf) {
    var (last, done, num) := Resume(c.rec.checkpoint);
    var n := Nulls(c.tab);
    && Partial(e, t0, c.tab)
    && last >= 0 && Below(last, n)
    && match c.pc
       case Down => true
       case Head(l, d, _, total) => l == last && d == done && d + |n| == total
       case Updated(l, d, _, total, k) =>
         l == last && d == done && k > 0 && d + k + |n| == total && n != Nulls(t0) && SetAbove(c.tab, l) != {}
       case Advanced(l, d, _, total) => l >= 0 && Below(l, n) && d + |n| == total
       case Exit(to, ck) => n == {}
       case _ => false
  }

  ghost predicate FillInv(e: Env, t0: Table, c: Conf) {
    && PcFits(e, c)
    && match c.rec.state
       case Pending => ExpandKeeps(e.plan) && c.tab == t0
       case Expanding => ExpandKeeps(e.plan) && c.tab == t0 && !c.rec.checkpoint.Progress?
       case Backfilling => LoopInv(e, t0, c)
       case RollingBack => true
       case RolledBack => true
       case Contracting => ContractKeeps(e.plan) ==> c.tab == OneShot(e, t0)
       case Done => ContractKeeps(e.plan) ==> c.tab == OneShot(e, t0)
       case _ => c.tab == OneShot(e, t0)
  }

  lemma PartialStart(e: Env, t: Table)
    ensures Partial(e, t, t)
  {
    assert Fill(t, Nulls(t) - Nulls(t), e.source) == t;
  }

  lemma PartialEnd(e: Env, t0: Table, t: Table)
    requires Partial(e, t0, t) && Nulls(t) == {}
    ensures t == OneShot(e, t0)
  {
    assert Nulls(t0) - Nulls(t) == Nulls(t0);
  }

  /** Once anything was filled, every value lies below every remaining NULL. */
  lemma FilledIsBelow(e: Env, t0: Table, t: Table)
    requires Contiguous(t0) && Partial(e, t0, t) && Nulls(t) != Nulls(t0)
    ensures forall y, x :: y in t && t[y].val.Some? && x in Nulls(t) ==> y < x
  {
    var z :| z in Nulls(t0) && z !in Nulls(t);
    forall y, x | y in t && t[y].val.Some? && x in Nulls(t) ensures y < x {
      if y !in Nulls(t0) {
        assert z < x && t0[y].val.Some?;
      }
    }
  }

  lemma BatchKeepsPartial(e: Env, t0: Table, t: Table, pick: set<RowId>, batch: nat)
    requires Simple(e, t0) && Partial(e, t0, t) && Lowest(pick, Nulls(t), batch)
    ensures var t' := Fill(t, pick, e.source);
            Partial(e, t0, t') && Nulls(t') == Nulls(t) - pick && |Nulls(t')| == |Nulls(t)| - |pick|
  {
    var t' := Fill(t, pick, e.source);
    forall i | i in t ensures t[i].data == t0[i].data {}
    assert Nulls(t') == Nulls(t) - pick;
    assert t' == Fill(t0, Nulls(t0) - Nulls(t'), e.source);
  }

  lemma UpdateKeeps(e: Env, t0: Table, c: Conf, batch: nat, pick: set<RowId>, rows: Table)
    requires Simple(e, t0) && FillInv(e, t0, c)
    requires After(e, c, Update(batch, pick, rows)).Some?
    ensures FillInv(e, t0, After(e, c, Update(batch, pick, rows)).value)
  {
    var n := Nulls(c.tab);
    assert NullsAbove(c.tab, c.pc.last) == n;
    BatchKeepsPartial(e, t0, c.tab, pick, batch);
    if pick == {} {
      assert |pick| == 0;
    } else {
      var i :| i in pick;
      assert i in SetAbove(rows, c.pc.last);
    }
  }

  lemma ReadMaxKeeps(e: Env, t0: Table, c: Conf, max: RowId)
    requires Contiguous(t0) && FillInv(e, t0, c)
    requires After(e, c, ReadMax(max)).Some?
    ensures FillInv(e, t0, After(e, c, ReadMax(max)).value)
  {
    FilledIsBelow(e, t0, c.tab);
  }

  lemma EnterKeeps(e: Env, t0: Table, c: Conf)
    requires Simple(e, t0) && FillInv(e, t0, c) && After(e, c, Enter).Some?
    ensures FillInv(e, t0, After(e, c, Enter).value)
  {
    if c.rec.state == Backfilling {
      assert NullsAbove(c.tab, Resume(c.rec.checkpoint).0) == Nulls(c.tab);
    }
  }

  lemma ExecKeeps(e: Env, t0: Table, c: Conf, sch: Schema, rows: Table, acked: bool)
    requires FillInv(e, t0, c)
    requires After(e, c, Exec(sch, rows, acked)).Some?
    ensures FillInv(e, t0, After(e, c, Exec(sch, rows, acked)).value)
  {
    var st := Statements(e.plan, c.rec.state)[c.pc.i];
    assert st in Statements(e.plan, c.rec.state);
  }

  lemma SaveKeeps(e: Env, t0: Table, c: Conf)
    requires Contiguous(t0) && FillInv(e, t0, c) && After(e, c, Save).Some?
    ensures FillInv(e, t0, After(e, c, Save).value)
  {
    if c.rec.state == Expanding { PartialStart(e, t0); }
    if c.rec.state == Backfilling { PartialEnd(e, t0, c.tab); }
  }

  lemma SaveProgressKeeps(e: Env, t0: Table, c: Conf)
    requires FillInv(e, t0, c) && After(e, c, SaveProgress).Some?
    ensures FillInv(e, t0, After(e, c, SaveProgress).value)
  {
  }

  /** The remaining actions touch neither the table nor the backfill's checkpoint. */
  lemma OthersKeep(e: Env, t0: Table, c: Conf, a: Action)
    requires a.Crash? || a.CountNulls? || a.Sample? || a.Observe? || a.Poll? || a.Gate?
    requires FillInv(e, t0, c) && After(e, c, a).Some?
    ensures FillInv(e, t0, After(e, c, a).value)
  {
    PcFitsStep(e, c, a);
  }

  lemma FillStep(e: Env, t0: Table, c: Conf, a: Action)
    requires Simple(e, t0) && Contiguous(t0)
    requires FillInv(e, t0, c) && !a.Write? && After(e, c, a).Some?
    ensures FillInv(e, t0, After(e, c, a).value)
  {
    match a
    case Update(batch, pick, rows) => UpdateKeeps(e, t0, c, batch, pick, rows);
    case ReadMax(max) => ReadMaxKeeps(e, t0, c, max);
    case SaveProgress => SaveProgressKeeps(e, t0, c);
    case Enter => EnterKeeps(e, t0, c);
    case Exec(sch, rows, acked) => ExecKeeps(e, t0, c, sch, rows, acked);
    case Save => SaveKeeps(e, t0, c);
    case _ => OthersKeep(e, t0, c, a);
  }

  lemma {:induction false} FillAlways(e: Env, t0: Table, c: Conf, acts: seq<Action>)
    requires Simple(e, t0) && Contiguous(t0)
    requires FillInv(e, t0, c) && Quiet(acts) && Play(e, c, acts).Some?
    ensures FillInv(e, t0, Play(e, c, acts).value)
  {
    if acts != [] {
      var front := acts[..|acts| - 1];
      FillAlways(e, t0, c, front);
      FillStep(e, t0, Play(e, c, front).value, acts[|acts| - 1]);
    }
  }

  predicate PastBackfill(s: State) { s in {Verifying, State.Canary, Cutover, Contracting, Done} }

  /** Crash-resumed equals one-shot, over whole runs from Pending: any batch sizes, crashes
      between any two database operations. */
  lemma CrashResumedEqualsOneShot(e: Env, c0: Conf, acts: seq<Action>)
    requires Initial(c0) && Quiet(acts) && Play(e, c0, acts).Some?
    requires Simple(e, c0.tab) && ExpandKeeps(e.plan) && Contiguous(c0.tab)
    ensures var c := Play(e, c0, acts).value;
            PastBackfill(c.rec.state) && (c.rec.state in {Contracting, Done} ==> ContractKeeps(e.plan)) ==>
              c.tab == OneShot(e, c0.tab) && IsFilled(e, c0.tab, c.tab)
  {
    FillAlways(e, c0.tab, c0, acts);
    OneShotIff(e, c0.tab, Play(e, c0, acts).value.tab);
  }
}
