/** A migration is never stuck: from whatever a crash leaves behind, the machine can still be
    driven to an end. */
module Resumption {
  import opened Options
  import opened Ddl
  import opened Plan
  import opened Storage
  import opened Rows
  import opened Lifecycle
  import opened Outcomes
  import opened Completeness
  import opened Exactness
  import CanaryPhase
  import Durable
  import Gate

  ghost predicate NeverTightens(ss: seq<Stmt>) { forall st :: st in ss ==> !st.SetNotNull? }

  /** Statement lists that can be re-run, of which the schema accepts expand and, after it, rollback,
      both without SET NOT NULL; a backfill of one column that expand leaves in place. */
  ghost predicate Sensible(e: Env, c0: Conf) {
    && AllResumable(e.plan) && ApplyAll(e.plan.expand, c0.sch).Some?
    && ApplyAll(e.plan.rollback, ApplyAll(e.plan.expand, c0.sch).value).Some?
    && NeverTightens(e.plan.expand) && NeverTightens(e.plan.rollback)
    && (e.plan.backfill.column != "" ==> SingleColumn(e.plan) && ExpandKeeps(e.plan))
  }

  /** No column other than the derived one is to be NOT NULL while some row is NULL in it. */
  ghost predicate NoGaps(e: Env, ss: seq<Stmt>, t: Table) {
    forall st :: st in ss && st.SetNotNull? && !IsDerived(e.plan, st.column) ==> !Sparse(e, st.column, t)
  }

  ghost predicate ContractWorks(e: Env, c0: Conf)
    requires ApplyAll(e.plan.expand, c0.sch).Some?
  {
    && ApplyAll(e.plan.contract, ApplyAll(e.plan.expand, c0.sch).value).Some?
    && NoGaps(e, e.plan.contract, c0.tab)
  }

  /** Generated lists are sensible, and contract works unless the plan defeats itself or requires a
      column, other than the one it fills, in which some row is NULL. */
  lemma GeneratedListsWork(e: Env, c0: Conf)
    requires IsGenerated(e.plan) && (e.plan.backfill.column != "" ==> e.plan.backfill.multiSql == "")
    ensures Sensible(e, c0)
    ensures ContractWorks(e, c0) <==>
            && Required(e.plan.addColumns) !! Elements(e.plan.dropColumns)
            && forall x :: x in Required(e.plan.addColumns) && !IsDerived(e.plan, x) ==> !Sparse(e, x, c0.tab)
  {
    GeneratedSensible(e, c0);
    ContractAfterExpand(e.plan.table, e.plan.addColumns, e.plan.dropColumns, c0.sch);
    GeneratedGaps(e, c0.tab);
  }

  lemma GeneratedSensible(e: Env, c0: Conf)
    requires IsGenerated(e.plan) && (e.plan.backfill.column != "" ==> e.plan.backfill.multiSql == "")
    ensures Sensible(e, c0)
  {
    var p := e.plan;
    GeneratedResumable(p.table, p.addColumns, p.dropColumns);
    ListShapes(p.table, p.addColumns, p.dropColumns);
    ExpandEffect(p.table, p.addColumns, c0.sch);
    RollbackEffect(p.table, p.addColumns, ApplyAll(p.expand, c0.sch).value);
  }

  lemma GeneratedGaps(e: Env, t: Table)
    requires IsGenerated(e.plan)
    ensures NoGaps(e, e.plan.contract, t) <==>
            forall x :: x in Required(e.plan.addColumns) && !IsDerived(e.plan, x) ==> !Sparse(e, x, t)
  {
    var p := e.plan;
    ListShapes(p.table, p.addColumns, p.dropColumns);
    TightenedColumns(p.addColumns);
    if NoGaps(e, p.contract, t) {
      forall x | x in Required(p.addColumns) && !IsDerived(p, x) ensures !Sparse(e, x, t) {
        assert SetNotNull(x) in p.contract;
      }
    }
  }

  lemma {:induction false} TightenedColumns(add: seq<ColumnSpec>)
    ensures forall x :: SetNotNull(x) in NotNullsOf(add) <==> x in Required(add)
  {
    if add != [] {
      TightenedColumns(add[..|add| - 1]);
      RequiredLast(add);
    }
  }

  ghost predicate WayOut(p: MigrationPlan) {
    CanaryPhase.AllHealthy(p, |p.canarySteps|) || p.onFailure == OnRollback
  }

  /** The share of rows that have the source expression's value once every NULL row was filled. */
  function FilledShare(e: Env, t: Table): real {
    var f := OneShot(e, t);
    ShareOf(f, f.Keys, e.source)
  }

  /** The cutover gate will pass on the filled table. */
  predicate WillPass(e: Env, t: Table) {
    e.plan.backfill.column != "" ==> FilledShare(e, t) >= Threshold(e.plan)
  }

  /** The backfill fills the table, verify can pass, and the cutover gate will pass or may abort. */
  ghost predicate Backfillable(e: Env, t: Table) {
    && HasValues(e, t) && Contiguous(t) && Threshold(e.plan) <= 1.0
    && (WillPass(e, t) || (!SamplesAll(e.plan) && e.plan.onFailure == OnRollback))
  }

  ghost predicate ReachesContract(e: Env, t: Table) {
    CanaryPhase.AllHealthy(e.plan, |e.plan.canarySteps|) && WillPass(e, t)
  }

  /** Each phase can be left: the canary has a way out, a backfill can be completed and gets past
      both of its gates, and contract works if it is ever reached. */
  ghost predicate Finishable(e: Env, c0: Conf)
    requires Sensible(e, c0)
  {
    && WayOut(e.plan)
    && (e.plan.backfill.column != "" ==> Backfillable(e, c0.tab))
    && (ReachesContract(e, c0.tab) ==> ContractWorks(e, c0))
  }

  /** A crash-free continuation without foreign writes that ends in c'. */
  ghost predicate Leads(e: Env, c: Conf, acts: seq<Action>, c': Conf) {
    Quiet(acts) && Play(e, c, acts) == Some(c')
  }

  lemma Then(e: Env, c: Conf, a: seq<Action>, c1: Conf, x: Action)
    requires Leads(e, c, a, c1) && !x.Write? && After(e, c1, x).Some?
    ensures Leads(e, c, a + [x], After(e, c1, x).value)
  {
    PlayThen(e, c, a, x);
  }

  lemma Joined(e: Env, c: Conf, a: seq<Action>, c1: Conf, b: seq<Action>, c2: Conf)
    requires Leads(e, c, a, c1) && Leads(e, c1, b, c2)
    ensures Leads(e, c, a + b, c2)
  {
    PlayConcat(e, c, a, b);
  }

  /* ---------- One state at a time ---------- */

  /** Whatever prefix of the list took effect before the crash, the next statement can run. */
  lemma NextStatementRuns(ss: seq<Stmt>, from: Schema, s: Schema, i: nat)
    requires Resumable(ss) && i < |ss| && HighWater(ss, from, s, i) && ApplyAll(ss, from).Some?
    ensures Apply(ss[i], s).Some?
  {
    var k :| i <= k <= |ss| && ApplyAll(ss[..k], from) == Some(s);
    if k == i {
      ApplyAllPrefix(ss, i + 1, from);
      ApplyAllStep(ss, i, from);
    } else {
      InertAfter(ss, from, k, i);
    }
  }

  /** No statement is blocked, and none drops the derived column while another tightens it. */
  ghost predicate Unblocked(e: Env, ss: seq<Stmt>, t: Table) {
    && (forall st :: st in ss ==> !Blocked(e, st, t))
    && ((exists st :: st in ss && st.SetNotNull? && IsDerived(e.plan, st.column)) ==> Leave(e.plan, ss))
  }

  lemma RunsOn(e: Env, ss: seq<Stmt>, t: Table, i: nat)
    requires i < |ss| && Unblocked(e, ss, t)
    ensures Unblocked(e, ss, RowsAfter(e, ss[i], t))
  {
    var t' := RowsAfter(e, ss[i], t);
    assert ss[i] in ss;
    forall x ensures Sparse(e, x, t') <==> Sparse(e, x, t) { SparseIsData(e, x, t, t'); }
    forall st | st in ss ensures !Blocked(e, st, t') {
      assert !Blocked(e, st, t);
    }
  }

  /** Whether a column other than the derived one has gaps is a matter of the rows' data. */
  ghost predicate SameData(t: Table, t': Table) { t.Keys == t'.Keys && forall i :: i in t ==> t[i].data == t'[i].data }

  lemma SparseIsData(e: Env, column: string, t: Table, t': Table)
    requires SameData(t, t')
    ensures Sparse(e, column, t) <==> Sparse(e, column, t')
  {
    if Sparse(e, column, t) {
      var i :| i in t && e.blank(column, t[i].data);
      assert i in t' && e.blank(column, t'[i].data);
    }
    if Sparse(e, column, t') {
      var i :| i in t' && e.blank(column, t'[i].data);
      assert i in t && e.blank(column, t[i].data);
    }
  }

  lemma {:induction false} RunStatements(e: Env, from: Schema, c: Conf) returns (acts: seq<Action>, c': Conf)
    requires var ss := Statements(e.plan, c.rec.state);
             && c.pc.Stmt? && c.pc.i <= |ss| && Resumable(ss)
             && HighWater(ss, from, c.sch, c.pc.i) && ApplyAll(ss, from).Some? && Unblocked(e, ss, c.tab)
    ensures Leads(e, c, acts, c') && c'.rec == c.rec && c'.pc == Stmt(|Statements(e.plan, c.rec.state)|)
    ensures Leave(e.plan, Statements(e.plan, c.rec.state)) ==> c'.tab == c.tab
    decreases |Statements(e.plan, c.rec.state)| - c.pc.i
  {
    var ss := Statements(e.plan, c.rec.state);
    if c.pc.i == |ss| {
      acts, c' := [], c;
    } else {
      NextStatementRuns(ss, from, c.sch, c.pc.i);
      HighWaterStep(ss, from, c.sch, c.pc.i);
      var x := Exec(Apply(ss[c.pc.i], c.sch).value, RowsAfter(e, ss[c.pc.i], c.tab), true);
      var c1 := After(e, c, x).value;
      assert ss[c.pc.i] in ss;
      PlayOne(e, c, x);
      RunsOn(e, ss, c.tab, c.pc.i);
      var rest;
      rest, c' := RunStatements(e, from, c1);
      Joined(e, c, [x], c1, rest, c');
      acts := [x] + rest;
    }
  }

  /** A whole statement handler, entered from scratch. */
  lemma StatementHandler(e: Env, from: Schema, c: Conf) returns (acts: seq<Action>, c': Conf)
    requires c.rec.state in {Expanding, Contracting, RollingBack} && c.pc.Down?
    requires var ss := Statements(e.plan, c.rec.state);
             && Resumable(ss) && HighWater(ss, from, c.sch, 0) && ApplyAll(ss, from).Some?
             && Unblocked(e, ss, c.tab)
    ensures Leads(e, c, acts, c') && c'.pc.Down? && Some(c'.rec.state) == Next(c.rec.state)
    ensures c.rec.state == Expanding && ExpandKeeps(e.plan) ==> c'.tab == c.tab && !c'.rec.checkpoint.Progress?
  {
    var c1 := c.(pc := Stmt(0));
    PlayOne(e, c, Enter);
    var rest, c2 := RunStatements(e, from, c1);
    Joined(e, c, [Enter], c1, rest, c2);
    Then(e, c, [Enter] + rest, c2, Save);
    acts, c' := [Enter] + rest + [Save], After(e, c2, Save).value;
  }

  /** The backfill loop always ends, with batches of one row for any table. */
  lemma {:induction false} LoopEnds(e: Env, c: Conf) returns (acts: seq<Action>, c': Conf)
    requires e.plan.backfill.multiSql == "" && c.rec.state == Backfilling && c.pc.Head? && PcFits(e, c)
    ensures Leads(e, c, acts, c') && c'.rec.state == Backfilling && c'.pc.Exit? && c'.pc.to == Verifying
    decreases MAX_ID - c.pc.last
  {
    var pick;
    acts, pick := OneIteration(e, c);
    c' := Play(e, c, acts).value;
    if c'.pc.Head? {
      var c1, rest := c', [];
      rest, c' := LoopEnds(e, c1);
      Joined(e, c, acts, c1, rest, c');
      acts := acts + rest;
    }
  }

  lemma BackfillHandler(e: Env, c: Conf) returns (acts: seq<Action>, c': Conf)
    requires c.rec.state == Backfilling && c.pc.Down?
    requires e.plan.backfill.column != "" ==> e.plan.backfill.multiSql == ""
    ensures Leads(e, c, acts, c') && c'.pc.Down? && c'.rec.state == Verifying
  {
    var c1 := After(e, c, Enter).value;
    PlayOne(e, c, Enter);
    acts := [Enter];
    if e.plan.backfill.column != "" {
      var rest, c2 := LoopEnds(e, c1);
      Joined(e, c, [Enter], c1, rest, c2);
      acts, c1 := acts + rest, c2;
    }
    Then(e, c, acts, c1, Save);
    acts, c' := acts + [Save], After(e, c1, Save).value;
  }

  lemma ParityAtMostOne(t: Table, ids: set<RowId>, f: Source)
    ensures ShareOf(t, ids, f) <= 1.0
  {
    if |ids| > 0 {
      SubsetSize(Matching(t, ids, f), ids);
      AtMostOne(Rows.Matches(t, ids, f) as real, |ids| as real);
    }
  }

  lemma AtMostOne(a: real, b: real)
    requires a <= b && b > 0.0
    ensures a / b <= 1.0
  {
    assert (a / b) * b == a;
  }

  /** Without NULL rows the cutover gate asks what a sample of the whole table does. */
  lemma GateIsWholeSample(e: Env, t: Table)
    requires Nulls(t) == {}
    ensures GatePasses(e, t) <==> ShareOf(t, t.Keys, e.source) >= Threshold(e.plan)
  {
    assert Matching(t, t.Keys, e.source) == t.Keys - Drifted(t, e.source);
    assert t.Keys == Matching(t, t.Keys, e.source) + Drifted(t, e.source);
    assert |t.Keys| == |t|;
  }

  lemma FilledHasNoNulls(e: Env, t: Table)
    requires HasValues(e, t)
    ensures Nulls(OneShot(e, t)) == {}
  {
    var f := OneShot(e, t);
    forall i | i in f ensures f[i].val.Some? {
      if t[i].val.None? { assert i in Nulls(t); }
    }
  }

  /** The sample with which verify passes if it can. */
  function BestSample(p: MigrationPlan, t: Table): set<RowId> { if SamplesAll(p) then t.Keys else {} }

  lemma BestSamplePasses(e: Env, c: Conf)
    requires c.pc.SampleGate? && Threshold(e.plan) <= 1.0
    requires SamplesAll(e.plan) ==> ShareOf(c.tab, c.tab.Keys, e.source) >= Threshold(e.plan)
    ensures var c' := After(e, c, Sample(BestSample(e.plan, c.tab)));
            c'.Some? && c'.value.pc.Exit? && c'.value.pc.to == State.Canary && c'.value.rec == c.rec
  {
  }

  lemma VerifyHandler(e: Env, c: Conf) returns (acts: seq<Action>, c': Conf)
    requires c.rec.state == Verifying && c.pc.Down?
    requires e.plan.backfill.column != "" ==>
               && Nulls(c.tab) == {} && Threshold(e.plan) <= 1.0
               && (SamplesAll(e.plan) ==> ShareOf(c.tab, c.tab.Keys, e.source) >= Threshold(e.plan))
    ensures Leads(e, c, acts, c') && c'.pc.Down? && c'.rec.state == State.Canary
  {
    var c1 := After(e, c, Enter).value;
    PlayOne(e, c, Enter);
    acts := [Enter];
    if e.plan.backfill.column != "" {
      Then(e, c, acts, c1, CountNulls);
      acts, c1 := acts + [CountNulls], After(e, c1, CountNulls).value;
      BestSamplePasses(e, c1);
      var x := Sample(BestSample(e.plan, c.tab));
      Then(e, c, acts, c1, x);
      acts, c1 := acts + [x], After(e, c1, x).value;
    }
    Then(e, c, acts, c1, Save);
    acts, c' := acts + [Save], After(e, c1, Save).value;
  }

  lemma {:induction false} WalkSteps(e: Env, c: Conf) returns (acts: seq<Action>, c': Conf)
    requires c.rec.state == State.Canary && c.pc.Steps? && CanaryPhase.AllHealthy(e.plan, c.pc.i)
    requires WayOut(e.plan)
    ensures Leads(e, c, acts, c') && c'.rec.state == State.Canary && PcFits(e, c') && Leaving(e, c').Some?
    ensures CanaryPhase.AllHealthy(e.plan, |e.plan.canarySteps|) ==> Leaving(e, c').value.0 == State.Cutover
    decreases |e.plan.canarySteps| - c.pc.i
  {
    if c.pc.i == |e.plan.canarySteps| {
      acts, c' := [], c;
    } else {
      PlayOne(e, c, Observe);
      acts, c' := [Observe], After(e, c, Observe).value;
      if c'.pc.Steps? {
        var c1, rest := c', [];
        rest, c' := WalkSteps(e, c1);
        Joined(e, c, acts, c1, rest, c');
        acts := acts + rest;
      }
    }
  }

  lemma CanaryHandler(e: Env, c: Conf) returns (acts: seq<Action>, c': Conf)
    requires c.rec.state == State.Canary && c.pc.Down?
    requires WayOut(e.plan)
    ensures Leads(e, c, acts, c') && c'.pc.Down? && Durable.Edge(State.Canary, c'.rec.state)
    ensures CanaryPhase.AllHealthy(e.plan, |e.plan.canarySteps|) ==> c'.rec.state == State.Cutover
  {
    var c1 := c.(pc := Steps(0));
    PlayOne(e, c, Enter);
    var rest, c2 := WalkSteps(e, c1);
    Joined(e, c, [Enter], c1, rest, c2);
    Durable.LeavingFollowsEdge(e, c2);
    Then(e, c, [Enter] + rest, c2, Save);
    acts, c' := [Enter] + rest + [Save], After(e, c2, Save).value;
  }

  lemma CutoverPasses(e: Env, c: Conf) returns (acts: seq<Action>, c': Conf)
    requires c.rec.state == State.Cutover && c.pc.Down?
    requires e.plan.backfill.column != "" ==> GatePasses(e, c.tab)
    ensures Leads(e, c, acts, c') && c'.pc.Down? && c'.rec.state == Contracting
  {
    var c1 := c.(pc := Polling);
    PlayOne(e, c, Enter);
    var x := Poll(AllReady, AllReady);
    Then(e, c, [Enter], c1, x);
    acts, c1 := [Enter] + [x], After(e, c1, x).value;
    if e.plan.backfill.column != "" {
      Then(e, c, acts, c1, Gate);
      acts, c1 := acts + [Gate], After(e, c1, Gate).value;
    }
    Then(e, c, acts, c1, Save);
    acts, c' := acts + [Save], After(e, c1, Save).value;
  }

  /** Services that are not ready twice abort the cutover. */
  lemma CutoverAborts(e: Env, c: Conf) returns (acts: seq<Action>, c': Conf)
    requires c.rec.state == State.Cutover && c.pc.Down? && e.plan.onFailure == OnRollback
    ensures Leads(e, c, acts, c') && c'.pc.Down? && c'.rec.state == RollingBack
  {
    var c1 := c.(pc := Polling);
    PlayOne(e, c, Enter);
    var x := Poll(SomeNotReady, SomeNotReady);
    Then(e, c, [Enter], c1, x);
    var c2 := After(e, c1, x).value;
    Then(e, c, [Enter] + [x], c2, Save);
    acts, c' := [Enter] + [x] + [Save], After(e, c2, Save).value;
  }

  lemma PendingHandler(e: Env, c: Conf) returns (acts: seq<Action>, c': Conf)
    requires c.rec.state == Pending && c.pc.Down?
    ensures Leads(e, c, acts, c') && c'.pc.Down? && c'.rec.state == Expanding && c'.sch == c.sch && c'.tab == c.tab
  {
    var c1 := After(e, c, Enter).value;
    PlayOne(e, c, Enter);
    Then(e, c, [Enter], c1, Save);
    acts, c' := [Enter] + [Save], After(e, c1, Save).value;
  }

  /* ---------- The whole way ---------- */

  /** Everything Finishable asks but that contract works. */
  ghost predicate Drivable(e: Env, c0: Conf) {
    Sensible(e, c0) && WayOut(e.plan) && (e.plan.backfill.column != "" ==> Backfillable(e, c0.tab))
  }

  /** What the gates will see. */
  lemma FilledWhenPast(e: Env, c0: Conf, acts: seq<Action>, c: Conf)
    requires Initial(c0) && Leads(e, c0, acts, c) && e.plan.backfill.column != ""
    requires Sensible(e, c0) && HasValues(e, c0.tab) && Contiguous(c0.tab)
    requires c.rec.state in {Verifying, State.Canary, State.Cutover}
    ensures c.tab == OneShot(e, c0.tab) && Nulls(c.tab) == {}
    ensures GatePasses(e, c.tab) <==> WillPass(e, c0.tab)
  {
    CrashResumedEqualsOneShot(e, c0, acts);
    FilledHasNoNulls(e, c0.tab);
    GateIsWholeSample(e, c.tab);
  }

  /** Only a plan with a backfill column enters the loop. */
  predicate LoopFits(p: MigrationPlan, pc: Pc) {
    pc.Head? || pc.Updated? || pc.Advanced? ==> p.backfill.column != ""
  }

  lemma DataStep(e: Env, c: Conf, a: Action)
    requires AllResumable(e.plan) && (e.plan.backfill.column != "" ==> SingleColumn(e.plan))
    requires PcFits(e, c) && !a.Write? && After(e, c, a).Some? && LoopFits(e.plan, c.pc)
    ensures SameData(c.tab, After(e, c, a).value.tab) && LoopFits(e.plan, After(e, c, a).value.pc)
  {
  }

  /** Without foreign writes the driver leaves all other columns of the rows alone. */
  lemma {:induction false} DataAlways(e: Env, c0: Conf, acts: seq<Action>)
    requires Initial(c0) && Quiet(acts) && Play(e, c0, acts).Some?
    requires AllResumable(e.plan) && (e.plan.backfill.column != "" ==> SingleColumn(e.plan))
    ensures SameData(c0.tab, Play(e, c0, acts).value.tab) && LoopFits(e.plan, Play(e, c0, acts).value.pc)
  {
    if acts != [] {
      var front := acts[..|acts| - 1];
      DataAlways(e, c0, front);
      PcFitsAlways(e, c0, front);
      DataStep(e, Play(e, c0, front).value, acts[|acts| - 1]);
    }
  }

  lemma DroppedIsGone(ss: seq<Stmt>, from: Schema, i: nat, j: nat, column: string)
    requires Resumable(ss) && j < i < |ss| && ss[j] == DropColumn(column) && ss[i] == SetNotNull(column)
    requires ApplyAll(ss[..i], from).Some?
    ensures ApplyAll(ss[..i + 1], from).None?
  {
    var m := ApplyAll(ss[..i], from).value;
    InertAfter(ss, from, i, j);
    assert column !in Apply(ss[j], m).value.cols;
    ApplyAllStep(ss, i, from);
  }

  lemma DropComesFirst(ss: seq<Stmt>, i: nat, j: nat, column: string)
    requires Resumable(ss) && i < |ss| && j < |ss| && ss[j] == DropColumn(column) && ss[i] == SetNotNull(column)
    ensures j < i
  {
  }

  lemma NeverBoth(ss: seq<Stmt>, from: Schema, i: nat, j: nat, column: string)
    requires Resumable(ss) && i < |ss| && j < |ss| && ss[j] == DropColumn(column) && ss[i] == SetNotNull(column)
    ensures ApplyAll(ss, from).None?
  {
    if ApplyAll(ss, from).Some? {
      DropComesFirst(ss, i, j, column);
      ApplyAllPrefix(ss, i, from);
      ApplyAllPrefix(ss, i + 1, from);
      DroppedIsGone(ss, from, i, j, column);
    }
  }

  /** A list the schema accepts does not drop a column that it tightens. */
  lemma TightensWhatStays(ss: seq<Stmt>, from: Schema, column: string)
    requires Resumable(ss) && ApplyAll(ss, from).Some? && SetNotNull(column) in ss
    ensures DropColumn(column) !in ss
  {
    var i :| 0 <= i < |ss| && ss[i] == SetNotNull(column);
    forall j | 0 <= j < |ss| ensures ss[j] != DropColumn(column) {
      if ss[j] == DropColumn(column) { NeverBoth(ss, from, i, j, column); }
    }
  }

  lemma UnblockedWithoutTightening(e: Env, ss: seq<Stmt>, t: Table)
    requires NeverTightens(ss)
    ensures Unblocked(e, ss, t)
  {
  }

  /** Nothing blocks contract where the run has brought it. */
  lemma ContractUnblocked(e: Env, c0: Conf, acts: seq<Action>, c: Conf)
    requires Initial(c0) && Drivable(e, c0) && Leads(e, c0, acts, c) && c.rec.state == Contracting
    requires ContractWorks(e, c0)
    ensures Unblocked(e, e.plan.contract, c.tab)
  {
    var ss := e.plan.contract;
    DataAlways(e, c0, acts);
    if st :| st in ss && st.SetNotNull? && IsDerived(e.plan, st.column) {
      TightensWhatStays(ss, ApplyAll(e.plan.expand, c0.sch).value, st.column);
      NoRawInside(ss);
      assert ContractKeeps(e.plan);
      CrashResumedEqualsOneShot(e, c0, acts);
      FilledHasNoNulls(e, c0.tab);
    }
    forall st | st in ss ensures !Blocked(e, st, c.tab) {
      SparseIsData(e, if st.SetNotNull? then st.column else "", c0.tab, c.tab);
    }
  }

  lemma NoRawInside(ss: seq<Stmt>)
    requires Resumable(ss)
    ensures forall st :: st in ss ==> !st.Raw?
  {
  }

  lemma FromVerifying(e: Env, c0: Conf, acts: seq<Action>, c: Conf) returns (more: seq<Action>, c': Conf)
    requires Initial(c0) && Drivable(e, c0) && Leads(e, c0, acts, c) && c.pc.Down? && c.rec.state == Verifying
    ensures Leads(e, c, more, c') && c'.pc.Down? && c'.rec.state == State.Canary
  {
    if e.plan.backfill.column != "" { FilledWhenPast(e, c0, acts, c); }
    more, c' := VerifyHandler(e, c);
  }

  lemma FromCutover(e: Env, c0: Conf, acts: seq<Action>, c: Conf) returns (more: seq<Action>, c': Conf)
    requires Initial(c0) && Drivable(e, c0) && Leads(e, c0, acts, c) && c.pc.Down? && c.rec.state == State.Cutover
    ensures Leads(e, c, more, c') && c'.pc.Down?
    ensures c'.rec.state == if WillPass(e, c0.tab) then Contracting else RollingBack
  {
    if e.plan.backfill.column != "" { FilledWhenPast(e, c0, acts, c); }
    if WillPass(e, c0.tab) { more, c' := CutoverPasses(e, c); } else { more, c' := CutoverAborts(e, c); }
  }

  /** From a crashed driver to the next state, forward as long as contract can be reached. */
  lemma NextState(e: Env, c0: Conf, acts: seq<Action>, c: Conf) returns (more: seq<Action>, c': Conf)
    requires Initial(c0) && Drivable(e, c0)
    requires Leads(e, c0, acts, c) && c.pc.Down? && !IsTerminal(c.rec.state)
    requires c.rec.state == Contracting ==> ContractWorks(e, c0)
    ensures Leads(e, c, more, c') && c'.pc.Down? && Durable.Edge(c.rec.state, c'.rec.state)
    ensures ReachesContract(e, c0.tab) ==> Some(c'.rec.state) == Next(c.rec.state)
  {
    SchemaAlways(e, c0, acts);
    var s1 := ApplyAll(e.plan.expand, c0.sch).value;
    match c.rec.state
    case Pending => more, c' := PendingHandler(e, c);
    case Expanding =>
      UnblockedWithoutTightening(e, e.plan.expand, c.tab);
      more, c' := StatementHandler(e, c0.sch, c);
    case Backfilling => more, c' := BackfillHandler(e, c);
    case Verifying => more, c' := FromVerifying(e, c0, acts, c);
    case Canary => more, c' := CanaryHandler(e, c);
    case Cutover => more, c' := FromCutover(e, c0, acts, c);
    case Contracting =>
      ContractUnblocked(e, c0, acts, c);
      more, c' := StatementHandler(e, s1, c);
    case RollingBack =>
      UnblockedWithoutTightening(e, e.plan.rollback, c.tab);
      more, c' := StatementHandler(e, s1, c);
  }

  lemma {:induction false} FinishFrom(e: Env, c0: Conf, acts: seq<Action>, c: Conf)
    returns (more: seq<Action>, c': Conf)
    requires Initial(c0) && Sensible(e, c0) && Finishable(e, c0) && Leads(e, c0, acts, c) && c.pc.Down?
    ensures Leads(e, c, more, c') && IsTerminal(c'.rec.state)
    decreases Durable.Rank(c.rec.state)
  {
    if IsTerminal(c.rec.state) {
      more, c' := [], c;
    } else {
      var c1;
      if c.rec.state == Contracting { ForwardMeans(e, c0, acts, c); }
      more, c1 := NextState(e, c0, acts, c);
      Durable.EdgeLowersRank(c.rec.state, c1.rec.state);
      Joined(e, c0, acts, c, more, c1);
      var rest;
      rest, c' := FinishFrom(e, c0, acts + more, c1);
      Joined(e, c, more, c1, rest, c');
      more := more + rest;
    }
  }

  /** However the driver is killed after these actions, the migration can still be driven to an end. */
  ghost predicate CanEnd(e: Env, c0: Conf, acts: seq<Action>) {
    exists more :: Quiet(more) && Ends(e, c0, acts + [Crash] + more)
  }

  ghost predicate Ends(e: Env, c0: Conf, acts: seq<Action>) {
    Play(e, c0, acts).Some? && IsTerminal(Play(e, c0, acts).value.rec.state)
  }

  ghost predicate NeverStuck(e: Env, c0: Conf) {
    forall acts :: Quiet(acts) && Play(e, c0, acts).Some? ==> CanEnd(e, c0, acts)
  }

  lemma EndsAfter(e: Env, c0: Conf, acts: seq<Action>)
    requires Initial(c0) && Sensible(e, c0) && Finishable(e, c0) && Quiet(acts) && Play(e, c0, acts).Some?
    ensures CanEnd(e, c0, acts)
  {
    var c := Play(e, c0, acts).value;
    Then(e, c0, acts, c, Crash);
    var more, c' := FinishFrom(e, c0, acts + [Crash], c.(pc := Down));
    Joined(e, c0, acts + [Crash], c.(pc := Down), more, c');
    assert Ends(e, c0, acts + [Crash] + more);
  }

  /* ---------- What having come this far means ---------- */

  /** Past the canary going forward every step was healthy; going back, the plan says rollback. */
  ghost predicate SideInv(p: MigrationPlan, s: State) {
    && (s in {State.Cutover, Contracting, Done} ==> CanaryPhase.AllHealthy(p, |p.canarySteps|))
    && (s in {RollingBack, RolledBack} ==> p.onFailure == OnRollback)
  }

  lemma {:induction false} SideMeans(e: Env, c0: Conf, acts: seq<Action>)
    requires Initial(c0) && Play(e, c0, acts).Some?
    ensures SideInv(e.plan, Play(e, c0, acts).value.rec.state)
  {
    if acts != [] {
      var front := acts[..|acts| - 1];
      SideMeans(e, c0, front);
      PcFitsAlways(e, c0, front);
      CanaryPhase.CanaryAlways(e, c0, front);
      SideStep(e, Play(e, c0, front).value, acts[|acts| - 1]);
    }
  }

  lemma SideStep(e: Env, c: Conf, a: Action)
    requires PcFits(e, c) && CanaryPhase.CanaryInv(e, c) && SideInv(e.plan, c.rec.state) && After(e, c, a).Some?
    ensures SideInv(e.plan, After(e, c, a).value.rec.state)
  {
  }

  /** When some step breaches and on_failure is not rollback, no run ever gets past the canary. */
  lemma PausedBreachNeverEnds(e: Env, c0: Conf, acts: seq<Action>)
    requires Initial(c0) && Play(e, c0, acts).Some? && !WayOut(e.plan)
    ensures Play(e, c0, acts).value.rec.state in {Pending, Expanding, Backfilling, Verifying, State.Canary}
  {
    SideMeans(e, c0, acts);
  }

  lemma AtIsReached(e: Env, c0: Conf, acts: seq<Action>, i: nat)
    requires i <= |acts| && Quiet(acts) && Play(e, c0, acts).Some?
    ensures Leads(e, c0, acts[..i], At(e, c0, acts, i))
  {
    PlayPrefix(e, c0, acts, i);
    assert forall a :: a in acts[..i] ==> a in acts;
  }

  lemma SampledInVerifying(e: Env, c: Conf)
    requires PcFits(e, c) && c.pc.SampleGate?
    ensures c.rec.state == Verifying
  {
  }

  /** A run past Verifying has met a sample that reached the thresholds: they are at most 1, and a
      whole-table sample has the share of the filled table. */
  lemma PastVerifyMeans(e: Env, c0: Conf, acts: seq<Action>)
    requires Initial(c0) && Play(e, c0, acts).Some? && e.plan.backfill.column != ""
    requires Gate.PastVerify(Play(e, c0, acts).value)
    ensures Threshold(e.plan) <= 1.0
    ensures Quiet(acts) && Sensible(e, c0) && HasValues(e, c0.tab) && Contiguous(c0.tab) && SamplesAll(e.plan) ==>
              FilledShare(e, c0.tab) >= Threshold(e.plan)
  {
    assert acts[..|acts|] == acts;
    Gate.SampleBeforeCanary(e, c0, acts, |acts|);
    var i :| 0 <= i < |acts| && Gate.SampledAt(e, c0, acts, i);
    var c := At(e, c0, acts, i);
    ParityAtMostOne(c.tab, acts[i].ids, e.source);
    AtStep(e, c0, acts, i);
    PlayPrefix(e, c0, acts, i);
    PcFitsAlways(e, c0, acts[..i]);
    SampledInVerifying(e, c);
    if Quiet(acts) && Sensible(e, c0) && HasValues(e, c0.tab) && Contiguous(c0.tab) {
      AtIsReached(e, c0, acts, i);
      FilledWhenPast(e, c0, acts[..i], c);
    }
  }

  /** A parity threshold above 1 is never reached. */
  lemma ThresholdNeverReached(e: Env, c0: Conf, acts: seq<Action>)
    requires Initial(c0) && Play(e, c0, acts).Some? && e.plan.backfill.column != "" && Threshold(e.plan) > 1.0
    ensures Play(e, c0, acts).value.rec.state in {Pending, Expanding, Backfilling, Verifying}
  {
    if Gate.PastVerify(Play(e, c0, acts).value) { PastVerifyMeans(e, c0, acts); }
  }

  /** A run that contracts has passed the gate on the filled table, after a healthy canary. */
  lemma ForwardMeans(e: Env, c0: Conf, acts: seq<Action>, c: Conf)
    requires Initial(c0) && Sensible(e, c0) && Leads(e, c0, acts, c) && c.rec.state in {Contracting, Done}
    requires e.plan.backfill.column != "" ==> HasValues(e, c0.tab) && Contiguous(c0.tab)
    ensures ReachesContract(e, c0.tab)
  {
    SideMeans(e, c0, acts);
    if e.plan.backfill.column != "" {
      assert acts[..|acts|] == acts;
      Gate.PastGateMeansPassed(e, c0, acts, |acts|);
      var i :| 0 <= i < |acts| && Gate.PassedAt(e, c0, acts, i);
      AtIsReached(e, c0, acts, i);
      FilledWhenPast(e, c0, acts[..i], At(e, c0, acts, i));
    }
  }

  /** The statements that this pass of contract has run asked for no column with gaps. */
  ghost predicate NoGapsSoFar(e: Env, t: Table, c: Conf) {
    && (c.rec.state == Contracting && c.pc.Stmt? && c.pc.i <= |e.plan.contract| ==>
          NoGaps(e, e.plan.contract[..c.pc.i], t))
    && (c.rec.state == Done ==> NoGaps(e, e.plan.contract, t))
  }

  lemma NoGapsStep(e: Env, t: Table, c: Conf, a: Action)
    requires AllResumable(e.plan) && PcFits(e, c) && NoGapsSoFar(e, t, c) && After(e, c, a).Some?
    requires SameData(t, c.tab)
    ensures NoGapsSoFar(e, t, After(e, c, a).value)
  {
    var ss := e.plan.contract;
    match a
    case Exec(_, _, _) => if c.rec.state == Contracting { NoGapsOneMore(e, t, c, a); }
    case Save => assert ss[..|ss|] == ss;
    case Enter => assert ss[..0] == [];
    case _ => PcFitsStep(e, c, a);
  }

  lemma NoGapsOneMore(e: Env, t: Table, c: Conf, a: Action)
    requires Resumable(e.plan.contract) && c.rec.state == Contracting && a.Exec? && After(e, c, a).Some?
    requires NoGaps(e, e.plan.contract[..c.pc.i], t) && SameData(t, c.tab)
    ensures NoGaps(e, e.plan.contract[..c.pc.i + 1], t)
  {
    var st := e.plan.contract[c.pc.i];
    if st.SetNotNull? { SparseIsData(e, st.column, t, c.tab); }
    assert e.plan.contract[..c.pc.i + 1] == e.plan.contract[..c.pc.i] + [st];
  }

  lemma {:induction false} NoGapsAlways(e: Env, c0: Conf, acts: seq<Action>)
    requires Initial(c0) && Sensible(e, c0) && Quiet(acts) && Play(e, c0, acts).Some?
    ensures NoGapsSoFar(e, c0.tab, Play(e, c0, acts).value)
  {
    if acts != [] {
      var front := acts[..|acts| - 1];
      NoGapsAlways(e, c0, front);
      PcFitsAlways(e, c0, front);
      DataAlways(e, c0, front);
      NoGapsStep(e, c0.tab, Play(e, c0, front).value, acts[|acts| - 1]);
    }
  }

  /** On a table the backfill completes, an ended migration got past both gates, and contract worked
      if it was reached. */
  lemma EndMeans(e: Env, c0: Conf, acts: seq<Action>, c: Conf)
    requires Initial(c0) && Sensible(e, c0) && Leads(e, c0, acts, c) && IsTerminal(c.rec.state)
    requires e.plan.backfill.column != "" ==> HasValues(e, c0.tab) && Contiguous(c0.tab)
    ensures Drivable(e, c0)
    ensures c.rec.state == Done ==> ContractWorks(e, c0)
  {
    SideMeans(e, c0, acts);
    SchemaAlways(e, c0, acts);
    NoGapsAlways(e, c0, acts);
    if c.rec.state == Done { ForwardMeans(e, c0, acts, c); }
    if e.plan.backfill.column != "" { PastVerifyMeans(e, c0, acts); }
  }

  /* ---------- What holds a migration for good ---------- */

  lemma ReachesBackfill(e: Env, c0: Conf) returns (acts: seq<Action>, c: Conf)
    requires Initial(c0) && Sensible(e, c0) && e.plan.backfill.column != ""
    ensures Leads(e, c0, acts, c) && AtBackfill(c) && c.tab == c0.tab
  {
    var a1, c1 := PendingHandler(e, c0);
    HighWaterStart(e.plan.expand, c0.sch);
    UnblockedWithoutTightening(e, e.plan.expand, c1.tab);
    var a2;
    a2, c := StatementHandler(e, c0.sch, c1);
    Joined(e, c0, a1, c1, a2, c);
    acts := a1 + a2;
  }

  /** Row z is NULL and has no value to be filled with. */
  ghost predicate Unfillable(e: Env, t: Table, z: RowId) { z in Nulls(t) && e.source(t[z].data).None? }

  ghost predicate StaysNull(e: Env, c: Conf, z: RowId) {
    && PcFits(e, c) && c.rec.state !in {Pending, Expanding}
    && (c.rec.state in {Backfilling, Verifying} ==> Unfillable(e, c.tab, z))
  }

  lemma StaysNullStep(e: Env, c: Conf, z: RowId, a: Action)
    requires SingleColumn(e.plan) && StaysNull(e, c, z) && !a.Write? && After(e, c, a).Some?
    ensures StaysNull(e, After(e, c, a).value, z)
  {
    PcFitsStep(e, c, a);
  }

  lemma {:induction false} StaysNullAlways(e: Env, c: Conf, z: RowId, acts: seq<Action>)
    requires SingleColumn(e.plan) && StaysNull(e, c, z) && Quiet(acts) && Play(e, c, acts).Some?
    ensures StaysNull(e, Play(e, c, acts).value, z)
  {
    if acts != [] {
      var front := acts[..|acts| - 1];
      StaysNullAlways(e, c, z, front);
      StaysNullStep(e, Play(e, c, front).value, z, acts[|acts| - 1]);
    }
  }

  /** A row without a value to fill it with is NULL in Verifying. */
  lemma NoValueLeavesNull(e: Env, c: Conf) returns (acts: seq<Action>, c': Conf)
    requires AtBackfill(c) && SingleColumn(e.plan) && !HasValues(e, c.tab)
    ensures Leads(e, c, acts, c') && c'.rec.state == Verifying && c'.pc.Down? && Nulls(c'.tab) != {}
  {
    var z :| z in Nulls(c.tab) && e.source(c.tab[z].data).None?;
    acts, c' := BackfillHandler(e, c);
    StaysNullAlways(e, c, z, acts);
  }

  lemma SomeRunLeavesNull(e: Env, c: Conf) returns (acts: seq<Action>, c': Conf)
    requires AtBackfill(c) && SingleColumn(e.plan) && !(HasValues(e, c.tab) && Contiguous(c.tab))
    ensures Leads(e, c, acts, c') && c'.rec.state == Verifying && c'.pc.Down? && Nulls(c'.tab) != {}
  {
    if HasValues(e, c.tab) {
      var x;
      acts, x := LeavesOneBehind(e, c);
      c' := Play(e, c, acts).value;
    } else {
      acts, c' := NoValueLeavesNull(e, c);
    }
  }

  /** Every run, with any batch sizes and crashes, leaves the backfill without a NULL row exactly when
      the expression has a value on every NULL row and the table is contiguous. */
  lemma FillsEverythingIff(e: Env, c: Conf)
    requires AtBackfill(c) && SingleColumn(e.plan)
    ensures HasValues(e, c.tab) && Contiguous(c.tab) <==>
            forall acts :: Quiet(acts) && Play(e, c, acts).Some? && Play(e, c, acts).value.rec.state == Verifying
                           ==> Nulls(Play(e, c, acts).value.tab) == {}
  {
    if HasValues(e, c.tab) && Contiguous(c.tab) {
      CompletesIffContiguous(e, c);
    } else {
      var acts, c' := SomeRunLeavesNull(e, c);
    }
  }

  lemma HeldForGood(e: Env, c0: Conf, acts: seq<Action>, c: Conf)
    requires Leads(e, c0, acts, c) && e.plan.backfill.column != ""
    requires c.rec.state == Verifying && c.pc.Down? && Nulls(c.tab) != {}
    ensures !CanEnd(e, c0, acts)
  {
    forall more | Quiet(more) ensures !Ends(e, c0, acts + [Crash] + more) {
      assert acts + [Crash] + more == acts + ([Crash] + more);
      PlayConcat(e, c0, acts, [Crash] + more);
      if Play(e, c, [Crash] + more).Some? { NeverLeavesVerifying(e, c, [Crash] + more); }
    }
  }

  /** On a table the backfill does not complete some run ends up in Verifying for good. */
  lemma HeldInVerifying(e: Env, c0: Conf)
    requires Initial(c0) && Sensible(e, c0) && e.plan.backfill.column != ""
    requires !(HasValues(e, c0.tab) && Contiguous(c0.tab))
    ensures !NeverStuck(e, c0)
  {
    var before, c1 := ReachesBackfill(e, c0);
    var rest, c := SomeRunLeavesNull(e, c1);
    Joined(e, c0, before, c1, rest, c);
    HeldForGood(e, c0, before + rest, c);
  }

  /** From any state on the way there, on to Contracting. */
  lemma {:induction false} DriveToContract(e: Env, c0: Conf, acts: seq<Action>, c: Conf)
    returns (more: seq<Action>, c': Conf)
    requires Initial(c0) && Drivable(e, c0) && ReachesContract(e, c0.tab) && Leads(e, c0, acts, c) && c.pc.Down?
    requires Durable.Rank(c.rec.state) >= 1 && c.rec.state != RollingBack
    ensures Leads(e, c, more, c') && c'.rec.state == Contracting
    decreases Durable.Rank(c.rec.state)
  {
    if c.rec.state == Contracting {
      more, c' := [], c;
    } else {
      var c1;
      more, c1 := NextState(e, c0, acts, c);
      Durable.EdgeLowersRank(c.rec.state, c1.rec.state);
      Joined(e, c0, acts, c, more, c1);
      var rest;
      rest, c' := DriveToContract(e, c0, acts + more, c1);
      Joined(e, c, more, c1, rest, c');
      more := more + rest;
    }
  }

  /** A contract list that fails, once reached, holds the migration for good. */
  lemma HeldInContracting(e: Env, c0: Conf)
    requires Initial(c0) && Drivable(e, c0) && ReachesContract(e, c0.tab) && !ContractWorks(e, c0)
    ensures !NeverStuck(e, c0)
  {
    var acts, c := DriveToContract(e, c0, [], c0);
    forall more | Quiet(more) ensures !Ends(e, c0, acts + [Crash] + more) {
      var all := acts + [Crash] + more;
      if Ends(e, c0, all) {
        assert acts + ([Crash] + more) == all;
        NoWayBack(e, c0, acts, c, [Crash] + more);
        EndMeans(e, c0, all, Play(e, c0, all).value);
      }
    }
    assert !CanEnd(e, c0, acts);
  }

  lemma NoWayBack(e: Env, c0: Conf, acts: seq<Action>, c: Conf, more: seq<Action>)
    requires Initial(c0) && Leads(e, c0, acts, c) && c.rec.state == Contracting && Play(e, c0, acts + more).Some?
    ensures Play(e, c0, acts + more).value.rec.state in {Contracting, Done}
  {
    var all := acts + more;
    assert all[..|acts|] == acts && all[..|all|] == all;
    Gate.SideIsFinal(e, c0, all, |acts|, |all|);
  }

  /** A run that cannot be ended from the start. */
  lemma HeldFromStart(e: Env, c0: Conf)
    requires Initial(c0) && Sensible(e, c0) && !Drivable(e, c0)
    requires e.plan.backfill.column != "" ==> HasValues(e, c0.tab) && Contiguous(c0.tab)
    ensures !NeverStuck(e, c0)
  {
    forall more | Quiet(more) ensures !Ends(e, c0, [] + [Crash] + more) {
      var all := [] + [Crash] + more;
      if Ends(e, c0, all) { EndMeans(e, c0, all, Play(e, c0, all).value); }
    }
    assert !CanEnd(e, c0, []);
  }

  /** Kill the driver anywhere: after every run without foreign writes, with any crashes, lost
      acknowledgements and failures behind it, the migration can be driven to Done or RolledBack,
      if and only if each phase can be left. */
  lemma NeverStuckIff(e: Env, c0: Conf)
    requires Initial(c0) && Sensible(e, c0)
    ensures NeverStuck(e, c0) <==> Finishable(e, c0)
  {
    if Finishable(e, c0) {
      forall acts | Quiet(acts) && Play(e, c0, acts).Some? ensures CanEnd(e, c0, acts) {
        EndsAfter(e, c0, acts);
      }
    } else if e.plan.backfill.column != "" && !(HasValues(e, c0.tab) && Contiguous(c0.tab)) {
      HeldInVerifying(e, c0);
    } else if Drivable(e, c0) {
      HeldInContracting(e, c0);
    } else {
      HeldFromStart(e, c0);
    }
  }

  /** Drift in rows the backfill does not touch can hold a migration: one row whose value is not the
      expression's, and a threshold it misses. */
  lemma DriftHolds(e: Env, c0: Conf)
    requires Initial(c0) && Sensible(e, c0) && e.plan.backfill.column != "" && SamplesAll(e.plan)
    requires c0.tab == map[1 := Row(7, Some(0))] && e.source(7) == Some(1) && Threshold(e.plan) > 0.0
    ensures !NeverStuck(e, c0)
  {
    OneDrifted(c0.tab, e.source);
    assert OneShot(e, c0.tab) == c0.tab;
    NeverStuckIff(e, c0);
  }

  lemma OneDrifted(t: Table, f: Source)
    requires t == map[1 := Row(7, Some(0))] && f(7) == Some(1)
    ensures Matching(t, t.Keys, f) == {} && |t| == 1 && Nulls(t) == {} && Fill(t, {}, f) == t
  {
    assert t[1] == Row(7, Some(0));
  }
}
