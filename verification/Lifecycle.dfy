/** The migration lifecycle as a transition system over the durable record, the target
    schema and the target table. One action is one database operation of the driver, a
    crash, or a write by some other client. Whatever the driver keeps in memory is in pc
    and is lost in a crash. */
module Lifecycle {
  import opened Options
  import opened Ddl
  import opened Plan
  import opened Storage
  import opened Rows

  /** The plan, the meaning of its source expression on a row, and whether a row with that data is
      NULL in some other column, as every row is in a column just added. */
  datatype Env = Env(plan: MigrationPlan, source: Source, blank: (string, int) -> bool)

  /** Where the driver is inside the handler of the current state. */
  datatype Pc =
    | Down                                                        // no handler entered
    | Stmt(i: nat)                                                // before DDL statement i
    | Head(last: int, done: int, num: int, total: int)            // top of the backfill loop
    | Updated(last: int, done: int, num: int, total: int, n: nat) // n > 0 rows written
    | Advanced(last: int, done: int, num: int, total: int)        // last_id moved, not yet checkpointed
    | NullGate | SampleGate                                       // verify
    | Steps(i: nat)                                               // before canary step i
    | Polling | Gating                                            // cutover
    | Exit(to: State, ck: Checkpoint)                             // handler returned

  datatype Conf = Conf(rec: Record, pc: Pc, sch: Schema, tab: Table)

  /** AllServicesReady: an error, all ready, or some not (which includes none registered). */
  datatype Readiness = QueryFailed | AllReady | SomeNotReady

  datatype Action =
    | Crash
    | Write(rows: Table)
    | Enter
    | Exec(sch: Schema, rows: Table, acked: bool)
    | Update(batch: nat, pick: set<RowId>, rows: Table)
    | ReadMax(max: RowId)
    | SaveProgress
    | CountNulls
    | Sample(ids: set<RowId>)
    | Observe
    | Poll(first: Readiness, second: Readiness)
    | Gate
    | Save

  /* ---------- Handlers ---------- */

  function Statements(p: MigrationPlan, s: State): seq<Stmt> {
    match s
    case Expanding => p.expand
    case Contracting => p.contract
    case RollingBack => p.rollback
    case _ => []
  }

  function StatementsDone(p: MigrationPlan, s: State): Checkpoint {
    match s
    case Expanding => Expanded(|p.expand|)
    case Contracting => Contracted(|p.contract|)
    case RollingBack => RolledBackAll(|p.rollback|)
    case _ => Empty
  }

  /** The (last_id, rows_done, batch_num) a re-entered backfill starts from. */
  function Resume(ck: Checkpoint): (int, int, int) {
    if ck.Progress? then (ck.lastId, ck.rowsDone, ck.batchNum) else (0, 0, 0)
  }

  function Start(e: Env, rec: Record, tab: Table): Option<Pc> {
    match rec.state
    case Pending => Some(Exit(Expanding, Step(Pending)))
    case Expanding => Some(Stmt(0))
    case Contracting => Some(Stmt(0))
    case RollingBack => Some(Stmt(0))
    case Backfilling =>
      if e.plan.backfill.column == "" then Some(Exit(Verifying, Skipped))
      else
        var (last, done, num) := Resume(rec.checkpoint);
        Some(Head(last, done, num, done + |NullsAbove(tab, last)|))
    case Verifying => Some(if e.plan.backfill.column == "" then Exit(Canary, Skipped) else NullGate)
    case Canary => Some(Steps(0))
    case Cutover => Some(Polling)
    case Done => None
    case RolledBack => None
  }

  /** The transition a finished handler asks SaveState to persist. */
  function Leaving(e: Env, c: Conf): Option<(State, Checkpoint)> {
    match c.pc
    case Exit(to, ck) => Some((to, ck))
    case Stmt(i) =>
      if i == |Statements(e.plan, c.rec.state)| && Next(c.rec.state).Some?
      then Some((Next(c.rec.state).value, StatementsDone(e.plan, c.rec.state))) else None
    case Steps(i) => if i == |e.plan.canarySteps| then Some((Cutover, CanaryAt(100))) else None
    case _ => None
  }

  /** on_failure: divert to rollback, or fail and leave the state as it is. */
  function Failing(p: MigrationPlan, ck: Checkpoint): Pc {
    if p.onFailure == OnRollback then Exit(RollingBack, ck) else Down
  }

  datatype Observation = Observation(p99Ms: real, errPct: real)

  function ObserveCanary(p: MigrationPlan, step: int): Observation {
    if p.failCanaryAtStep > 0 && step >= p.failCanaryAtStep
    then Observation(p.slo.maxP99Ms as real * 2.0 + 1.0, p.slo.maxErrorPct * 2.0 + 1.0)
    else Observation(p.slo.maxP99Ms as real * 0.6, p.slo.maxErrorPct * 0.3)
  }

  predicate SloBreached(o: Observation, slo: Slo) {
    || (slo.maxP99Ms > 0 && o.p99Ms > slo.maxP99Ms as real)
    || (slo.maxErrorPct > 0.0 && o.errPct > slo.maxErrorPct)
  }

  predicate Breaches(p: MigrationPlan, step: int) { SloBreached(ObserveCanary(p, step), p.slo) }

  function Threshold(p: MigrationPlan): real {
    if p.slo.minParity > p.parityThreshold then p.slo.minParity else p.parityThreshold
  }

  function ParityOf(r: Report): real { Ratio(r.total, r.drifted) }

  /** The cutover gate on a full-table scan. */
  predicate GatePasses(e: Env, tab: Table) {
    var r := Scan(tab, e.source);
    r.nulls == 0 && ParityOf(r) >= Threshold(e.plan)
  }

  /** Dropping the derived column takes its values along. */
  function RowsAfter(e: Env, st: Stmt, tab: Table): Table {
    if st.DropColumn? && st.column == e.plan.backfill.column
    then map i | i in tab :: tab[i].(val := None)
    else tab
  }

  /** Some row is NULL in a column other than the derived one. */
  predicate Sparse(e: Env, column: string, tab: Table) { exists i :: i in tab && e.blank(column, tab[i].data) }

  predicate IsDerived(p: MigrationPlan, column: string) { column != "" && column == p.backfill.column }

  /** SET NOT NULL is rejected while the column holds a NULL. */
  predicate Blocked(e: Env, st: Stmt, tab: Table) {
    st.SetNotNull? && if IsDerived(e.plan, st.column) then Nulls(tab) != {} else Sparse(e, st.column, tab)
  }

  predicate Effect(e: Env, st: Stmt, c: Conf, sch: Schema, rows: Table) {
    st.Raw? || (Apply(st, c.sch) == Some(sch) && !Blocked(e, st, c.tab) && rows == RowsAfter(e, st, c.tab))
  }

  /* ---------- Steps ---------- */

  ghost function AfterExec(e: Env, c: Conf, sch: Schema, rows: Table, acked: bool): Option<Conf> {
    var ss := Statements(e.plan, c.rec.state);
    if c.pc.Stmt? && c.pc.i < |ss| && Effect(e, ss[c.pc.i], c, sch, rows)
    then Some(Conf(c.rec, if acked then Stmt(c.pc.i + 1) else c.pc, sch, rows))
    else None
  }

  /** The batch UPDATE. With a composite statement nothing is known about the rows written. */
  ghost function AfterUpdate(e: Env, c: Conf, batch: nat, pick: set<RowId>, rows: Table): Option<Conf> {
    if c.pc.Head? && batch >= 1
       && (e.plan.backfill.multiSql == "" ==>
             Lowest(pick, NullsAbove(c.tab, c.pc.last), batch) && rows == Fill(c.tab, pick, e.source))
    then Some(c.(tab := rows,
                 pc := if pick == {} then Exit(Verifying, Progress(c.pc.last, c.pc.done, c.pc.num))
                       else Updated(c.pc.last, c.pc.done, c.pc.num, c.pc.total, |pick|)))
    else None
  }

  ghost function AfterReadMax(c: Conf, max: RowId): Option<Conf> {
    if c.pc.Updated? && IsMax(max, SetAbove(c.tab, c.pc.last))
    then Some(c.(pc := if max <= c.pc.last then Exit(Verifying, Progress(c.pc.last, c.pc.done, c.pc.num))
                       else Advanced(max, c.pc.done + c.pc.n, c.pc.num + 1, c.pc.total)))
    else None
  }

  function AfterSaveProgress(c: Conf): Option<Conf> {
    if c.pc.Advanced?
    then Some(c.(rec := Checkpointed(c.rec, Backfilling, Progress(c.pc.last, c.pc.done, c.pc.num)),
                 pc := Head(c.pc.last, c.pc.done, c.pc.num, c.pc.total)))
    else None
  }

  /** A sample rate outside (0, 1) means the whole table, and so does one that six digits print as 1. */
  predicate SamplesAll(p: MigrationPlan) { p.sampleRate <= 0.0 || p.sampleRate >= 0.9999995 }

  /** One that six digits print as 0 means no row. */
  predicate SamplesNone(p: MigrationPlan) { 0.0 < p.sampleRate < 0.0000005 }

  /** The rate in millionths, rounded, as the query prints it. */
  function Printed(rate: real): int { (rate * 1000000.0 + 0.5).Floor }

  lemma PrintedRate(p: MigrationPlan)
    ensures SamplesAll(p) <==> p.sampleRate <= 0.0 || Printed(p.sampleRate) >= 1000000
    ensures SamplesNone(p) <==> p.sampleRate > 0.0 && Printed(p.sampleRate) == 0
  {
  }

  predicate IsSample(p: MigrationPlan, t: Table, ids: set<RowId>) {
    ids <= t.Keys && (SamplesAll(p) ==> ids == t.Keys) && (SamplesNone(p) ==> ids == {})
  }

  function AfterSample(e: Env, c: Conf, ids: set<RowId>): Option<Conf> {
    if c.pc.SampleGate? && IsSample(e.plan, c.tab, ids)
    then
      var parity := ShareOf(c.tab, ids, e.source);
      Some(c.(pc := if parity < Threshold(e.plan) then Down else Exit(Canary, Parity(parity, |ids|))))
    else None
  }

  function AfterObserve(e: Env, c: Conf): Option<Conf> {
    if c.pc.Steps? && c.pc.i < |e.plan.canarySteps| then
      var step := e.plan.canarySteps[c.pc.i];
      if Breaches(e.plan, step) then Some(c.(pc := Failing(e.plan, Breach(step))))
      else Some(c.(rec := Checkpointed(c.rec, Canary, CanaryAt(step)), pc := Steps(c.pc.i + 1)))
    else None
  }

  /** Not ready twice aborts; a failed readiness query does not. */
  function AfterPoll(e: Env, c: Conf, first: Readiness, second: Readiness): Option<Conf> {
    if !c.pc.Polling? then None
    else if first == SomeNotReady && second == SomeNotReady then Some(c.(pc := Failing(e.plan, NotReady)))
    else Some(c.(pc := if e.plan.backfill.column == "" then Exit(Contracting, Step(Cutover)) else Gating))
  }

  function AfterGate(e: Env, c: Conf): Option<Conf> {
    if !c.pc.Gating? then None
    else
      var r := Scan(c.tab, e.source);
      Some(c.(pc := if GatePasses(e, c.tab) then Exit(Contracting, Committed(ParityOf(r), r.total))
                    else Failing(e.plan, CutoverAbort(ParityOf(r)))))
  }

  function AfterSave(e: Env, c: Conf): Option<Conf> {
    match Leaving(e, c)
    case None => None
    case Some((to, ck)) => Some(c.(rec := Saved(c.rec, c.rec.state, to, ck, IsTerminal(to)), pc := Down))
  }

  ghost function After(e: Env, c: Conf, a: Action): Option<Conf> {
    match a
    case Crash => Some(c.(pc := Down))
    case Write(rows) => Some(c.(tab := rows))
    case Enter =>
      if c.pc.Down? && Start(e, c.rec, c.tab).Some? then Some(c.(pc := Start(e, c.rec, c.tab).value)) else None
    case Exec(sch, rows, acked) => AfterExec(e, c, sch, rows, acked)
    case Update(batch, pick, rows) => AfterUpdate(e, c, batch, pick, rows)
    case ReadMax(max) => AfterReadMax(c, max)
    case SaveProgress => AfterSaveProgress(c)
    case CountNulls =>
      if c.pc.NullGate? then Some(c.(pc := if Nulls(c.tab) == {} then SampleGate else Down)) else None
    case Sample(ids) => AfterSample(e, c, ids)
    case Observe => AfterObserve(e, c)
    case Poll(first, second) => AfterPoll(e, c, first, second)
    case Gate => AfterGate(e, c)
    case Save => AfterSave(e, c)
  }

  /* ---------- Runs ---------- */

  ghost predicate Initial(c: Conf) { c.rec == Created(Pending) && c.pc == Down }

  /** The configuration a sequence of actions leads to, if each of them is possible. */
  ghost function Play(e: Env, c0: Conf, acts: seq<Action>): Option<Conf> {
    if acts == [] then Some(c0)
    else match Play(e, c0, acts[..|acts| - 1])
      case None => None
      case Some(c) => After(e, c, acts[|acts| - 1])
  }

  /** The configuration in which action j is taken. */
  ghost function At(e: Env, c0: Conf, acts: seq<Action>, j: nat): Conf
    requires j <= |acts| && Play(e, c0, acts).Some?
  {
    PlayPrefix(e, c0, acts, j);
    Play(e, c0, acts[..j]).value
  }

  lemma {:induction false} PlayPrefix(e: Env, c0: Conf, acts: seq<Action>, j: nat)
    requires j <= |acts| && Play(e, c0, acts).Some?
    ensures Play(e, c0, acts[..j]).Some?
  {
    if j == |acts| {
      assert acts[..j] == acts;
    } else {
      PlayPrefix(e, c0, acts[..|acts| - 1], j);
      assert acts[..|acts| - 1][..j] == acts[..j];
    }
  }

  lemma AtStep(e: Env, c0: Conf, acts: seq<Action>, j: nat)
    requires j < |acts| && Play(e, c0, acts).Some?
    ensures After(e, At(e, c0, acts, j), acts[j]) == Some(At(e, c0, acts, j + 1))
  {
    PlayPrefix(e, c0, acts, j + 1);
    assert acts[..j + 1][..j] == acts[..j];
  }

  /** No other client writes while the migration runs. */
  ghost predicate Quiet(acts: seq<Action>) { forall a :: a in acts ==> !a.Write? }

  /** The driver is inside the handler of the stored state, and that handler can leave it
      only along an edge of the lifecycle. */
  ghost predicate PcFits(e: Env, c: Conf) {
    match c.rec.state
    case Pending => c.pc.Down? || c.pc == Exit(Expanding, Step(Pending))
    case Backfilling =>
      c.pc.Down? || c.pc.Head? || c.pc.Updated? || c.pc.Advanced? || (c.pc.Exit? && c.pc.to == Verifying)
    case Verifying => c.pc.Down? || c.pc.NullGate? || c.pc.SampleGate? || (c.pc.Exit? && c.pc.to == Canary)
    case Canary =>
      || c.pc.Down? || (c.pc.Steps? && c.pc.i <= |e.plan.canarySteps|)
      || (c.pc.Exit? && c.pc.to == RollingBack && e.plan.onFailure == OnRollback)
    case Cutover =>
      || c.pc.Down? || c.pc.Polling? || c.pc.Gating? || (c.pc.Exit? && c.pc.to == Contracting)
      || (c.pc.Exit? && c.pc.to == RollingBack && e.plan.onFailure == OnRollback)
    case Done => c.pc.Down?
    case RolledBack => c.pc.Down?
    case _ => c.pc.Down? || (c.pc.Stmt? && c.pc.i <= |Statements(e.plan, c.rec.state)|)
  }

  lemma PcFitsStep(e: Env, c: Conf, a: Action)
    requires PcFits(e, c) && After(e, c, a).Some?
    ensures PcFits(e, After(e, c, a).value)
  {
  }

  lemma {:induction false} PcFitsAlways(e: Env, c0: Conf, acts: seq<Action>)
    requires Initial(c0) && Play(e, c0, acts).Some?
    ensures PcFits(e, Play(e, c0, acts).value)
  {
    if acts != [] {
      var front := acts[..|acts| - 1];
      PcFitsAlways(e, c0, front);
      PcFitsStep(e, Play(e, c0, front).value, acts[|acts| - 1]);
    }
  }
}
