/** The runner: drives one migration, one database operation at a time. Every operation may
    fail, and a failed one may still have taken effect; other clients may write the table
    before any operation. The ghost log acts records what was done, and Valid says that it
    is a run of the lifecycle that leads to the databases as they are. */
module Engine {
  import opened Options
  import opened Ddl
  import opened Plan
  import opened Storage
  import opened Rows
  import opened Lifecycle
  import opened Retry
  import Throttle
  import Durable
  import CanaryPhase
  import Completeness
  import Outcomes

  /** A handler's result; next overrides the happy path. */
  datatype Result = Result(ck: Checkpoint, next: Option<State>)

  function Target(from: State, r: Result): Option<State> {
    if r.next.Some? then r.next else Next(from)
  }

  function Compatible(registry: seq<bool>): nat {
    if registry == [] then 0 else Compatible(registry[1..]) + if registry[0] then 1 else 0
  }

  lemma {:induction false} CompatibleIsAll(registry: seq<bool>)
    ensures Compatible(registry) <= |registry|
    ensures Compatible(registry) == |registry| <==> false !in registry
  {
    if registry != [] {
      CompatibleIsAll(registry[1..]);
      assert registry == [registry[0]] + registry[1..];
    }
  }

  /** What goes wrong around a runner: operations that fail, are refused by a safety check or are
      cancelled, and refusals because the replica lags too far behind. */
  class Weather {
    ghost var troubles: nat
    ghost var lags: nat

    constructor ()
    {
      troubles, lags := 0, 0;
    }

    method Fails() returns (failed: bool)
      modifies this`troubles
      ensures troubles == old(troubles) + if failed then 1 else 0
    {
      failed := *;
      if failed { Trouble(); }
    }

    ghost method Trouble()
      modifies this`troubles
      ensures troubles == old(troubles) + 1
    {
      troubles := troubles + 1;
    }

    ghost method Lag()
      modifies this`lags
      ensures lags == old(lags) + 1
    {
      lags := lags + 1;
    }
  }

  class Runner {
    const env: Env
    const id: Id
    const store: Store
    const luck: Weather
    var sch: Schema
    var tab: Table
    var throttle: Throttle.AdaptiveThrottle
    var sent: seq<Stmt>
    var ddlLog: seq<Attempt>
    var slept: nat
    ghost var asked: seq<int>
    ghost const c0: Conf
    ghost var pc: Pc
    ghost var acts: seq<Action>

    ghost function Here(): Conf
      reads this, store
      requires id in store.recs
    {
      Conf(store.recs[id], pc, sch, tab)
    }

    ghost predicate Valid()
      reads this, store
    {
      && store.Valid() && id in store.recs && store.plans[id] == env.plan
      && Initial(c0) && Play(env, c0, acts) == Some(Here())
    }

    /** The handler of state from has returned r, and that is what may be persisted next. */
    ghost predicate Leaves(from: State, r: Result)
      reads this, store
      requires id in store.recs
    {
      Target(from, r).Some? && Leaving(env, Here()) == Some((Target(from, r).value, r.ck))
    }

    /** A runner for a migration just created. */
    constructor (env: Env, id: Id, store: Store, sch: Schema, tab: Table)
      requires store.Valid() && id in store.recs && store.recs[id] == Created(Pending) && store.plans[id] == env.plan
      ensures Valid() && pc == Down && this.env == env && this.id == id && this.store == store
      ensures c0.sch == sch && c0.tab == tab && acts == []
    {
      this.env, this.id, this.store, this.sch, this.tab := env, id, store, sch, tab;
      throttle := new Throttle.AdaptiveThrottle(Throttle.BackfillConfig(0, 0));
      sent, ddlLog, slept, asked := [], [], 0, [];
      luck := new Weather();
      c0 := Conf(Created(Pending), Down, sch, tab);
      pc, acts := Down, [];
    }

    /* ---------- The ghost log ---------- */

    lemma Extends(c: Conf, a: Action)
      requires Play(env, c0, acts) == Some(c) && After(env, c, a).Some?
      ensures Play(env, c0, acts + [a]) == After(env, c, a)
    {
      assert (acts + [a])[..|acts|] == acts;
    }

    /** A step of the driver that touches neither database. */
    ghost method Took(a: Action)
      requires Valid() && After(env, Here(), a).Some?
      requires After(env, Here(), a).value == Here().(pc := After(env, Here(), a).value.pc)
      modifies this`pc, this`acts
      ensures Valid() && acts == old(acts) + [a] && Here() == After(env, old(Here()), a).value
    {
      Extends(Here(), a);
      pc := After(env, Here(), a).value.pc;
      acts := acts + [a];
    }

    /** Enters the handler of the stored state. */
    ghost method Begin()
      requires Valid() && pc.Down? && Start(env, store.recs[id], tab).Some?
      modifies this`pc, this`acts
      ensures Valid() && pc == Start(env, store.recs[id], tab).value && acts == old(acts) + [Enter]
    {
      Took(Enter);
    }

    method OthersWrite()
      requires Valid()
      modifies this`tab, this`acts
      ensures Valid()
    {
      if * {
        var rows: Table := *;
        ghost var c := Here();
        Extends(c, Write(rows));
        tab := rows;
        acts := acts + [Write(rows)];
      }
    }

    /* ---------- DDL execution ---------- */

    /** The statement has run on the target; acked says whether the runner learns of it. */
    method Ran(sch': Schema, tab': Table, acked: bool)
      requires Valid() && After(env, Here(), Exec(sch', tab', acked)).Some?
      modifies this`sch, this`tab, this`pc, this`acts
      ensures Valid() && pc == if acked then Pc.Stmt(old(pc.i) + 1) else old(pc)
    {
      Extends(Here(), Exec(sch', tab', acked));
      sch, tab := sch', tab';
      acts := acts + [Exec(sch, tab, acked)];
      if acked { pc := Pc.Stmt(pc.i + 1); }
    }

    /** Sends one statement to the target. */
    method Send(stmt: Stmt) returns (ok: bool)
      requires Valid() && pc.Stmt? && pc.i < |Statements(env.plan, store.recs[id].state)|
      requires stmt == Statements(env.plan, store.recs[id].state)[pc.i]
      modifies this`sch, this`tab, this`sent, this`pc, this`acts, luck`troubles
      ensures Valid() && sent == old(sent) + [stmt] && luck.troubles >= old(luck.troubles)
      ensures pc == if ok then Pc.Stmt(old(pc.i) + 1) else old(pc)
      ensures !ok && luck.troubles == old(luck.troubles) ==> Rejected(stmt)
    {
      OthersWrite();
      sent := sent + [stmt];
      var lost := luck.Fails();
      if lost { return false; }
      if stmt.Raw? {
        var sch': Schema, tab': Table := *, *;
        var unheard := luck.Fails();
        ok := !unheard;
        Ran(sch', tab', ok);
      } else {
        match Apply(stmt, sch)
        case None => ok := false;
        case Some(s) =>
          if Blocked(env, stmt, tab) { return false; }
          var unheard := luck.Fails();
          ok := !unheard;
          Ran(s, RowsAfter(env, stmt, tab), ok);
      }
    }

    /** The database rejects the statement as things stand. */
    ghost predicate Rejected(stmt: Stmt)
      reads this
    {
      !stmt.Raw? && (Apply(stmt, sch).None? || Blocked(env, stmt, tab))
    }

    method ExecConcurrently(stmt: Stmt) returns (ok: bool, ghost tries: nat)
      requires Valid() && pc.Stmt? && pc.i < |Statements(env.plan, store.recs[id].state)|
      requires stmt == Statements(env.plan, store.recs[id].state)[pc.i]
      modifies this`sch, this`tab, this`sent, this`slept, this`pc, this`acts, luck`troubles
      ensures Valid() && pc == (if ok then Pc.Stmt(old(pc.i) + 1) else old(pc)) && luck.troubles >= old(luck.troubles)
      ensures 1 <= tries <= 3 && (!ok ==> tries == 3) && slept == old(slept) + Backoff(tries - 1)
      ensures SentOnly(stmt, tries, ok, old(sent), sent)
      ensures !ok && luck.troubles == old(luck.troubles) ==> Rejected(stmt)
    {
      var attempt := 0;
      tries := 1;
      while attempt < 3
        invariant 0 <= attempt <= 2 && tries == attempt + 1
        invariant Valid() && pc == old(pc) && luck.troubles >= old(luck.troubles)
        invariant SentOnly(stmt, attempt, false, old(sent), sent)
        invariant slept == old(slept) + Backoff(attempt)
      {
        var unsafe := luck.Fails();
        if unsafe {
          if attempt < 2 {
            slept := slept + attempt + 1;
            attempt, tries := attempt + 1, tries + 1;
            continue;
          }
          return false, tries;
        }
        SentOneMore(stmt, attempt, old(sent), sent);
        ok := Send(stmt);
        if !ok {
          if attempt < 2 {
            slept := slept + attempt + 1;
            attempt, tries := attempt + 1, tries + 1;
            continue;
          }
          return false, tries;
        }
        return true, tries;
      }
    }

    method ExecDDL(stmt: Stmt) returns (ok: bool)
      requires Valid() && pc.Stmt? && pc.i < |Statements(env.plan, store.recs[id].state)|
      requires stmt == Statements(env.plan, store.recs[id].state)[pc.i]
      modifies this`sch, this`tab, this`sent, this`slept, this`pc, this`acts, luck`troubles
      ensures Valid() && pc == (if ok then Pc.Stmt(old(pc.i) + 1) else old(pc)) && luck.troubles >= old(luck.troubles)
      ensures SentOnly(stmt, SendsPerCall(stmt), ok, old(sent), sent)
      ensures old(slept) <= slept <= old(slept) + SleepPerCall(stmt)
      ensures !ok && luck.troubles == old(luck.troubles) ==> Rejected(stmt)
    {
      var unsafe := luck.Fails();
      if unsafe { return false; }
      if IsConcurrently(stmt) {
        ghost var tries: nat;
        ok, tries := ExecConcurrently(stmt);
      } else {
        SentOneMore(stmt, 0, sent, sent);
        ok := Send(stmt);
      }
    }

    /* ---------- Handlers ---------- */

    method Expand(p: MigrationPlan) returns (res: Option<Result>, ghost k: nat)
      requires Valid() && pc.Down? && store.recs[id].state == Expanding && p == env.plan
      modifies this`sch, this`tab, this`sent, this`slept, this`ddlLog, this`pc, this`acts, luck`troubles
      ensures Valid() && luck.troubles >= old(luck.troubles)
      ensures res.Some? ==> Leaves(Expanding, res.value) && res.value == Result(Expanded(|p.expand|), None)
      ensures k <= |p.expand| && (res.Some? <==> k == |p.expand|)
      ensures ddlLog == old(ddlLog) + OnePass(p.expand, k)
      ensures res.None? && luck.troubles == old(luck.troubles) ==> Rejected(p.expand[k])
    {
      Begin();
      k := 0;
      for i := 0 to |p.expand|
        invariant Valid() && pc == Pc.Stmt(i) && k == i && luck.troubles >= old(luck.troubles)
        invariant ddlLog == old(ddlLog) + Acks(p.expand[..i])
      {
        var ok := ExecDDL(p.expand[i]);
        ddlLog := ddlLog + [Attempt(p.expand[i], ok)];
        AcksGrow(old(ddlLog), p.expand, i);
        if !ok { return None, i; }
        k := i + 1;
      }
      res := Some(Result(Expanded(|p.expand|), None));
    }

    method Contract(p: MigrationPlan) returns (res: Option<Result>, ghost k: nat)
      requires Valid() && pc.Down? && store.recs[id].state == Contracting && p == env.plan
      modifies this`sch, this`tab, this`sent, this`slept, this`ddlLog, this`pc, this`acts, luck`troubles
      ensures Valid() && luck.troubles >= old(luck.troubles)
      ensures res.Some? ==> Leaves(Contracting, res.value) && res.value == Result(Contracted(|p.contract|), None)
      ensures k <= |p.contract| && (res.Some? <==> k == |p.contract|)
      ensures ddlLog == old(ddlLog) + OnePass(p.contract, k)
      ensures res.None? && luck.troubles == old(luck.troubles) ==> Rejected(p.contract[k])
    {
      Begin();
      k := 0;
      for i := 0 to |p.contract|
        invariant Valid() && pc == Pc.Stmt(i) && k == i && luck.troubles >= old(luck.troubles)
        invariant ddlLog == old(ddlLog) + Acks(p.contract[..i])
      {
        var ok := ExecDDL(p.contract[i]);
        ddlLog := ddlLog + [Attempt(p.contract[i], ok)];
        AcksGrow(old(ddlLog), p.contract, i);
        if !ok { return None, i; }
        k := i + 1;
      }
      res := Some(Result(Contracted(|p.contract|), None));
    }

    /** One logged call, and the back-off after a failed first or second one. */
    method TryOnce(stmt: Stmt, attempt: nat) returns (ok: bool)
      requires Valid() && pc.Stmt? && pc.i < |Statements(env.plan, store.recs[id].state)|
      requires stmt == Statements(env.plan, store.recs[id].state)[pc.i] && attempt < MAX_ATTEMPTS
      modifies this`sch, this`tab, this`sent, this`slept, this`ddlLog, this`pc, this`acts, luck`troubles
      ensures Valid() && pc == (if ok then Pc.Stmt(old(pc.i) + 1) else old(pc)) && luck.troubles >= old(luck.troubles)
      ensures ddlLog == old(ddlLog) + [Attempt(stmt, ok)]
      ensures SentOnly(stmt, SendsPerCall(stmt), ok, old(sent), sent)
      ensures var pause := if ok then 0 else Backoff(attempt + 1) - Backoff(attempt);
              old(slept) + pause <= slept <= old(slept) + SleepPerCall(stmt) + pause
      ensures !ok && luck.troubles == old(luck.troubles) ==> Rejected(stmt)
    {
      ok := ExecDDL(stmt);
      ddlLog := ddlLog + [Attempt(stmt, ok)];
      if !ok && attempt < 2 { slept := slept + if attempt == 0 then 1 else 2; }
    }

    /** The inner loop of Rollback: one statement, at most three calls, backing off 1 s and 2 s. */
    method RetryStatement(stmt: Stmt) returns (ok: bool, ghost fails: nat)
      requires Valid() && pc.Stmt? && pc.i < |Statements(env.plan, store.recs[id].state)|
      requires stmt == Statements(env.plan, store.recs[id].state)[pc.i]
      modifies this`sch, this`tab, this`sent, this`slept, this`ddlLog, this`pc, this`acts, luck`troubles
      ensures Valid() && pc == (if ok then Pc.Stmt(old(pc.i) + 1) else old(pc)) && luck.troubles >= old(luck.troubles)
      ensures if ok then fails < MAX_ATTEMPTS else fails == MAX_ATTEMPTS
      ensures !ok && luck.troubles == old(luck.troubles) ==> Rejected(stmt)
      ensures Tried(stmt, fails, ok, old(ddlLog), ddlLog, old(sent), sent, old(slept), slept)
    {
      fails := 0;
      ok := false;
      var attempt := 0;
      while attempt < 3
        invariant 0 <= attempt <= 3 && fails == attempt && !ok
        invariant Valid() && pc == old(pc) && luck.troubles >= old(luck.troubles)
        invariant attempt > 0 && luck.troubles == old(luck.troubles) ==> Rejected(stmt)
        invariant Tried(stmt, attempt, false, old(ddlLog), ddlLog, old(sent), sent, old(slept), slept)
      {
        ghost var log1, sent1, slept1 := ddlLog, sent, slept;
        ok := TryOnce(stmt, attempt);
        TriedStep(stmt, attempt, ok, old(ddlLog), log1, old(sent), sent1, sent, old(slept), slept1, slept);
        if ok { return; }
        attempt := attempt + 1;
        fails := fails + 1;
      }
    }

    /** Statement i of a pass whose log starts at base. */
    method RollbackStatement(p: MigrationPlan, i: nat, ghost base: nat) returns (ok: bool)
      requires Valid() && store.recs[id].state == RollingBack && p == env.plan
      requires i < |p.rollback| && pc == Pc.Stmt(i)
      requires base <= |ddlLog| && Replay(p.rollback, ddlLog[base..]) == Some((i, 0))
      modifies this`sch, this`tab, this`sent, this`slept, this`ddlLog, this`pc, this`acts, luck`troubles
      ensures Valid() && (ok ==> pc == Pc.Stmt(i + 1)) && luck.troubles >= old(luck.troubles)
      ensures !ok && luck.troubles == old(luck.troubles) ==> Rejected(p.rollback[i])
      ensures old(ddlLog) <= ddlLog
      ensures Replay(p.rollback, ddlLog[base..]) == Some(if ok then (i + 1, 0) else (i, MAX_ATTEMPTS))
      ensures |sent| <= |old(sent)| + MAX_ATTEMPTS * SendsPerCall(p.rollback[i])
      ensures slept <= old(slept) + 3 + MAX_ATTEMPTS * SleepPerCall(p.rollback[i])
    {
      ghost var fails: nat;
      ok, fails := RetryStatement(p.rollback[i]);
      TriedReplays(p.rollback, old(ddlLog), ddlLog, base, i, fails, ok);
    }

    /** One rollback pass. Its log is that of a disciplined pass, complete exactly on success. */
    method Rollback(p: MigrationPlan) returns (res: Option<Result>)
      requires Valid() && pc.Down? && store.recs[id].state == RollingBack && p == env.plan
      modifies this`sch, this`tab, this`sent, this`slept, this`ddlLog, this`pc, this`acts, luck`troubles
      ensures Valid() && luck.troubles >= old(luck.troubles)
      ensures res.Some? ==> Leaves(RollingBack, res.value) && res.value == Result(RolledBackAll(|p.rollback|), None)
      ensures res.None? && luck.troubles == old(luck.troubles) ==> exists st :: st in p.rollback && Rejected(st)
      ensures old(ddlLog) <= ddlLog && PassEnds(p.rollback, ddlLog[|old(ddlLog)|..], res.Some?)
      ensures slept <= old(slept) + SleepBudget(p.rollback) && |sent| <= |old(sent)| + SendBudget(p.rollback)
    {
      Begin();
      ghost var base := |ddlLog|;
      for i := 0 to |p.rollback|
        invariant Valid() && pc == Pc.Stmt(i) && luck.troubles >= old(luck.troubles)
        invariant old(ddlLog) <= ddlLog && Replay(p.rollback, ddlLog[base..]) == Some((i, 0))
        invariant slept <= old(slept) + SleepBudget(p.rollback[..i])
        invariant |sent| <= |old(sent)| + SendBudget(p.rollback[..i])
      {
        BudgetStep(p.rollback, i);
        var ok := RollbackStatement(p, i, base);
        if !ok { return None; }
      }
      assert p.rollback[..|p.rollback|] == p.rollback;
      res := Some(Result(RolledBackAll(|p.rollback|), None));
    }

    /* ---------- Backfill ---------- */

    /** The rows a batch UPDATE picks, and the table with them written. A composite statement may
        pick and write anything. */
    method PickRows(p: MigrationPlan, lastID: int, batch: nat) returns (pick: set<RowId>, rows: Table)
      ensures pick == {} <==> |pick| == 0
      ensures p.backfill.multiSql == "" ==>
                && Lowest(pick, NullsAbove(tab, lastID), batch) && rows == Fill(tab, pick, env.source)
                && rows.Keys == tab.Keys
                && forall i :: i in tab ==>
                     rows[i] == if i in pick then Row(tab[i].data, env.source(tab[i].data)) else tab[i]
    {
      if p.backfill.multiSql != "" {
        pick, rows := *, *;
        return;
      }
      ghost var p0 := LowestExists(NullsAbove(tab, lastID), batch);
      assert Lowest(p0, NullsAbove(tab, lastID), batch);
      pick :| Lowest(pick, NullsAbove(tab, lastID), batch);
      rows := Fill(tab, pick, env.source);
    }

    /** One batch UPDATE; n is the number of rows it wrote. It meets the table as before and picks
        these rows of it. */
    method UpdateBatch(p: MigrationPlan, lastID: int, batch: nat)
      returns (ok: bool, n: nat, ghost before: Table, ghost picked: set<RowId>)
      requires Valid() && p == env.plan && pc.Head? && pc.last == lastID && batch >= 1
      modifies this`tab, this`pc, this`acts, this`asked, luck`troubles
      ensures Valid() && luck.troubles >= old(luck.troubles) && (luck.troubles == old(luck.troubles) ==> ok)
      ensures asked == old(asked) + [batch]
      ensures ok ==> pc == if n == 0 then Exit(Verifying, Progress(lastID, old(pc.done), old(pc.num)))
                           else Updated(lastID, old(pc.done), old(pc.num), old(pc.total), n)
      ensures ok && p.backfill.multiSql == "" ==>
                && n == |picked| && Lowest(picked, NullsAbove(before, lastID), batch) && tab.Keys == before.Keys
                && forall i :: i in before ==>
                     tab[i] == if i in picked then Row(before[i].data, env.source(before[i].data)) else before[i]
    {
      OthersWrite();
      n, before, picked, asked := 0, tab, {}, asked + [batch];
      var lost := luck.Fails();
      if lost { return false, 0, before, picked; }
      var pick, rows := PickRows(p, lastID, batch);
      n, picked := |pick|, pick;
      ghost var c := Here();
      var a := Update(batch, pick, rows);
      Extends(c, a);
      tab := rows;
      pc := After(env, c, a).value.pc;
      acts := acts + [a];
      var unheard := luck.Fails();
      ok := !unheard;
    }

    /** The largest id above last_id that has a value, or 0. */
    method MaxFilledId(lastID: int) returns (ok: bool, newLastID: RowId)
      requires Valid() && pc.Updated? && pc.last == lastID
      modifies this`tab, this`pc, this`acts, luck`troubles
      ensures Valid() && luck.troubles >= old(luck.troubles) && (luck.troubles == old(luck.troubles) ==> ok)
      ensures ok ==> pc == if newLastID <= lastID then Exit(Verifying, Progress(lastID, old(pc.done), old(pc.num)))
                           else Advanced(newLastID, old(pc.done) + old(pc.n), old(pc.num) + 1, old(pc.total))
      ensures ok ==> if exists i :: i in tab && tab[i].val.Some? && i > lastID then
                       && newLastID in tab && tab[newLastID].val.Some? && newLastID > lastID
                       && forall i :: i in tab && tab[i].val.Some? ==> i <= newLastID
                     else newLastID == 0
    {
      OthersWrite();
      newLastID := 0;
      var failed := luck.Fails();
      ok := !failed;
      if !ok { return; }
      newLastID := LargestFilled(lastID);
      MaxMeaning(tab, lastID, newLastID);
      Took(ReadMax(newLastID));
    }

    method LargestFilled(lastID: int) returns (newLastID: RowId)
      ensures IsMax(newLastID, SetAbove(tab, lastID))
    {
      ghost var m := MaxExists(SetAbove(tab, lastID));
      assert IsMax(m, SetAbove(tab, lastID));
      newLastID :| IsMax(newLastID, SetAbove(tab, lastID));
    }

    lemma SavesOnly(c: Conf, a: Action)
      requires (a.SaveProgress? || a.Observe?) && After(env, c, a).Some?
      ensures var r := After(env, c, a).value; r == c.(pc := r.pc, rec := r.rec)
    {
    }

    /** SaveCheckpoint from inside a handler; a says which action of the lifecycle it is. */
    method SaveCheckpoint(state: State, ck: Storage.Checkpoint, ghost a: Action) returns (ok: bool)
      requires Valid() && (a.SaveProgress? || a.Observe?) && After(env, Here(), a).Some?
      requires After(env, Here(), a).value.rec == Checkpointed(store.recs[id], state, ck)
      modifies this`pc, this`acts, store, luck`troubles
      ensures Valid() && store.recs[id].state == old(store.recs[id].state)
      ensures luck.troubles >= old(luck.troubles) && (luck.troubles == old(luck.troubles) ==> ok)
      ensures ok ==> pc == After(env, old(Here()), a).value.pc
    {
      ghost var c, r := Here(), After(env, Here(), a).value;
      Extends(c, a);
      SavesOnly(c, a);
      var now: int, tx: Tx := *, *;
      ok := store.SaveCheckpoint(id, state, ck, now, tx);
      if tx != Aborted {
        pc := r.pc;
        acts := acts + [a];
        assert Here() == r;
      }
      if !ok { luck.Trouble(); }
    }

    /** Health metrics as collected, or a failed collection. */
    method CollectHealth() returns (m: Option<Throttle.Metrics>)
      ensures m.Some? ==> m.value.Sane()
    {
      var failed := *;
      if failed { return None; }
      var sample: Throttle.Metrics := *;
      if sample.Sane() { return Some(sample); }
      return None;
    }

    /** Terminates whatever the table, the expression and the other clients do: the breaker
        branch is dead, and last_id rises on every iteration below the largest id. One health check
        precedes each batch. */
    method Backfill(p: MigrationPlan, rec: Record)
      returns (res: Option<Result>, ghost checks: seq<Option<Throttle.Metrics>>)
      requires Valid() && pc.Down? && store.recs[id] == rec && rec.state == Backfilling && p == env.plan
      modifies this, store, luck`troubles
      ensures Valid() && store.recs[id].state == Backfilling && luck.troubles >= old(luck.troubles)
      ensures luck.troubles == old(luck.troubles) ==> res.Some?
      ensures res.Some? ==> Leaves(Backfilling, res.value)
      ensures res.Some? ==> if p.backfill.column == "" then res.value.ck == Skipped
                            else match rec.checkpoint
                              case Progress(id, n, batch) => Furthered((id, n, batch), res.value.ck)
                              case _ => Furthered((0, 0, 0), res.value.ck)
      ensures asked == old(asked) + Throttle.BackfillPaces(p.backfill.batchSize, p.backfill.throttleMs, checks)
    {
      checks := [];
      if p.backfill.column == "" {
        Begin();
        return Some(Result(Skipped, None)), checks;
      }
      res, checks := FillFrom(p, rec.checkpoint);
    }

    /** ck carries on from where the backfill was entered, with at least one row for every batch. */
    static predicate Furthered(start: (int, int, int), ck: Storage.Checkpoint) {
      ck.Progress? && ck.lastId >= start.0 && ck.rowsDone - start.1 >= ck.batchNum - start.2 >= 0
    }

    /** A fresh throttle, the progress on disk, and the loop. */
    method FillFrom(p: MigrationPlan, ck: Storage.Checkpoint)
      returns (res: Option<Result>, ghost checks: seq<Option<Throttle.Metrics>>)
      requires Valid() && pc.Down? && p == env.plan && p.backfill.column != ""
      requires store.recs[id].state == Backfilling && store.recs[id].checkpoint == ck
      modifies this, store, luck`troubles
      ensures Valid() && store.recs[id].state == Backfilling && luck.troubles >= old(luck.troubles)
      ensures luck.troubles == old(luck.troubles) ==> res.Some?
      ensures res.Some? ==> pc == Exit(Verifying, res.value.ck) && res.value.next.None?
      ensures res.Some? ==> Furthered(Resume(ck), res.value.ck)
      ensures asked == old(asked) + Throttle.BackfillPaces(p.backfill.batchSize, p.backfill.throttleMs, checks)
    {
      FreshThrottle(p);
      checks := [];
      var (lastID, done, batchNum) := Resume(ck);
      var counted, total := CountRemaining(lastID, done);
      if !counted { return None, checks; }
      Begin();
      res, checks := FillLoop(p, lastID, done, batchNum, total);
    }

    method FreshThrottle(p: MigrationPlan)
      modifies this`throttle
      ensures fresh(throttle) && ThrottleReady(p)
      ensures throttle.State() == Throttle.StartOf(Throttle.BackfillConfig(p.backfill.batchSize, p.backfill.throttleMs))
    {
      throttle := new Throttle.AdaptiveThrottle(Throttle.BackfillConfig(p.backfill.batchSize, p.backfill.throttleMs));
    }

    /** Rows still NULL ahead of last_id, plus those already done. */
    method CountRemaining(lastID: int, done: int) returns (ok: bool, total: int)
      requires Valid()
      modifies this`tab, this`acts, luck`troubles
      ensures Valid() && total == done + |NullsAbove(tab, lastID)|
      ensures luck.troubles >= old(luck.troubles) && (luck.troubles == old(luck.troubles) ==> ok)
    {
      OthersWrite();
      var failed := luck.Fails();
      ok := !failed;
      total := done + |NullsAbove(tab, lastID)|;
    }

    method FillLoop(p: MigrationPlan, last: int, rows: int, batches: int, total: int)
      returns (res: Option<Result>, ghost checks: seq<Option<Throttle.Metrics>>)
      requires Valid() && store.recs[id].state == Backfilling && p == env.plan
      requires pc == Head(last, rows, batches, total) && ThrottleReady(p)
      modifies this`tab, this`pc, this`acts, this`asked, store, throttle, luck`troubles
      ensures Valid() && store.recs[id].state == Backfilling && luck.troubles >= old(luck.troubles)
      ensures luck.troubles == old(luck.troubles) ==> res.Some?
      ensures res.Some? ==> pc == Exit(Verifying, res.value.ck) && res.value.next.None?
      ensures res.Some? ==> Furthered((last, rows, batches), res.value.ck)
      ensures asked == old(asked) + Throttle.Paces(throttle.config, old(throttle.State()), checks)
    {
      var lastID, done, batchNum := last, rows, batches;
      ghost var start, before := throttle.State(), asked;
      checks := [];
      while true
        invariant Valid() && store.recs[id].state == Backfilling && luck.troubles >= old(luck.troubles)
        invariant pc == Head(lastID, done, batchNum, total)
        invariant lastID >= last && done - rows >= batchNum - batches >= 0
        invariant ThrottleReady(p) && Paced(start, before, checks)
        decreases MAX_ID - lastID
      {
        var cancelled := luck.Fails();
        if cancelled { return None, checks; }
        if throttle.circuitTripped {
          assert false;  // the source pauses five seconds and checks again
        }
        var ok, n, health := NextBatch(p, lastID, start, before, checks);
        checks := checks + [health];
        if !ok { return None, checks; }
        if n == 0 { break; }
        var newLastID;
        ok, newLastID := MoveOn(lastID, done, batchNum, n);
        if !ok { return None, checks; }
        if newLastID <= lastID { break; }
        lastID, done, batchNum := newLastID, done + n, batchNum + 1;
      }
      res := Some(Result(Progress(lastID, done, batchNum), None));
    }

    ghost predicate ThrottleReady(p: MigrationPlan)
      reads this, throttle
    {
      && |throttle.metricsHistory| <= 100
      && throttle.config == Throttle.BackfillConfig(p.backfill.batchSize, p.backfill.throttleMs)
      && Throttle.Calm(throttle.config, throttle.State())
    }

    /** One health check, and the batch size it leaves. */
    method AdjustPace(p: MigrationPlan) returns (batch: int, ghost health: Option<Throttle.Metrics>)
      requires ThrottleReady(p)
      modifies throttle
      ensures ThrottleReady(p) && batch >= 1
      ensures throttle.State() == Throttle.OneCheck(throttle.config, old(throttle.State()), health)
      ensures batch == throttle.State().batch
    {
      var collected := CollectHealth();
      health := collected;
      if collected.Some? {
        Throttle.CalmStep(p.backfill.batchSize, p.backfill.throttleMs, throttle.State(), collected.value);
      }
      throttle.UpdateHealth(collected);
      batch := throttle.currentBatchSize;
    }

    /** After these checks from start the throttle is where they lead, and asked has grown by one
        batch size for each. */
    ghost predicate Paced(start: Throttle.Control, before: seq<int>, checks: seq<Option<Throttle.Metrics>>)
      reads this, throttle
    {
      && throttle.State() == Throttle.Checked(throttle.config, start, checks)
      && asked == before + Throttle.Paces(throttle.config, start, checks)
    }

    /** A health check, and the batch at the pace it leaves. */
    method NextBatch(p: MigrationPlan, lastID: int, ghost start: Throttle.Control, ghost before: seq<int>,
                     ghost checks: seq<Option<Throttle.Metrics>>)
      returns (ok: bool, n: nat, ghost health: Option<Throttle.Metrics>)
      requires Valid() && p == env.plan && pc.Head? && pc.last == lastID
      requires ThrottleReady(p) && Paced(start, before, checks)
      modifies this`tab, this`pc, this`acts, this`asked, throttle, luck`troubles
      ensures Valid() && ThrottleReady(p) && Paced(start, before, checks + [health])
      ensures luck.troubles >= old(luck.troubles) && (luck.troubles == old(luck.troubles) ==> ok)
      ensures ok ==> pc == if n == 0 then Exit(Verifying, Progress(lastID, old(pc.done), old(pc.num)))
                           else Updated(lastID, old(pc.done), old(pc.num), old(pc.total), n)
    {
      var batch: int;
      batch, health := AdjustPace(p);
      Throttle.PacesGrow(throttle.config, start, checks, health);
      var heard, written, _, _ := UpdateBatch(p, lastID, batch);
      ok, n := heard, written;
    }

    /** Behind the batch of n rows: where last_id moves to, saved unless that is no further. */
    method MoveOn(lastID: int, done: int, batchNum: int, n: nat) returns (ok: bool, newLastID: RowId)
      requires Valid() && store.recs[id].state == Backfilling
      requires pc.Updated? && pc.last == lastID && pc.done == done && pc.num == batchNum && pc.n == n
      modifies this`tab, this`pc, this`acts, store, luck`troubles
      ensures Valid() && store.recs[id].state == Backfilling
      ensures luck.troubles >= old(luck.troubles) && (luck.troubles == old(luck.troubles) ==> ok)
      ensures ok ==> pc == if newLastID <= lastID then Exit(Verifying, Progress(lastID, done, batchNum))
                           else Head(newLastID, done + n, batchNum + 1, old(pc.total))
    {
      ok, newLastID := MaxFilledId(lastID);
      if ok && newLastID > lastID {
        ok := SaveFill(newLastID, done + n, batchNum + 1);
      }
    }

    method SaveFill(lastID: int, done: int, batchNum: int) returns (ok: bool)
      requires Valid() && store.recs[id].state == Backfilling
      requires pc.Advanced? && pc.last == lastID && pc.done == done && pc.num == batchNum
      modifies this`pc, this`acts, store, luck`troubles
      ensures Valid() && store.recs[id].state == Backfilling
      ensures luck.troubles >= old(luck.troubles) && (luck.troubles == old(luck.troubles) ==> ok)
      ensures ok ==> pc == Head(lastID, done, batchNum, old(pc.total))
    {
      ok := SaveCheckpoint(Backfilling, Progress(lastID, done, batchNum), SaveProgress);
      var cancelled := luck.Fails();
      if cancelled { return false; }
    }

    /* ---------- Gates ---------- */

    method CountNulls() returns (ok: bool, nulls: nat)
      requires Valid() && pc.NullGate?
      modifies this`tab, this`pc, this`acts, luck`troubles
      ensures Valid() && luck.troubles >= old(luck.troubles) && (luck.troubles == old(luck.troubles) ==> ok)
      ensures ok ==> nulls == |Nulls(tab)| && pc == if nulls > 0 then Down else SampleGate
    {
      OthersWrite();
      var failed := luck.Fails();
      ok, nulls := !failed, 0;
      if !ok { return; }
      nulls := |Nulls(tab)|;
      assert nulls > 0 <==> Nulls(tab) != {};
      Took(Action.CountNulls);
    }

    /** The rows of the sample are ids. */
    method SampleParity(p: MigrationPlan) returns (ok: bool, parity: real, sampled: nat, ghost ids: set<RowId>)
      requires Valid() && pc.SampleGate? && p == env.plan
      modifies this`tab, this`pc, this`acts, luck`troubles
      ensures Valid() && luck.troubles >= old(luck.troubles) && (luck.troubles == old(luck.troubles) ==> ok)
      ensures ok ==> IsSample(p, tab, ids) && sampled == |ids| && parity == ShareOf(tab, ids, env.source)
      ensures ok ==> pc == if parity < Threshold(p) then Down else Exit(State.Canary, Parity(parity, sampled))
    {
      OthersWrite();
      var failed := luck.Fails();
      ok, parity, sampled, ids := !failed, 1.0, 0, {};
      if !ok { return; }
      var picked: set<RowId> := tab.Keys;
      if SamplesNone(p) {
        picked := {};
      } else if !SamplesAll(p) {
        picked := *;
        picked := picked * tab.Keys;
      }
      sampled, ids := |picked|, picked;
      if sampled > 0 { parity := Matches(tab, picked, env.source) as real / sampled as real; }
      Took(Sample(picked));
    }

    /** counted is the table when its NULL rows were counted, ids the rows of the sample. Untroubled,
        it returns the checkpoint exactly if there was no NULL row and the sample reached the threshold. */
    method Verify(p: MigrationPlan) returns (res: Option<Result>, ghost counted: Table, ghost ids: set<RowId>)
      requires Valid() && pc.Down? && store.recs[id].state == Verifying && p == env.plan
      modifies this`tab, this`pc, this`acts, luck`troubles
      ensures Valid() && luck.troubles >= old(luck.troubles)
      ensures res.Some? ==> Leaves(Verifying, res.value)
      ensures p.backfill.column == "" ==> res == Some(Result(Skipped, None))
      ensures res.Some? && p.backfill.column != "" ==>
                && Nulls(counted) == {} && IsSample(p, tab, ids) && ShareOf(tab, ids, env.source) >= Threshold(p)
                && res.value.ck == Parity(ShareOf(tab, ids, env.source), |ids|)
      ensures luck.troubles == old(luck.troubles) && p.backfill.column != "" ==>
                if Nulls(counted) != {} then res.None? && tab == counted
                else
                  && IsSample(p, tab, ids)
                  && (res.Some? <==> ShareOf(tab, ids, env.source) >= Threshold(p))
    {
      Begin();
      counted, ids := tab, {};
      if p.backfill.column == "" { return Some(Result(Skipped, None)), counted, ids; }
      var ok, nulls := CountNulls();
      counted := tab;
      if !ok || nulls > 0 { return None, counted, ids; }
      var parity, sampled;
      ok, parity, sampled, ids := SampleParity(p);
      if !ok || parity < Threshold(p) { return None, counted, ids; }
      res := Some(Result(Parity(parity, sampled), None));
    }

    /** Two replication-lag queries, None when one fails: too far behind now, and still too far after
        waiting. */
    method LagBlocks(first: Option<real>, second: Option<real>, limit: real, retry: real) returns (blocked: bool)
      ensures blocked <==> first.Some? && first.value > limit && second.Some? && second.value > retry
    {
      if first.Some? && first.value > limit {
        blocked := second.Some? && second.value > retry;
      } else {
        blocked := false;
      }
    }

    /** Twice the latency limit before a step, and three times after waiting. */
    static predicate LagsAtStep(p: MigrationPlan, first: Option<real>, second: Option<real>) {
      && first.Some? && first.value > (2 * p.slo.maxP99Ms) as real
      && second.Some? && second.value > (3 * p.slo.maxP99Ms) as real
    }

    /** One canary step: check the lag, observe, then checkpoint a healthy step or apply on_failure. */
    method CanaryStep(p: MigrationPlan, i: nat)
      returns (ok: bool, diverted: bool, ghost first: Option<real>, ghost second: Option<real>)
      requires Valid() && store.recs[id].state == State.Canary && p == env.plan
      requires i < |p.canarySteps| && pc == Steps(i)
      modifies this`pc, this`acts, store, luck
      ensures Valid() && store.recs[id].state == State.Canary && luck.troubles >= old(luck.troubles)
      ensures luck.lags == old(luck.lags) + if LagsAtStep(p, first, second) then 1 else 0
      ensures ok ==> !LagsAtStep(p, first, second) && diverted == Breaches(p, p.canarySteps[i])
      ensures ok && diverted ==> p.onFailure == OnRollback && pc == Exit(RollingBack, Breach(p.canarySteps[i]))
      ensures ok && !diverted ==> pc == Steps(i + 1)
      ensures luck.troubles == old(luck.troubles) && !LagsAtStep(p, first, second) ==>
                (ok <==> (Breaches(p, p.canarySteps[i]) ==> p.onFailure == OnRollback))
    {
      first, second := None, None;
      var cancelled := luck.Fails();
      if cancelled { return false, false, first, second; }
      var now: Option<real>, later: Option<real> := *, *;
      first, second := now, later;
      var blocked := LagBlocks(now, later, p.slo.maxP99Ms as real * 2.0, p.slo.maxP99Ms as real * 3.0);
      if blocked {
        luck.Lag();
        return false, false, first, second;
      }
      var step := p.canarySteps[i];
      diverted := SloBreached(ObserveCanary(p, step), p.slo);
      if diverted {
        Took(Observe);
        return p.onFailure == OnRollback, true, first, second;
      }
      ok := SaveCheckpoint(State.Canary, CanaryAt(step), Observe);
    }

    /** On to Cutover if every step is healthy; else to rollback, if the plan says so, naming the
        first breach. */
    static ghost predicate IsVerdict(p: MigrationPlan, r: Result) {
      if CanaryPhase.AllHealthy(p, |p.canarySteps|) then r == Result(CanaryAt(100), None)
      else r.next == Some(RollingBack) && p.onFailure == OnRollback && CanaryPhase.NamesFirstBreach(p, r.ck)
    }

    static lemma HealthySoFar(p: MigrationPlan, i: nat)
      requires i < |p.canarySteps| && CanaryPhase.AllHealthy(p, i)
      ensures CanaryPhase.AllHealthy(p, i + 1) <==> !Breaches(p, p.canarySteps[i])
      ensures Breaches(p, p.canarySteps[i]) ==> !CanaryPhase.AllHealthy(p, |p.canarySteps|)
    {
    }

    static lemma StopsAt(p: MigrationPlan, i: nat)
      requires i < |p.canarySteps| && CanaryPhase.AllHealthy(p, i) && Breaches(p, p.canarySteps[i])
      requires p.onFailure == OnRollback
      ensures IsVerdict(p, Result(Breach(p.canarySteps[i]), Some(RollingBack)))
    {
      assert CanaryPhase.FirstBreach(p, i);
    }

    /** Some step breaches and the plan does not say rollback. */
    static ghost predicate CanaryRefuses(p: MigrationPlan) {
      !CanaryPhase.AllHealthy(p, |p.canarySteps|) && p.onFailure != OnRollback
    }

    /** Leaves the canary only with the plan's verdict, and without trouble does so unless the plan says
        pause on a breach. Nothing starts while the replica lags more than the latency limit. */
    method Canary(p: MigrationPlan) returns (res: Option<Result>, ghost lag: Option<real>)
      requires Valid() && pc.Down? && store.recs[id].state == State.Canary && p == env.plan
      modifies this`pc, this`acts, store, luck
      ensures Valid() && store.recs[id].state == State.Canary
      ensures luck.troubles >= old(luck.troubles) && luck.lags >= old(luck.lags)
      ensures lag.Some? && lag.value > p.slo.maxP99Ms as real ==> res.None? && luck.lags == old(luck.lags) + 1
      ensures res.Some? ==> Leaves(State.Canary, res.value)
      ensures res.Some? ==> IsVerdict(p, res.value)
      ensures luck.troubles == old(luck.troubles) && luck.lags == old(luck.lags) ==>
                (res.Some? <==> !CanaryRefuses(p))
    {
      Begin();
      var read: Option<real> := *;
      lag := read;
      if read.Some? && read.value > p.slo.maxP99Ms as real {
        luck.Lag();
        return None, lag;
      }
      res := WalkSteps(p);
    }

    method WalkSteps(p: MigrationPlan) returns (res: Option<Result>)
      requires Valid() && pc == Steps(0) && store.recs[id].state == State.Canary && p == env.plan
      modifies this`pc, this`acts, store, luck
      ensures Valid() && store.recs[id].state == State.Canary
      ensures luck.troubles >= old(luck.troubles) && luck.lags >= old(luck.lags)
      ensures res.Some? ==>
                pc == if res.value.next.None? then Steps(|p.canarySteps|) else Exit(RollingBack, res.value.ck)
      ensures res.Some? ==> IsVerdict(p, res.value)
      ensures res.None? && luck.troubles == old(luck.troubles) && luck.lags == old(luck.lags) ==> CanaryRefuses(p)
    {
      for i := 0 to |p.canarySteps|
        invariant Valid() && pc == Steps(i) && store.recs[id].state == State.Canary
        invariant luck.troubles >= old(luck.troubles) && luck.lags >= old(luck.lags)
        invariant CanaryPhase.AllHealthy(p, i)
      {
        var ok, diverted, _, _ := CanaryStep(p, i);
        HealthySoFar(p, i);
        if !ok { return None; }
        if diverted {
          StopsAt(p, i);
          return Some(Result(Breach(p.canarySteps[i]), Some(RollingBack)));
        }
      }
      res := Some(Result(CanaryAt(100), None));
    }

    /** The compatibility flags of the registered services; None when the query fails. Ready means
        at least one service and all of them compatible. */
    method AllServicesReady(registry: Option<seq<bool>>) returns (r: Readiness, notReady: nat)
      ensures r == QueryFailed <==> registry.None?
      ensures registry.Some? ==> (r == AllReady <==> registry.value != [] && false !in registry.value)
      ensures notReady > 0 <==> registry.Some? && false in registry.value
    {
      if registry.None? { return QueryFailed, 0; }
      var total, ready := |registry.value|, Compatible(registry.value);
      CompatibleIsAll(registry.value);
      r := if total == ready && total > 0 then AllReady else SomeNotReady;
      notReady := total - ready;
    }

    /** Waits once for services that are not ready. */
    method PollServices(p: MigrationPlan) returns (blocked: bool, ghost first: Readiness, ghost second: Readiness)
      requires Valid() && pc.Polling? && p == env.plan
      modifies this`pc, this`acts
      ensures Valid() && acts == old(acts) + [Poll(first, second)]
      ensures blocked <==> first == SomeNotReady && second == SomeNotReady
      ensures pc == if blocked then Failing(p, NotReady)
                    else if p.backfill.column == "" then Exit(Contracting, Step(State.Cutover)) else Gating
    {
      var registry: Option<seq<bool>> := *;
      var answer, _ := AllServicesReady(registry);
      first, second, blocked := answer, AllReady, false;
      if answer == SomeNotReady {
        registry := *;
        var again, _ := AllServicesReady(registry);
        second, blocked := again, again == SomeNotReady;
      }
      Took(Poll(first, second));
    }

    method ScanTable(p: MigrationPlan) returns (ok: bool, rep: Report)
      requires Valid() && pc.Gating? && p == env.plan
      modifies this`tab, this`pc, this`acts, luck`troubles
      ensures Valid() && luck.troubles >= old(luck.troubles) && (luck.troubles == old(luck.troubles) ==> ok)
      ensures ok ==> rep == Scan(tab, env.source)
      ensures ok ==> (GatePasses(env, tab) <==> rep.nulls == 0 && ParityOf(rep) >= Threshold(p))
      ensures ok ==> pc == if GatePasses(env, tab) then Exit(Contracting, Committed(ParityOf(rep), rep.total))
                           else Failing(p, CutoverAbort(ParityOf(rep)))
    {
      OthersWrite();
      var failed := luck.Fails();
      ok, rep := !failed, Report(0, 0, 0);
      if !ok { return; }
      rep := Scan(tab, env.source);
      Took(Gate);
    }

    /** What the gate says of a table that was scanned. */
    ghost function GateVerdict(p: MigrationPlan, t: Table): Option<Result> {
      var parity := ParityOf(Scan(t, env.source));
      if GatePasses(env, t) then Some(Result(Checkpoint.Committed(parity, |t|), None))
      else if p.onFailure == OnRollback then Some(Result(CutoverAbort(parity), Some(RollingBack)))
      else None
    }

    method PassGate(p: MigrationPlan) returns (res: Option<Result>, ghost read: bool)
      requires Valid() && pc.Gating? && store.recs[id].state == State.Cutover && p == env.plan
      modifies this`tab, this`pc, this`acts, luck`troubles
      ensures Valid() && luck.troubles >= old(luck.troubles) && (luck.troubles == old(luck.troubles) ==> read)
      ensures res.Some? ==> Leaves(State.Cutover, res.value)
      ensures res == if read then GateVerdict(p, tab) else None
    {
      var ok, rep := ScanTable(p);
      read := ok;
      if !ok { return None, read; }
      var parity := ParityOf(rep);
      if rep.nulls > 0 || parity < Threshold(p) {
        if p.onFailure == OnRollback { return Some(Result(CutoverAbort(parity), Some(RollingBack))), read; }
        return None, read;
      }
      res := Some(Result(Checkpoint.Committed(parity, rep.total), None));
    }

    /** first and second are the services' answers, read says whether the table was scanned. Services
        unready twice and a failing gate end in rollback or in nothing, as on_failure says; otherwise
        the cutover is committed. */
    method Cutover(p: MigrationPlan)
      returns (res: Option<Result>, ghost first: Readiness, ghost second: Readiness, ghost read: bool)
      requires Valid() && pc.Down? && store.recs[id].state == State.Cutover && p == env.plan
      modifies this`tab, this`pc, this`acts, luck`troubles
      ensures Valid() && luck.troubles >= old(luck.troubles)
      ensures res.Some? ==> Leaves(State.Cutover, res.value)
      ensures if first == SomeNotReady && second == SomeNotReady then
                && acts == old(acts) + [Enter, Poll(SomeNotReady, SomeNotReady)]
                && res == if p.onFailure == OnRollback then Some(Result(NotReady, Some(RollingBack))) else None
              else if p.backfill.column == "" then res == Some(Result(Step(State.Cutover), None))
              else (luck.troubles == old(luck.troubles) ==> read) && res == if read then GateVerdict(p, tab) else None
    {
      Begin();
      read := false;
      var blocked;
      blocked, first, second := PollServices(p);
      if blocked {
        if p.onFailure == OnRollback { return Some(Result(NotReady, Some(RollingBack))), first, second, read; }
        return None, first, second, read;
      }
      if p.backfill.column == "" { return Some(Result(Step(State.Cutover), None)), first, second, read; }
      res, read := PassGate(p);
    }

    /* ---------- The driver ---------- */

    /** A gate, or the database itself, has said no: why an untroubled handler returned nothing. */
    ghost predicate SaysNo(log: seq<Action>)
      reads this, store
      requires id in store.recs
    {
      var p := env.plan;
      match store.recs[id].state
      case Verifying =>
        p.backfill.column != ""
        && (Nulls(tab) != {} || exists ids :: IsSample(p, tab, ids) && ShareOf(tab, ids, env.source) < Threshold(p))
      case Canary => CanaryRefuses(p)
      case Cutover =>
        p.onFailure != OnRollback
        && (|| (log != [] && log[|log| - 1] == Poll(SomeNotReady, SomeNotReady))
            || (p.backfill.column != "" && !GatePasses(env, tab)))
      case _ => exists st :: st in Statements(p, store.recs[id].state) && Rejected(st)
    }

    /** The three states that run a list of statements. */
    method HandleStatements(p: MigrationPlan, rec: Record) returns (res: Option<Result>)
      requires Valid() && pc.Down? && store.recs[id] == rec && p == env.plan
      requires rec.state == Expanding || rec.state == Contracting || rec.state == RollingBack
      modifies this`sch, this`tab, this`sent, this`slept, this`ddlLog, this`pc, this`acts, luck`troubles
      ensures Valid() && luck.troubles >= old(luck.troubles)
      ensures res.Some? ==> Leaves(rec.state, res.value)
      ensures res.None? && luck.troubles == old(luck.troubles) ==>
                exists st :: st in Statements(p, rec.state) && Rejected(st)
    {
      match rec.state
      case Expanding =>
        var r, k := Expand(p);
        res := r;
        assert res.None? ==> p.expand[k] in p.expand;
      case Contracting =>
        var r, k := Contract(p);
        res := r;
        assert res.None? ==> p.contract[k] in p.contract;
      case RollingBack => res := Rollback(p);
    }

    /** The three states that only decide. */
    method HandleGate(p: MigrationPlan, rec: Record) returns (res: Option<Result>)
      requires Valid() && pc.Down? && store.recs[id] == rec && p == env.plan
      requires rec.state == Verifying || rec.state == State.Canary || rec.state == State.Cutover
      modifies this`tab, this`pc, this`acts, store, luck
      ensures Valid() && store.recs[id].state == rec.state
      ensures luck.troubles >= old(luck.troubles) && luck.lags >= old(luck.lags)
      ensures res.Some? ==> Leaves(rec.state, res.value)
      ensures res.None? && luck.troubles == old(luck.troubles) && luck.lags == old(luck.lags) ==> SaysNo(acts)
    {
      match rec.state
      case Verifying =>
        var r, _, _ := Verify(p);
        res := r;
      case Canary =>
        var r, _ := Canary(p);
        res := r;
      case Cutover =>
        var r, _, _, _ := Cutover(p);
        res := r;
    }

    method Handle(p: MigrationPlan, rec: Record) returns (res: Option<Result>)
      requires Valid() && pc.Down? && store.recs[id] == rec && !IsTerminal(rec.state) && p == env.plan
      modifies this, store, luck
      ensures Valid() && store.recs[id].state == rec.state
      ensures luck.troubles >= old(luck.troubles) && luck.lags >= old(luck.lags)
      ensures res.Some? ==> Leaves(rec.state, res.value)
      ensures res.None? && luck.troubles == old(luck.troubles) && luck.lags == old(luck.lags) ==> SaysNo(acts)
    {
      match rec.state
      case Pending =>
        Begin();
        res := Some(Result(Step(Pending), None));
      case Backfilling =>
        var r, _ := Backfill(p, rec);
        res := r;
      case Verifying | Canary | Cutover => res := HandleGate(p, rec);
      case Expanding | Contracting | RollingBack => res := HandleStatements(p, rec);
    }

    /** Persists a transition; from is the driver's own idea of the current state. */
    method Advance(from: State, to: State, ck: Storage.Checkpoint) returns (ok: bool)
      requires Valid() && store.recs[id].state == from && Leaving(env, Here()) == Some((to, ck))
      modifies this`pc, this`acts, store, luck`troubles
      ensures Valid() && (ok ==> store.recs[id].state == to && pc == Down)
      ensures luck.troubles >= old(luck.troubles) && (luck.troubles == old(luck.troubles) ==> ok)
    {
      ghost var c := Here();
      Extends(c, Save);
      var now: int, tx: Tx := *, *;
      ok := store.SaveState(id, from, to, ck, IsTerminal(to), now, tx);
      if tx != Aborted {
        pc := Down;
        acts := acts + [Save];
      }
      if !ok { luck.Trouble(); }
    }

    /** A generated plan, on a schema where its names were free. */
    ghost predicate Restorable() {
      Outcomes.IsGenerated(env.plan) && WellFormed(c0.sch) && Fresh(env.plan.table, env.plan.addColumns, c0.sch)
    }

    /** A table and plan the backfill completes. */
    ghost predicate Fillable() {
      Completeness.Simple(env, c0.tab) && Completeness.KeepsValues(env.plan) && Completeness.Contiguous(c0.tab)
    }

    /** One engine life for this migration: from whatever state is on disk towards a terminal
        one. It may be called again after every failure. Without trouble and lag it only ends early
        when something said no. */
    method Run() returns (ok: bool)
      requires Valid() && pc.Down?
      modifies this, store, luck
      ensures Valid() && pc.Down?
      ensures ok ==> IsTerminal(store.recs[id].state)
      ensures !ok && luck.troubles == old(luck.troubles) && luck.lags == old(luck.lags) ==>
                acts != [] && SaysNo(acts[..|acts| - 1])
      ensures Durable.Consistent(store.recs[id])
      ensures Restorable() && store.recs[id].state == RolledBack ==> sch == c0.sch
      ensures Fillable() && Quiet(acts) && Completeness.PastBackfill(store.recs[id].state) ==>
                Completeness.IsFilled(env, c0.tab, tab)
    {
      ok := Drive();
      ghost var log := acts;
      Took(Crash);
      assert acts[..|acts| - 1] == log;
      Durable.RecordAlwaysConsistent(env, c0, acts);
      if Outcomes.IsGenerated(env.plan) && WellFormed(c0.sch) {
        Outcomes.TwoOutcomes(env, c0, acts);
      }
      if Fillable() && Quiet(acts) {
        Completeness.CrashResumedEqualsOneShot(env, c0, acts);
      }
    }

    method Drive() returns (ok: bool)
      requires Valid() && pc.Down?
      modifies this, store, luck
      ensures Valid()
      ensures ok ==> IsTerminal(store.recs[id].state)
      ensures !ok && luck.troubles == old(luck.troubles) && luck.lags == old(luck.lags) ==> SaysNo(acts)
    {
      var loaded := store.Load(id);
      var cur := loaded.value.1.state;
      while !IsTerminal(cur)
        invariant Valid() && pc.Down? && store.recs[id].state == cur
        invariant luck.troubles >= old(luck.troubles) && luck.lags >= old(luck.lags)
        decreases Durable.Rank(cur)
      {
        var interrupted := luck.Fails();  // cancelled, or the record could not be read
        if interrupted { return false; }
        loaded := store.Load(id);
        var res := Handle(loaded.value.0, loaded.value.1);
        if res.None? { return false; }
        var to := Target(cur, res.value).value;
        PcFitsAlways(env, c0, acts);
        Durable.LeavingFollowsEdge(env, Here());
        Durable.EdgeLowersRank(cur, to);
        ok := Advance(cur, to, res.value.ck);
        if !ok { return false; }
        cur := to;
      }
      return true;
    }
  }

  lemma MaxMeaning(t: Table, last: int, m: RowId)
    requires IsMax(m, SetAbove(t, last))
    ensures if exists i :: i in t && t[i].val.Some? && i > last then
              && m in t && t[m].val.Some? && m > last
              && forall i :: i in t && t[i].val.Some? ==> i <= m
            else m == 0
  {
    if i :| i in t && t[i].val.Some? && i > last { assert i in SetAbove(t, last); }
    forall i | i in t && t[i].val.Some? && i > last ensures i <= m { assert i in SetAbove(t, last); }
  }
}
