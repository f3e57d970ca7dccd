/** Exactly which tables the backfill completes, and what stops the run on the others. */
module Exactness {
  import opened Options
  import opened Ddl
  import opened Plan
  import opened Storage
  import opened Rows
  import opened Lifecycle
  import opened Completeness

  /** A first entry into the backfill of a migration nobody is driving. */
  ghost predicate AtBackfill(c: Conf) {
    c.rec.state == Backfilling && c.pc.Down? && !c.rec.checkpoint.Progress?
  }

  lemma {:induction false} PlayConcat(e: Env, c: Conf, a: seq<Action>, b: seq<Action>)
    requires Play(e, c, a).Some?
    ensures Play(e, c, a + b) == Play(e, Play(e, c, a).value, b)
  {
    if b == [] {
      assert a + b == a;
    } else {
      PlayConcat(e, c, a, b[..|b| - 1]);
      assert (a + b)[..|a + b| - 1] == a + b[..|b| - 1];
    }
  }

  lemma PlayOne(e: Env, c: Conf, x: Action)
    ensures Play(e, c, [x]) == After(e, c, x)
  {
    assert [x][..0] == [];
  }

  lemma PlayThen(e: Env, c: Conf, a: seq<Action>, x: Action)
    requires Play(e, c, a).Some? && After(e, Play(e, c, a).value, x).Some?
    ensures Play(e, c, a + [x]) == After(e, Play(e, c, a).value, x)
  {
    assert (a + [x])[..|a|] == a;
  }

  /** Row x is a NULL row behind last_id. */
  ghost predicate LeftBehind(x: RowId, c: Conf) {
    c.pc.Head? && x in Nulls(c.tab) && x <= c.pc.last
  }

  /** One whole iteration with batch size 1: the run after it, still inside the handler or leaving it. */
  lemma OneIteration(e: Env, c: Conf) returns (acts: seq<Action>, pick: set<RowId>)
    requires e.plan.backfill.multiSql == "" && c.rec.state == Backfilling && c.pc.Head? && PcFits(e, c)
    ensures Quiet(acts) && Play(e, c, acts).Some?
    ensures var c' := Play(e, c, acts).value;
            && c'.rec.state == Backfilling && PcFits(e, c')
            && (|| c'.pc.Exit?
                || (c'.pc.Head? && IsMax(c'.pc.last, SetAbove(c'.tab, c.pc.last)) && c'.pc.last > c.pc.last))
            && Lowest(pick, NullsAbove(c.tab, c.pc.last), 1) && c'.tab == Fill(c.tab, pick, e.source)
            && (c'.pc.Exit? ==> pick == {} || SetAbove(c'.tab, c.pc.last) == {} || c.pc.last < 0)
  {
    pick := LowestExists(NullsAbove(c.tab, c.pc.last), 1);
    var u := Update(1, pick, Fill(c.tab, pick, e.source));
    acts := [u];
    PlayOne(e, c, u);
    var c1 := Play(e, c, acts).value;
    PcFitsStep(e, c, u);
    if pick != {} {
      var max := MaxExists(SetAbove(c1.tab, c.pc.last));
      PlayThen(e, c, acts, ReadMax(max));
      PcFitsStep(e, c1, ReadMax(max));
      acts := acts + [ReadMax(max)];
      var c2 := Play(e, c, acts).value;
      if c2.pc.Advanced? {
        PlayThen(e, c, acts, SaveProgress);
        PcFitsStep(e, c2, SaveProgress);
        acts := acts + [SaveProgress];
      }
    }
  }

  /** A row left behind stays NULL until the handler has finished and the run moved on. */
  lemma {:induction false} StaysBehind(e: Env, c: Conf, x: RowId) returns (acts: seq<Action>)
    requires e.plan.backfill.multiSql == "" && c.rec.state == Backfilling && PcFits(e, c)
    requires LeftBehind(x, c) && c.pc.last <= MAX_ID
    ensures Quiet(acts) && Play(e, c, acts).Some?
    ensures var c' := Play(e, c, acts).value; c'.rec.state == Verifying && c'.pc.Down? && x in Nulls(c'.tab)
    decreases MAX_ID - c.pc.last
  {
    var pick;
    acts, pick := OneIteration(e, c);
    var c1 := Play(e, c, acts).value;
    assert x !in pick;
    if c1.pc.Exit? {
      PlayThen(e, c, acts, Save);
      acts := acts + [Save];
    } else {
      var rest := StaysBehind(e, c1, x);
      PlayConcat(e, c, acts, rest);
      acts := acts + rest;
    }
  }

  /** With batches of one row, a NULL row that is neither the lowest nor above every set row
      is left behind by the first iteration. */
  lemma SkippedByOne(e: Env, c: Conf, z: RowId, w: RowId, y: RowId) returns (acts: seq<Action>)
    requires e.plan.backfill.multiSql == "" && c.rec.state == Backfilling && PcFits(e, c)
    requires c.pc.Head? && c.pc.last == 0
    requires z in Nulls(c.tab) && w in Nulls(c.tab) && y in c.tab && c.tab[y].val.Some? && 0 < z < w <= y
    ensures Quiet(acts) && Play(e, c, acts).Some?
    ensures var c' := Play(e, c, acts).value;
            c'.rec.state == Backfilling && PcFits(e, c') && LeftBehind(w, c') && c'.pc.last <= MAX_ID
  {
    var pick;
    acts, pick := OneIteration(e, c);
    var c' := Play(e, c, acts).value;
    OnlyTheLowest(pick, NullsAbove(c.tab, 0), z, w);
    assert z in NullsAbove(c.tab, 0);
    assert |pick| == 1;
    assert y in SetAbove(c'.tab, 0);
    assert w in Nulls(c'.tab);
  }

  /** A table that is not contiguous has a crash-free run, with batches of one row, that
      leaves the handler with a NULL row behind. */
  lemma LeavesOneBehind(e: Env, c: Conf) returns (acts: seq<Action>, x: RowId)
    requires Simple(e, c.tab) && AtBackfill(c) && !Contiguous(c.tab)
    ensures Quiet(acts) && Play(e, c, acts).Some?
    ensures var c' := Play(e, c, acts).value; c'.rec.state == Verifying && c'.pc.Down? && x in Nulls(c'.tab)
  {
    acts := [Enter];
    PlayOne(e, c, Enter);
    var c1 := Play(e, c, acts).value;
    PcFitsStep(e, c, Enter);
    if i :| i in Nulls(c.tab) && i <= 0 {
      x := i;
    } else {
      var z, w, y :| z in Nulls(c.tab) && w in Nulls(c.tab) && y in c.tab && c.tab[y].val.Some? && z < w && y >= w;
      x := w;
      var first := SkippedByOne(e, c1, z, w, y);
      PlayConcat(e, c, acts, first);
      acts := acts + first;
    }
    var rest := StaysBehind(e, Play(e, c, acts).value, x);
    PlayConcat(e, c, acts, rest);
    acts := acts + rest;
  }

  /** A row left behind holds the migration in Verifying for good. */
  lemma {:induction false} NeverLeavesVerifying(e: Env, c: Conf, acts: seq<Action>)
    requires e.plan.backfill.column != "" && c.rec.state == Verifying && c.pc.Down? && Nulls(c.tab) != {}
    requires Quiet(acts) && Play(e, c, acts).Some?
    ensures var c' := Play(e, c, acts).value;
            c'.rec.state == Verifying && (c'.pc.Down? || c'.pc.NullGate?) && c'.tab == c.tab
  {
    if acts != [] {
      NeverLeavesVerifying(e, c, acts[..|acts| - 1]);
    }
  }

  lemma OnlyTheLowest(pick: set<RowId>, s: set<RowId>, z: RowId, w: RowId)
    requires Lowest(pick, s, 1) && z in s && w in s && z < w
    ensures w !in pick
  {
    if w in pick {
      SubsetSize({z, w}, pick);
    }
  }

  /** Every run, with any batch sizes and crashes, leaves the backfill with the one-shot
      result exactly when the table was contiguous. */
  lemma CompletesIffContiguous(e: Env, c: Conf)
    requires Simple(e, c.tab) && AtBackfill(c)
    ensures Contiguous(c.tab) <==>
            forall acts :: Quiet(acts) && Play(e, c, acts).Some? && Play(e, c, acts).value.rec.state == Verifying
                           ==> IsFilled(e, c.tab, Play(e, c, acts).value.tab)
  {
    if Contiguous(c.tab) {
      forall acts | Quiet(acts) && Play(e, c, acts).Some? && Play(e, c, acts).value.rec.state == Verifying
        ensures IsFilled(e, c.tab, Play(e, c, acts).value.tab)
      {
        PartialStart(e, c.tab);
        FillAlways(e, c.tab, c, acts);
        OneShotIff(e, c.tab, Play(e, c, acts).value.tab);
      }
    } else {
      var acts, x := LeavesOneBehind(e, c);
      var t := Play(e, c, acts).value.tab;
      assert x !in Nulls(OneShot(e, c.tab));
      OneShotIff(e, c.tab, t);
    }
  }

  /* ---------- Facts that need none of the assumptions above ---------- */

  /** A single-column batch writes the source expression's value into the picked rows, which are
      NULL and above last_id, and nothing else; it picks the lowest such rows, as many as it may. */
  lemma NeverOverwrites(e: Env, c: Conf, batch: nat, pick: set<RowId>, rows: Table)
    requires e.plan.backfill.multiSql == "" && After(e, c, Update(batch, pick, rows)).Some?
    ensures rows.Keys == c.tab.Keys
    ensures forall i :: i in c.tab ==>
              rows[i] == if i in pick then Row(c.tab[i].data, e.source(c.tab[i].data)) else c.tab[i]
    ensures forall i :: i in pick ==> i in c.tab && c.tab[i].val.None? && i > c.pc.last
    ensures |pick| <= batch
    ensures forall i :: i in c.tab && c.tab[i].val.None? && i > c.pc.last && i !in pick ==>
              |pick| == batch && forall x :: x in pick ==> x < i
  {
    if i :| i in c.tab && c.tab[i].val.None? && i > c.pc.last && i !in pick {
      NotAllPicked(pick, NullsAbove(c.tab, c.pc.last), batch, i);
    }
  }

  lemma NotAllPicked(pick: set<RowId>, s: set<RowId>, n: nat, i: RowId)
    requires Lowest(pick, s, n) && i in s && i !in pick
    ensures |pick| == n
  {
    SubsetSize(pick + {i}, s);
  }

  ghost predicate NoNullsInv(c: Conf) {
    match c.rec.state
    case Verifying => c.pc.SampleGate? || c.pc.Exit? ==> Nulls(c.tab) == {}
    case Canary => Nulls(c.tab) == {}
    case Cutover => Nulls(c.tab) == {}
    case _ => true
  }

  lemma NoNullsStep(e: Env, c: Conf, a: Action)
    requires e.plan.backfill.column != "" && PcFits(e, c) && NoNullsInv(c) && !a.Write? && After(e, c, a).Some?
    ensures NoNullsInv(After(e, c, a).value)
  {
  }

  /** Rows the backfill left behind stop the run in Verifying: without foreign writes no run
      is ever in Canary or Cutover while some row is NULL, whatever the expression, the NULL
      pattern or the statements are. */
  lemma {:induction false} LeftoversStopTheRun(e: Env, c0: Conf, acts: seq<Action>)
    requires e.plan.backfill.column != "" && Initial(c0) && Quiet(acts) && Play(e, c0, acts).Some?
    ensures NoNullsInv(Play(e, c0, acts).value)
  {
    if acts != [] {
      var front := acts[..|acts| - 1];
      LeftoversStopTheRun(e, c0, front);
      PcFitsAlways(e, c0, front);
      NoNullsStep(e, Play(e, c0, front).value, acts[|acts| - 1]);
    }
  }
}
