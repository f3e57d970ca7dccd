/** The declarative migration plan and its normalisation on submission. */
module Plan {
  import opened Options
  import opened Ddl

  /** The two string-valued settings, with the empty string and any unknown one told apart. */
  datatype Strategy = NoStrategy | ExpandContract | OtherStrategy(text: string)
  datatype FailureAction = NoAction | OnRollback | OnPause | OtherAction(text: string)

  datatype Backfill = Backfill(column: string, batchSize: int, throttleMs: int, sourceExpr: string, multiSql: string)
  datatype Slo = Slo(maxP99Ms: int, maxErrorPct: real, minParity: real)

  /** Only the fields that validation or the runner looks at. */
  datatype MigrationPlan = MigrationPlan(
    id: string, version: int, table: string, strategy: Strategy,
    expand: seq<Stmt>, contract: seq<Stmt>, rollback: seq<Stmt>,
    backfill: Backfill, parityThreshold: real, sampleRate: real,
    canarySteps: seq<int>, slo: Slo, onFailure: FailureAction, failCanaryAtStep: int,
    addColumns: seq<ColumnSpec>, dropColumns: seq<string>)

  datatype Verdict =
    | Accepted
    | NoId | BadVersion | NoTable | BadTable | BadColumn | NoSourceExpr
    | BadStrategy | NothingToDo | BadStep(step: int) | BadOnFailure

  predicate IsLetter(c: char) { 'a' <= c <= 'z' || 'A' <= c <= 'Z' || c == '_' }

  predicate IsIdent(s: string) {
    |s| > 0 && IsLetter(s[0]) && forall i :: 0 < i < |s| ==> IsLetter(s[i]) || '0' <= s[i] <= '9'
  }

  /** The fields generation fills, and only where the operator left them empty. */
  function WithGenerated(p: MigrationPlan): MigrationPlan {
    var out := Generated(p.table, p.addColumns, p.dropColumns);
    p.(expand := if p.expand == [] then out.expand else p.expand,
       contract := if p.contract == [] then out.contract else p.contract,
       rollback := if p.rollback == [] then out.rollback else p.rollback,
       backfill := BackfillWith(p.backfill, out))
  }

  function BackfillWith(b: Backfill, out: Output): Backfill {
    Backfill(
      if b.column == "" then out.backfillColumn else b.column,
      if b.batchSize == 0 then 5000 else b.batchSize,
      if b.throttleMs == 0 then 20 else b.throttleMs,
      if b.sourceExpr == "" then out.backfillExpr else b.sourceExpr,
      if b.multiSql == "" then out.backfillMulti else b.multiSql)
  }

  predicate StepInRange(s: int) { 0 < s <= 100 }

  /** What the runner may rely on in a plan that was accepted. */
  ghost predicate Runnable(p: MigrationPlan) { p.id != "" && p.version > 0 && IsIdent(p.table) && Complete(p) }

  ghost predicate Complete(p: MigrationPlan) {
    && (p.backfill.column != "" ==> IsIdent(p.backfill.column) && p.backfill.sourceExpr != "")
    && p.strategy == ExpandContract
    && (p.expand != [] || p.addColumns != [] || p.dropColumns != [])
    && p.canarySteps != [] && (forall s :: s in p.canarySteps ==> StepInRange(s))
    && (p.onFailure == OnRollback || p.onFailure == OnPause)
    && p.parityThreshold != 0.0
  }

  /** A plan under validation: Validate overwrites its fields as it goes. */
  class Draft {
    var p: MigrationPlan

    constructor (plan: MigrationPlan)
      ensures p == plan
    {
      p := plan;
    }

    method GenerateDdl()
      modifies this
      ensures p == WithGenerated(old(p))
    {
      var out := Generate(p.table, p.addColumns, p.dropColumns);
      if |p.expand| == 0 { p := p.(expand := out.expand); }
      if |p.contract| == 0 { p := p.(contract := out.contract); }
      if |p.rollback| == 0 { p := p.(rollback := out.rollback); }
      var b := p.backfill;
      if b.column == "" && out.backfillColumn != "" { b := b.(column := out.backfillColumn); }
      if b.sourceExpr == "" && out.backfillExpr != "" { b := b.(sourceExpr := out.backfillExpr); }
      if b.multiSql == "" && out.backfillMulti != "" { b := b.(multiSql := out.backfillMulti); }
      if b.batchSize == 0 { b := b.(batchSize := 5000); }
      if b.throttleMs == 0 { b := b.(throttleMs := 20); }
      assert b == BackfillWith(p.backfill, out);
      p := p.(backfill := b);
    }

    method Validate() returns (v: Verdict)
      modifies this
      ensures (p, v) == Validated(old(p))
    {
      if p.id == "" { return NoId; }
      if p.version <= 0 { return BadVersion; }
      if p.table == "" { return NoTable; }
      if !IsIdent(p.table) { return BadTable; }
      if |p.addColumns| > 0 || |p.dropColumns| > 0 {
        GenerateDdl();
      }
      v := Finish();
    }

    /** The part of Validate after generation. */
    method Finish() returns (v: Verdict)
      modifies this
      ensures (p, v) == Finished(old(p))
    {
      if p.backfill.column != "" && !IsIdent(p.backfill.column) { return BadColumn; }
      if p.backfill.column != "" && p.backfill.sourceExpr == "" { return NoSourceExpr; }
      if p.strategy == NoStrategy { p := p.(strategy := ExpandContract); }
      if p.strategy != ExpandContract { return BadStrategy; }
      if |p.expand| == 0 && |p.dropColumns| == 0 && |p.addColumns| == 0 { return NothingToDo; }
      if |p.canarySteps| == 0 { p := p.(canarySteps := [1, 5, 25, 100]); }
      assert p == WithSteps(WithStrategy(old(p)));
      var bad := CheckSteps(p.canarySteps);
      if bad.Some? { return BadStep(bad.value); }
      if p.onFailure == NoAction { p := p.(onFailure := OnRollback); }
      if p.onFailure != OnRollback && p.onFailure != OnPause { return BadOnFailure; }
      if p.parityThreshold == 0.0 { p := p.(parityThreshold := 0.999); }
      return Accepted;
    }
  }

  /** The range loop over the canary steps. */
  method CheckSteps(steps: seq<int>) returns (bad: Option<int>)
    ensures bad == FirstBad(steps)
    ensures bad.None? <==> forall s :: s in steps ==> StepInRange(s)
  {
    for i := 0 to |steps|
      invariant FirstBad(steps) == FirstBad(steps[i..])
      invariant forall k :: 0 <= k < i ==> StepInRange(steps[k])
    {
      assert steps[i..][1..] == steps[i + 1..];
      if steps[i] <= 0 || steps[i] > 100 { return Some(steps[i]); }
    }
    return None;
  }

  /* ---------- The result of Validate as a function of the submitted plan ---------- */

  function FirstBad(steps: seq<int>): Option<int> {
    if steps == [] then None
    else if !StepInRange(steps[0]) then Some(steps[0])
    else FirstBad(steps[1..])
  }

  lemma {:induction false} FirstBadNone(steps: seq<int>)
    ensures FirstBad(steps).None? <==> forall s :: s in steps ==> StepInRange(s)
  {
    if steps != [] { FirstBadNone(steps[1..]); }
  }

  function Filled(p: MigrationPlan): MigrationPlan {
    if p.addColumns != [] || p.dropColumns != [] then WithGenerated(p) else p
  }

  function WithStrategy(p: MigrationPlan): MigrationPlan {
    if p.strategy == NoStrategy then p.(strategy := ExpandContract) else p
  }

  function WithSteps(p: MigrationPlan): MigrationPlan {
    if p.canarySteps == [] then p.(canarySteps := [1, 5, 25, 100]) else p
  }

  function WithOnFailure(p: MigrationPlan): MigrationPlan {
    if p.onFailure == NoAction then p.(onFailure := OnRollback) else p
  }

  function WithThreshold(p: MigrationPlan): MigrationPlan {
    if p.parityThreshold == 0.0 then p.(parityThreshold := 0.999) else p
  }

  function Finished(g: MigrationPlan): (MigrationPlan, Verdict) {
    if g.backfill.column != "" && !IsIdent(g.backfill.column) then (g, BadColumn)
    else if g.backfill.column != "" && g.backfill.sourceExpr == "" then (g, NoSourceExpr)
    else if WithStrategy(g).strategy != ExpandContract then (WithStrategy(g), BadStrategy)
    else if g.expand == [] && g.dropColumns == [] && g.addColumns == [] then (WithStrategy(g), NothingToDo)
    else
      var c := WithSteps(WithStrategy(g));
      match FirstBad(c.canarySteps)
      case Some(bad) => (c, BadStep(bad))
      case None =>
        var f := WithOnFailure(c);
        if f.onFailure != OnRollback && f.onFailure != OnPause then (f, BadOnFailure) else (WithThreshold(f), Accepted)
  }

  /** The plan as Validate leaves it, with its verdict. */
  function Validated(p: MigrationPlan): (MigrationPlan, Verdict) {
    if p.id == "" then (p, NoId)
    else if p.version <= 0 then (p, BadVersion)
    else if p.table == "" then (p, NoTable)
    else if !IsIdent(p.table) then (p, BadTable)
    else Finished(Filled(p))
  }

  /** q is g with empty strategy, steps, on_failure and threshold defaulted. */
  ghost predicate Defaulted(g: MigrationPlan, q: MigrationPlan) {
    && q == g.(strategy := q.strategy, canarySteps := q.canarySteps, onFailure := q.onFailure,
               parityThreshold := q.parityThreshold)
    && (g.canarySteps != [] ==> q.canarySteps == g.canarySteps)
    && (g.onFailure != NoAction ==> q.onFailure == g.onFailure)
    && (g.parityThreshold != 0.0 ==> q.parityThreshold == g.parityThreshold)
  }

  lemma FinishedDefaults(g: MigrationPlan)
    ensures Defaulted(g, Finished(g).0)
  {
    var s := WithStrategy(g);
    assert Defaulted(g, s);
    var c := WithSteps(s);
    assert Defaulted(g, c);
    var f := WithOnFailure(c);
    assert Defaulted(g, f);
    assert Defaulted(g, WithThreshold(f));
  }

  /** What every check has passed when the plan is accepted. */
  lemma ChecksPassed(g: MigrationPlan)
    requires Finished(g).1 == Accepted
    ensures g.backfill.column != "" ==> IsIdent(g.backfill.column) && g.backfill.sourceExpr != ""
    ensures g.expand != [] || g.addColumns != [] || g.dropColumns != []
    ensures var f := WithOnFailure(WithSteps(WithStrategy(g)));
            && f.strategy == ExpandContract && FirstBad(f.canarySteps).None?
            && (f.onFailure == OnRollback || f.onFailure == OnPause) && Finished(g).0 == WithThreshold(f)
  {
  }

  lemma FinishedComplete(g: MigrationPlan)
    requires Finished(g).1 == Accepted
    ensures Complete(Finished(g).0)
  {
    ChecksPassed(g);
    FirstBadNone(Finished(g).0.canarySteps);
    FinishedDefaults(g);
  }

  lemma FinishedFixed(g: MigrationPlan)
    ensures Finished(g) == (g, Accepted) <==> Complete(g)
  {
    FirstBadNone(g.canarySteps);
    if Finished(g) == (g, Accepted) { FinishedComplete(g); }
  }

  lemma FilledTwice(p: MigrationPlan)
    ensures Filled(Filled(p)) == Filled(p)
  {
  }

  /** Defaults touch nothing generation reads or writes. */
  lemma DefaultsKeepFilled(g: MigrationPlan, q: MigrationPlan)
    requires Filled(g) == g && Defaulted(g, q)
    ensures Filled(q) == q
  {
    assert Generated(q.table, q.addColumns, q.dropColumns) == Generated(g.table, g.addColumns, g.dropColumns);
  }

  lemma FinishAccepts(g: MigrationPlan, q: MigrationPlan)
    requires Finished(g) == (q, Accepted) && Filled(g) == g
    ensures Complete(q) && Filled(q) == q && q.id == g.id && q.version == g.version && q.table == g.table
  {
    FinishedDefaults(g);
    FinishedComplete(g);
    DefaultsKeepFilled(g, q);
  }

  /** What an accepted plan is left as satisfies everything the runner assumes, and nothing
      remains to generate. */
  lemma AcceptedIsRunnable(p: MigrationPlan)
    requires Validated(p).1 == Accepted
    ensures Runnable(Validated(p).0) && Filled(Validated(p).0) == Validated(p).0
  {
    FilledTwice(p);
    FinishAccepts(Filled(p), Validated(p).0);
  }

  /** The fixed points of Validate are exactly the runnable plans with nothing left to generate. */
  lemma FixedPoints(p: MigrationPlan)
    ensures Validated(p) == (p, Accepted) <==> Runnable(p) && Filled(p) == p
  {
    if Runnable(p) && Filled(p) == p { FinishedFixed(p); }
    if Validated(p) == (p, Accepted) { AcceptedIsRunnable(p); }
  }

  /** Validation is idempotent, for every mix of explicit and generated fields. */
  lemma ValidateIdempotent(p: MigrationPlan)
    requires Validated(p).1 == Accepted
    ensures Validated(Validated(p).0) == Validated(p)
  {
    AcceptedIsRunnable(p);
    FixedPoints(Validated(p).0);
  }

  /** q agrees with p wherever the operator wrote something in p. */
  ghost predicate Respects(p: MigrationPlan, q: MigrationPlan) {
    && (p.expand != [] ==> q.expand == p.expand)
    && (p.contract != [] ==> q.contract == p.contract)
    && (p.rollback != [] ==> q.rollback == p.rollback)
    && (p.backfill.column != "" ==> q.backfill.column == p.backfill.column)
    && (p.backfill.sourceExpr != "" ==> q.backfill.sourceExpr == p.backfill.sourceExpr)
    && (p.backfill.multiSql != "" ==> q.backfill.multiSql == p.backfill.multiSql)
    && (p.canarySteps != [] ==> q.canarySteps == p.canarySteps)
    && (p.onFailure != NoAction ==> q.onFailure == p.onFailure)
    && (p.parityThreshold != 0.0 ==> q.parityThreshold == p.parityThreshold)
    && q == p.(strategy := q.strategy, expand := q.expand, contract := q.contract, rollback := q.rollback,
               backfill := q.backfill, canarySteps := q.canarySteps, onFailure := q.onFailure,
               parityThreshold := q.parityThreshold)
  }

  lemma DefaultedRespects(p: MigrationPlan, g: MigrationPlan, q: MigrationPlan)
    requires Respects(p, g) && Defaulted(g, q)
    requires g.canarySteps == p.canarySteps && g.onFailure == p.onFailure && g.parityThreshold == p.parityThreshold
    ensures Respects(p, q)
  {
  }

  /** Validation never replaces what the operator wrote, and leaves slo, sample rate, chaos
      step and column specs alone. */
  lemma ExplicitFieldsSurvive(p: MigrationPlan)
    ensures Respects(p, Validated(p).0)
  {
    if Validated(p) == Finished(Filled(p)) {
      FinishedDefaults(Filled(p));
      DefaultedRespects(p, Filled(p), Finished(Filled(p)).0);
    }
  }

  /* ---------- Validate in the operator's terms ---------- */

  /** Identifiers hold letters, underscores and digits, and do not start with a digit. */
  lemma IdentMeaning(s: string)
    ensures IsIdent(s) <==>
            && s != "" && !('0' <= s[0] <= '9')
            && forall c :: c in s ==> 'a' <= c <= 'z' || 'A' <= c <= 'Z' || '0' <= c <= '9' || c == '_'
  {
    if IsIdent(s) {
      forall c | c in s ensures 'a' <= c <= 'z' || 'A' <= c <= 'Z' || '0' <= c <= '9' || c == '_' {
        var i :| 0 <= i < |s| && s[i] == c;
      }
    } else if s != "" {
      assert s[0] in s;
      if i :| 0 < i < |s| && !(IsLetter(s[i]) || '0' <= s[i] <= '9') { assert s[i] in s; }
    }
  }

  /** The plan's backfill column and expression, or those of the first column with an expression. */
  ghost predicate BackfillIs(p: MigrationPlan, column: string, expr: string) {
    && (p.backfill.column != "" ==> column == p.backfill.column)
    && (p.backfill.sourceExpr != "" ==> expr == p.backfill.sourceExpr)
    && (forall i: nat :: FirstExpression(p.addColumns, i) ==>
          && (p.backfill.column == "" ==> column == p.addColumns[i].name)
          && (p.backfill.sourceExpr == "" ==> expr == p.addColumns[i].expression))
    && ((forall j :: 0 <= j < |p.addColumns| ==> p.addColumns[j].expression == "") ==>
          column == p.backfill.column && expr == p.backfill.sourceExpr)
  }

  lemma FilledBackfill(p: MigrationPlan)
    ensures BackfillIs(p, Filled(p).backfill.column, Filled(p).backfill.sourceExpr)
  {
    BackfillOfFirst(p.table, p.addColumns, p.dropColumns);
  }

  predicate Declarative(p: MigrationPlan) { p.addColumns != [] || p.dropColumns != [] }

  /** For declarative plans the empty lists and settings are generated. */
  ghost predicate HasGenerated(p: MigrationPlan, q: MigrationPlan) {
    && q.expand == (if p.expand == [] && Declarative(p) then ExpandOf(p.table, p.addColumns) else p.expand)
    && q.contract ==
       (if p.contract == [] && Declarative(p) then ContractOf(p.addColumns, p.dropColumns) else p.contract)
    && q.rollback == (if p.rollback == [] && Declarative(p) then RollbackOf(p.table, p.addColumns) else p.rollback)
    && BackfillIs(p, q.backfill.column, q.backfill.sourceExpr)
    && q.backfill.multiSql ==
       (if p.backfill.multiSql == "" && Declarative(p) then CompositeOf(p.table, ExprCols(p.addColumns))
        else p.backfill.multiSql)
    && q.backfill.batchSize == (if p.backfill.batchSize == 0 && Declarative(p) then 5000 else p.backfill.batchSize)
    && q.backfill.throttleMs == (if p.backfill.throttleMs == 0 && Declarative(p) then 20 else p.backfill.throttleMs)
  }

  /** For all plans an empty strategy, step list, action and threshold are defaulted. */
  ghost predicate IsSettled(p: MigrationPlan, q: MigrationPlan) {
    && q.strategy == ExpandContract
    && q.canarySteps == (if p.canarySteps == [] then [1, 5, 25, 100] else p.canarySteps)
    && q.onFailure == (if p.onFailure == NoAction then OnRollback else p.onFailure)
    && q.parityThreshold == (if p.parityThreshold == 0.0 then 0.999 else p.parityThreshold)
  }

  ghost predicate SameRest(p: MigrationPlan, q: MigrationPlan) {
    && q.id == p.id && q.version == p.version && q.table == p.table && q.sampleRate == p.sampleRate
    && q.slo == p.slo && q.failCanaryAtStep == p.failCanaryAtStep
    && q.addColumns == p.addColumns && q.dropColumns == p.dropColumns
  }

  lemma FilledIs(p: MigrationPlan)
    ensures HasGenerated(p, Filled(p)) && SameRest(p, Filled(p))
    ensures var q := Filled(p);
            && q.strategy == p.strategy && q.canarySteps == p.canarySteps && q.onFailure == p.onFailure
            && q.parityThreshold == p.parityThreshold
  {
    FilledBackfill(p);
  }

  lemma DefaultsSettle(g: MigrationPlan)
    requires g.strategy in {NoStrategy, ExpandContract}
    ensures var q := WithThreshold(WithOnFailure(WithSteps(WithStrategy(g))));
            && IsSettled(g, q) && SameRest(g, q)
            && q.expand == g.expand && q.contract == g.contract && q.rollback == g.rollback && q.backfill == g.backfill
  {
  }

  lemma FinishedIs(g: MigrationPlan, q: MigrationPlan)
    requires Finished(g) == (q, Accepted)
    ensures IsSettled(g, q) && SameRest(g, q)
    ensures q.expand == g.expand && q.contract == g.contract && q.rollback == g.rollback && q.backfill == g.backfill
  {
    ChecksPassed(g);
    DefaultsSettle(g);
  }

  lemma Carried(p: MigrationPlan, g: MigrationPlan, q: MigrationPlan)
    requires HasGenerated(p, g) && SameRest(p, g) && IsSettled(g, q) && SameRest(g, q)
    requires g.canarySteps == p.canarySteps && g.onFailure == p.onFailure && g.parityThreshold == p.parityThreshold
    requires q.expand == g.expand && q.contract == g.contract && q.rollback == g.rollback && q.backfill == g.backfill
    ensures HasGenerated(p, q) && IsSettled(p, q) && SameRest(p, q)
  {
  }

  /** An accepted plan is the submitted one with its empty fields generated or defaulted. */
  lemma AcceptedIs(p: MigrationPlan)
    requires Validated(p).1 == Accepted
    ensures HasGenerated(p, Validated(p).0) && IsSettled(p, Validated(p).0) && SameRest(p, Validated(p).0)
  {
    FilledIs(p);
    FinishedIs(Filled(p), Validated(p).0);
    Carried(p, Filled(p), Validated(p).0);
  }

  /** The first check that the plan fails, with the backfill as it will be. */
  ghost predicate VerdictIs(p: MigrationPlan, column: string, expr: string, v: Verdict) {
    if p.id == "" then v == NoId
    else if p.version <= 0 then v == BadVersion
    else if p.table == "" then v == NoTable
    else if !IsIdent(p.table) then v == BadTable
    else if column != "" && !IsIdent(column) then v == BadColumn
    else if column != "" && expr == "" then v == NoSourceExpr
    else if p.strategy != NoStrategy && p.strategy != ExpandContract then v == BadStrategy
    else if p.expand == [] && p.addColumns == [] && p.dropColumns == [] then v == NothingToDo
    else if exists k :: FirstOutside(p.canarySteps, k) then
      exists k :: FirstOutside(p.canarySteps, k) && v == BadStep(p.canarySteps[k])
    else if p.onFailure !in {NoAction, OnRollback, OnPause} then v == BadOnFailure
    else v == Accepted
  }

  ghost predicate FirstOutside(steps: seq<int>, k: int) {
    0 <= k < |steps| && !(1 <= steps[k] <= 100) && forall j :: 0 <= j < k ==> 1 <= steps[j] <= 100
  }

  lemma {:induction false} FirstBadIs(steps: seq<int>)
    ensures match FirstBad(steps)
            case None => forall k :: !FirstOutside(steps, k)
            case Some(bad) => exists k :: FirstOutside(steps, k) && bad == steps[k]
  {
    if steps != [] {
      var rest := steps[1..];
      FirstBadIs(rest);
      if !StepInRange(steps[0]) {
        assert FirstOutside(steps, 0);
      } else if FirstBad(rest).Some? {
        var k :| FirstOutside(rest, k) && FirstBad(rest).value == rest[k];
        assert FirstOutside(steps, k + 1);
      } else {
        forall k ensures !FirstOutside(steps, k) {
          if FirstOutside(steps, k) { assert FirstOutside(rest, k - 1); }
        }
      }
    }
  }

  lemma VerdictOfFinished(g: MigrationPlan)
    ensures var v := Finished(g).1;
            if g.backfill.column != "" && !IsIdent(g.backfill.column) then v == BadColumn
            else if g.backfill.column != "" && g.backfill.sourceExpr == "" then v == NoSourceExpr
            else if g.strategy != NoStrategy && g.strategy != ExpandContract then v == BadStrategy
            else if g.expand == [] && g.dropColumns == [] && g.addColumns == [] then v == NothingToDo
            else if FirstBad(g.canarySteps).Some? then v == BadStep(FirstBad(g.canarySteps).value)
            else v == if g.onFailure in {NoAction, OnRollback, OnPause} then Accepted else BadOnFailure
  {
    assert FirstBad([1, 5, 25, 100]).None? by { FirstBadNone([1, 5, 25, 100]); }
  }

  lemma FilledExpand(p: MigrationPlan)
    ensures Filled(p).expand == [] && Filled(p).dropColumns == [] && Filled(p).addColumns == [] <==>
            p.expand == [] && p.addColumns == [] && p.dropColumns == []
  {
  }

  /** Validate reports the first failing check, and accepts exactly when there is none. */
  lemma VerdictMeaning(p: MigrationPlan)
    ensures exists column, expr :: BackfillIs(p, column, expr) && VerdictIs(p, column, expr, Validated(p).1)
  {
    var g := Filled(p);
    FilledIs(p);
    FilledExpand(p);
    VerdictOfFinished(g);
    FirstBadIs(p.canarySteps);
    assert VerdictIs(p, g.backfill.column, g.backfill.sourceExpr, Validated(p).1);
  }
}
