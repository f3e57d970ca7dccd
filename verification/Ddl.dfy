/** Expand / contract / rollback DDL generated from declarative column specs, and
    what each generated statement does to a table's schema. */
module Ddl {
  import opened Options
  import Text

  datatype ColumnSpec = ColumnSpec(name: string, typ: string, expression: string, nullable: bool, indexed: bool)

  /** The five statement shapes the generator emits; Raw is operator-written SQL,
      about whose effect nothing is known. */
  datatype Stmt =
    | AddColumn(column: string, typ: string)
    | CreateIndex(index: string, column: string)
    | DropColumn(column: string)
    | DropIndex(index: string)
    | SetNotNull(column: string)
    | Raw(sql: string)

  datatype Column = Column(typ: string, notNull: bool)

  /** Columns by name, and for each index the column it covers. */
  datatype Schema = Schema(cols: map<string, Column>, idx: map<string, string>)

  ghost predicate WellFormed(s: Schema) {
    forall n :: n in s.idx ==> s.idx[n] in s.cols
  }

  /* ---------- What one statement does ---------- */

  /** None when Postgres rejects the statement. Dropping a column drops its indexes. */
  function Apply(st: Stmt, s: Schema): Option<Schema> {
    match st
    case AddColumn(c, t) => Some(if c in s.cols then s else s.(cols := s.cols[c := Column(t, false)]))
    case CreateIndex(n, c) =>
      if c !in s.cols then None
      else Some(if n in s.idx then s else s.(idx := s.idx[n := c]))
    case DropColumn(c) => Some(Schema(s.cols - {c}, map n | n in s.idx && s.idx[n] != c :: s.idx[n]))
    case DropIndex(n) => Some(s.(idx := s.idx - {n}))
    case SetNotNull(c) =>
      if c !in s.cols then None
      else Some(s.(cols := s.cols[c := s.cols[c].(notNull := true)]))
    case Raw(_) => None
  }

  function ApplyAll(ss: seq<Stmt>, s: Schema): Option<Schema> {
    if ss == [] then Some(s)
    else match ApplyAll(ss[..|ss| - 1], s)
      case None => None
      case Some(m) => Apply(ss[|ss| - 1], m)
  }

  lemma ApplyAllSnoc(ss: seq<Stmt>, st: Stmt, s: Schema)
    ensures ApplyAll(ss + [st], s) == match ApplyAll(ss, s) case None => None case Some(m) => Apply(st, m)
  {
    assert (ss + [st])[..|ss|] == ss;
  }

  lemma ApplyAllStep(ss: seq<Stmt>, i: nat, s: Schema)
    requires i < |ss|
    ensures ApplyAll(ss[..i + 1], s) == match ApplyAll(ss[..i], s) case None => None case Some(m) => Apply(ss[i], m)
  {
    assert ss[..i + 1] == ss[..i] + [ss[i]];
    ApplyAllSnoc(ss[..i], ss[i], s);
  }

  lemma {:induction false} ApplyAllConcat(a: seq<Stmt>, b: seq<Stmt>, s: Schema)
    ensures ApplyAll(a + b, s) == match ApplyAll(a, s) case None => None case Some(m) => ApplyAll(b, m)
  {
    if b == [] {
      assert a + b == a;
    } else {
      ApplyAllConcat(a, b[..|b| - 1], s);
      assert (a + b)[..|a + b| - 1] == a + b[..|b| - 1];
    }
  }

  lemma {:induction false} ApplyAllPrefix(ss: seq<Stmt>, k: nat, s: Schema)
    requires k <= |ss| && ApplyAll(ss, s).Some?
    ensures ApplyAll(ss[..k], s).Some?
  {
    ApplyAllConcat(ss[..k], ss[k..], s);
    assert ss[..k] + ss[k..] == ss;
  }

  /* ---------- Resumable statement lists ---------- */

  predicate Grows(st: Stmt) { st.AddColumn? || st.CreateIndex? }
  predicate Shrinks(st: Stmt) { st.DropColumn? || st.DropIndex? }

  /** Running b can never undo what a has done. */
  predicate Keeps(a: Stmt, b: Stmt) {
    || (Grows(a) && Grows(b))
    || (Shrinks(a) && (Shrinks(b) || b.SetNotNull?))
    || (a.SetNotNull? && b.SetNotNull?)
  }

  ghost predicate Resumable(ss: seq<Stmt>) {
    && (forall i :: 0 <= i < |ss| ==> !ss[i].Raw?)
    && (forall i, j :: 0 <= i < j < |ss| ==> Keeps(ss[i], ss[j]))
  }

  /** A statement of a resumable list that has run once does nothing when it runs again,
      however much of the list ran in between. */
  lemma {:induction false} InertAfter(ss: seq<Stmt>, s: Schema, k: nat, i: nat)
    requires Resumable(ss) && i < k <= |ss|
    requires ApplyAll(ss[..k], s).Some?
    ensures Apply(ss[i], ApplyAll(ss[..k], s).value) == ApplyAll(ss[..k], s)
  {
    assert ss[..k][..k - 1] == ss[..k - 1];
    var m := ApplyAll(ss[..k - 1], s).value;
    if i == k - 1 {
      ApplyTwice(ss[i], m);
    } else {
      InertAfter(ss, s, k - 1, i);
      KeepsInert(ss[i], ss[k - 1], m);
    }
  }

  lemma ApplyTwice(st: Stmt, s: Schema)
    requires Apply(st, s).Some?
    ensures Apply(st, Apply(st, s).value) == Apply(st, s)
  {
    var r := Apply(st, s).value;
    if st.DropColumn? || st.DropIndex? {
      assert Apply(st, r).value.cols == r.cols && Apply(st, r).value.idx == r.idx;
    } else if st.SetNotNull? {
      assert Apply(st, r).value.cols == r.cols;
    }
  }

  lemma KeepsInert(a: Stmt, b: Stmt, s: Schema)
    requires Keeps(a, b) && Apply(a, s) == Some(s) && Apply(b, s).Some?
    ensures Apply(a, Apply(b, s).value) == Apply(b, s)
  {
    var r := Apply(b, s).value;
    match a
    case AddColumn(c, t) => assert c in Apply(a, s).value.cols;
    case CreateIndex(n, c) => assert n in Apply(a, s).value.idx;
    case DropColumn(c) =>
      assert c !in Apply(a, s).value.cols;
      assert forall n :: n in s.idx ==> n in Apply(a, s).value.idx;
      assert Apply(a, r).value.cols == r.cols && Apply(a, r).value.idx == r.idx;
    case DropIndex(n) =>
      assert n !in Apply(a, s).value.idx;
      assert Apply(a, r).value.idx == r.idx;
    case SetNotNull(c) =>
      assert s.cols[c].notNull by { assert Apply(a, s).value.cols[c].notNull; }
      assert Apply(a, r).value.cols == r.cols;
  }

  /** What a database looks like while a list is being run and re-run: some prefix of
      the list, no shorter than the i statements this pass has acknowledged, has taken effect. */
  ghost predicate HighWater(ss: seq<Stmt>, s0: Schema, s: Schema, i: nat) {
    exists k :: i <= k <= |ss| && ApplyAll(ss[..k], s0) == Some(s)
  }

  lemma HighWaterStep(ss: seq<Stmt>, s0: Schema, s: Schema, i: nat)
    requires Resumable(ss) && i < |ss| && HighWater(ss, s0, s, i) && Apply(ss[i], s).Some?
    ensures HighWater(ss, s0, Apply(ss[i], s).value, i + 1)
  {
    var k :| i <= k <= |ss| && ApplyAll(ss[..k], s0) == Some(s);
    if k == i {
      assert ss[..k + 1][..k] == ss[..k];
      assert ApplyAll(ss[..k + 1], s0) == Apply(ss[i], s);
    } else {
      InertAfter(ss, s0, k, i);
    }
  }

  /** Any interrupted prefix followed by the whole list equals the whole list. */
  lemma PrefixThenWhole(ss: seq<Stmt>, k: nat, s: Schema)
    requires Resumable(ss) && k <= |ss| && ApplyAll(ss, s).Some?
    ensures ApplyAll(ss[..k], s).Some? && ApplyAll(ss, ApplyAll(ss[..k], s).value) == ApplyAll(ss, s)
  {
    ApplyAllPrefix(ss, k, s);
    var m := ApplyAll(ss[..k], s).value;
    RerunPrefix(ss, k, k, s);
    var a, b := ss[..k], ss[k..];
    assert ss == a + b;
    ApplyAllConcat(a, b, s);
    ApplyAllConcat(a, b, m);
  }

  lemma {:induction false} RerunPrefix(ss: seq<Stmt>, k: nat, i: nat, s: Schema)
    requires Resumable(ss) && i <= k <= |ss| && ApplyAll(ss[..k], s).Some?
    ensures ApplyAll(ss[..i], ApplyAll(ss[..k], s).value) == ApplyAll(ss[..k], s)
  {
    if i > 0 {
      RerunPrefix(ss, k, i - 1, s);
      InertAfter(ss, s, k, i - 1);
      assert ss[..i][..i - 1] == ss[..i - 1];
    }
  }

  /* ---------- The generator ---------- */

  const MAX_IDENT := 63

  function IndexName(table: string, column: string): string {
    var n := "idx_" + table + "_" + column;
    if |n| > MAX_IDENT then n[..MAX_IDENT] else n
  }

  function ExpandOne(table: string, c: ColumnSpec): seq<Stmt> {
    [AddColumn(c.name, c.typ)] + if c.indexed then [CreateIndex(IndexName(table, c.name), c.name)] else []
  }

  function RollbackOne(table: string, c: ColumnSpec): seq<Stmt> {
    (if c.indexed then [DropIndex(IndexName(table, c.name))] else []) + [DropColumn(c.name)]
  }

  function ExpandOf(table: string, add: seq<ColumnSpec>): seq<Stmt> {
    if add == [] then [] else ExpandOf(table, add[..|add| - 1]) + ExpandOne(table, add[|add| - 1])
  }

  function RollbackOf(table: string, add: seq<ColumnSpec>): seq<Stmt> {
    if add == [] then [] else RollbackOf(table, add[..|add| - 1]) + RollbackOne(table, add[|add| - 1])
  }

  function DropsOf(drop: seq<string>): seq<Stmt> {
    if drop == [] then [] else DropsOf(drop[..|drop| - 1]) + [DropColumn(drop[|drop| - 1])]
  }

  function NotNullsOf(add: seq<ColumnSpec>): seq<Stmt> {
    if add == [] then []
    else NotNullsOf(add[..|add| - 1]) + if add[|add| - 1].nullable then [] else [SetNotNull(add[|add| - 1].name)]
  }

  function ContractOf(add: seq<ColumnSpec>, drop: seq<string>): seq<Stmt> {
    DropsOf(drop) + NotNullsOf(add)
  }

  function ExprCols(add: seq<ColumnSpec>): seq<ColumnSpec> {
    if add == [] then []
    else ExprCols(add[..|add| - 1]) + if add[|add| - 1].expression == "" then [] else [add[|add| - 1]]
  }

  function SetClause(c: ColumnSpec): string { c.name + " = (" + c.expression + ")" }
  function NullCheck(c: ColumnSpec): string { c.name + " IS NULL" }

  function CompositeUpdate(table: string, sets: seq<string>, nulls: seq<string>): string {
    "UPDATE " + table + " SET " + Text.Join(sets, ", ") + " WHERE id IN (SELECT id FROM " + table
    + " WHERE " + Text.Join(nulls, " OR ") + " ORDER BY id LIMIT $1)"
  }

  function CompositeOf(table: string, cols: seq<ColumnSpec>): string {
    if cols == [] then ""
    else CompositeUpdate(table, seq(|cols|, i requires 0 <= i < |cols| => SetClause(cols[i])),
                         seq(|cols|, i requires 0 <= i < |cols| => NullCheck(cols[i])))
  }

  datatype Output = Output(expand: seq<Stmt>, contract: seq<Stmt>, rollback: seq<Stmt>,
                           backfillExpr: string, backfillColumn: string, backfillMulti: string)

  function Generated(table: string, add: seq<ColumnSpec>, drop: seq<string>): Output {
    var ec := ExprCols(add);
    Output(ExpandOf(table, add), ContractOf(add, drop), RollbackOf(table, add),
           if ec == [] then "" else ec[0].expression, if ec == [] then "" else ec[0].name, CompositeOf(table, ec))
  }

  method CompositeBackfill(table: string, cols: seq<ColumnSpec>) returns (sql: string)
    ensures sql == CompositeOf(table, cols)
  {
    if |cols| == 0 { return ""; }
    var sets: seq<string> := [];
    for i := 0 to |cols|
      invariant sets == seq(i, k requires 0 <= k < i => SetClause(cols[k]))
    {
      sets := sets + [SetClause(cols[i])];
    }
    var nulls: seq<string> := [];
    for i := 0 to |cols|
      invariant nulls == seq(i, k requires 0 <= k < i => NullCheck(cols[k]))
    {
      nulls := nulls + [NullCheck(cols[i])];
    }
    assert sets == seq(|cols|, i requires 0 <= i < |cols| => SetClause(cols[i]));
    assert nulls == seq(|cols|, i requires 0 <= i < |cols| => NullCheck(cols[i]));
    return CompositeUpdate(table, sets, nulls);
  }

  method ExpressionColumns(add: seq<ColumnSpec>) returns (exprCols: seq<ColumnSpec>)
    ensures exprCols == ExprCols(add)
  {
    exprCols := [];
    for i := 0 to |add|
      invariant exprCols == ExprCols(add[..i])
    {
      assert add[..i + 1][..i] == add[..i];
      if add[i].expression != "" {
        exprCols := exprCols + [add[i]];
      }
    }
    assert add[..|add|] == add;
  }

  method ContractStatements(add: seq<ColumnSpec>, drop: seq<string>) returns (contract: seq<Stmt>)
    ensures contract == ContractOf(add, drop)
  {
    contract := [];
    for i := 0 to |drop|
      invariant contract == DropsOf(drop[..i])
    {
      assert drop[..i + 1][..i] == drop[..i];
      contract := contract + [DropColumn(drop[i])];
    }
    for i := 0 to |add|
      invariant contract == DropsOf(drop[..|drop|]) + NotNullsOf(add[..i])
    {
      assert add[..i + 1][..i] == add[..i];
      if !add[i].nullable {
        contract := contract + [SetNotNull(add[i].name)];
      }
    }
    assert add[..|add|] == add && drop[..|drop|] == drop;
  }

  method Generate(table: string, add: seq<ColumnSpec>, drop: seq<string>) returns (out: Output)
    ensures out == Generated(table, add, drop)
  {
    var expand: seq<Stmt> := [];
    for i := 0 to |add|
      invariant expand == ExpandOf(table, add[..i])
    {
      assert add[..i + 1][..i] == add[..i];
      expand := expand + [AddColumn(add[i].name, add[i].typ)];
      if add[i].indexed {
        expand := expand + [CreateIndex(IndexName(table, add[i].name), add[i].name)];
      }
    }
    var contract := ContractStatements(add, drop);
    var rollback: seq<Stmt> := [];
    for i := 0 to |add|
      invariant rollback == RollbackOf(table, add[..i])
    {
      assert add[..i + 1][..i] == add[..i];
      if add[i].indexed {
        rollback := rollback + [DropIndex(IndexName(table, add[i].name))];
      }
      rollback := rollback + [DropColumn(add[i].name)];
    }
    var exprCols := ExpressionColumns(add);
    assert add[..|add|] == add;
    out := Output(expand, contract, rollback, "", "", "");
    if |exprCols| > 0 {
      var multi := CompositeBackfill(table, exprCols);
      out := out.(backfillExpr := exprCols[0].expression, backfillColumn := exprCols[0].name, backfillMulti := multi);
    }
  }

  /* ---------- What Generate returns ---------- */

  /** Column i is the first with an expression. */
  ghost predicate FirstExpression(add: seq<ColumnSpec>, i: nat) {
    i < |add| && add[i].expression != "" && forall j :: 0 <= j < i ==> add[j].expression == ""
  }

  lemma {:induction false} ExprColsFrom(add: seq<ColumnSpec>, i: nat)
    requires FirstExpression(add, i)
    ensures ExprCols(add) != [] && ExprCols(add)[0] == add[i]
  {
    var front := add[..|add| - 1];
    if i < |front| { ExprColsFrom(front, i); } else { NoExprCols(front); }
  }

  lemma {:induction false} NoExprCols(add: seq<ColumnSpec>)
    requires forall j :: 0 <= j < |add| ==> add[j].expression == ""
    ensures ExprCols(add) == []
  {
    if add != [] { NoExprCols(add[..|add| - 1]); }
  }

  /** The single-column backfill is that of the first column with an expression; without one there
      is no backfill. */
  lemma BackfillOfFirst(table: string, add: seq<ColumnSpec>, drop: seq<string>)
    ensures var out := Generated(table, add, drop);
            && (forall i: nat :: FirstExpression(add, i) ==>
                  out.backfillColumn == add[i].name && out.backfillExpr == add[i].expression && out.backfillMulti != "")
            && ((forall j :: 0 <= j < |add| ==> add[j].expression == "") ==>
                  out.backfillColumn == "" && out.backfillExpr == "" && out.backfillMulti == "")
  {
    forall i: nat | FirstExpression(add, i)
      ensures ExprCols(add) != [] && ExprCols(add)[0] == add[i] && CompositeOf(table, ExprCols(add)) != ""
    {
      ExprColsFrom(add, i);
      CompositeIs(table, ExprCols(add));
    }
    if forall j :: 0 <= j < |add| ==> add[j].expression == "" { NoExprCols(add); }
  }

  lemma {:induction false} ExpandConcat(table: string, a: seq<ColumnSpec>, b: seq<ColumnSpec>)
    ensures ExpandOf(table, a + b) == ExpandOf(table, a) + ExpandOf(table, b)
  {
    if b == [] {
      assert a + b == a;
    } else {
      ExpandConcat(table, a, b[..|b| - 1]);
      assert (a + b)[..|a + b| - 1] == a + b[..|b| - 1];
    }
  }

  lemma {:induction false} RollbackConcat(table: string, a: seq<ColumnSpec>, b: seq<ColumnSpec>)
    ensures RollbackOf(table, a + b) == RollbackOf(table, a) + RollbackOf(table, b)
  {
    if b == [] {
      assert a + b == a;
    } else {
      RollbackConcat(table, a, b[..|b| - 1]);
      assert (a + b)[..|a + b| - 1] == a + b[..|b| - 1];
    }
  }

  lemma {:induction false} NotNullsConcat(a: seq<ColumnSpec>, b: seq<ColumnSpec>)
    ensures NotNullsOf(a + b) == NotNullsOf(a) + NotNullsOf(b)
  {
    if b == [] {
      assert a + b == a;
    } else {
      NotNullsConcat(a, b[..|b| - 1]);
      assert (a + b)[..|a + b| - 1] == a + b[..|b| - 1];
    }
  }

  lemma {:induction false} ExprColsConcat(a: seq<ColumnSpec>, b: seq<ColumnSpec>)
    ensures ExprCols(a + b) == ExprCols(a) + ExprCols(b)
  {
    if b == [] {
      assert a + b == a;
    } else {
      ExprColsConcat(a, b[..|b| - 1]);
      assert (a + b)[..|a + b| - 1] == a + b[..|b| - 1];
    }
  }

  /** The lists of two groups of columns are those of the first and then those of the second. */
  lemma ListsConcat(table: string, a: seq<ColumnSpec>, b: seq<ColumnSpec>)
    ensures ExpandOf(table, a + b) == ExpandOf(table, a) + ExpandOf(table, b)
    ensures RollbackOf(table, a + b) == RollbackOf(table, a) + RollbackOf(table, b)
    ensures NotNullsOf(a + b) == NotNullsOf(a) + NotNullsOf(b)
    ensures ExprCols(a + b) == ExprCols(a) + ExprCols(b)
  {
    ExpandConcat(table, a, b);
    RollbackConcat(table, a, b);
    NotNullsConcat(a, b);
    ExprColsConcat(a, b);
  }

  /** The statements for one column, in order: the column before its index, the index dropped before
      its column; columns are dropped before others are tightened. */
  lemma ListsOfOne(table: string, c: ColumnSpec, d: string)
    ensures ExpandOf(table, [c]) ==
            if c.indexed then [AddColumn(c.name, c.typ), CreateIndex(IndexName(table, c.name), c.name)]
            else [AddColumn(c.name, c.typ)]
    ensures RollbackOf(table, [c]) ==
            if c.indexed then [DropIndex(IndexName(table, c.name)), DropColumn(c.name)] else [DropColumn(c.name)]
    ensures ContractOf([c], [d]) == if c.nullable then [DropColumn(d)] else [DropColumn(d), SetNotNull(c.name)]
    ensures ContractOf([], [d]) == [DropColumn(d)]
    ensures ExprCols([c]) == if c.expression == "" then [] else [c]
  {
    assert [c][..0] == [] && [d][..0] == [];
    assert ExpandOf(table, []) + ExpandOne(table, c) == ExpandOne(table, c);
    assert RollbackOf(table, []) + RollbackOne(table, c) == RollbackOne(table, c);
    assert DropsOf([d]) == [DropColumn(d)] && NotNullsOf([c]) == if c.nullable then [] else [SetNotNull(c.name)];
  }

  /** An index name is cut to 63 characters, so two columns of a table share one exactly when they
      agree in as many characters as are left for them. */
  lemma IndexNameShared(table: string, a: string, b: string)
    requires |table| <= 58
    ensures IndexName(table, a) <= "idx_" + table + "_" + a && |IndexName(table, a)| <= 63
    ensures |table| + |a| <= 58 ==> IndexName(table, a) == "idx_" + table + "_" + a
    ensures var left := 58 - |table|;
            IndexName(table, a) == IndexName(table, b) <==>
            a == b || (|a| >= left && |b| >= left && a[..left] == b[..left])
  {
    var left, p := 58 - |table|, "idx_" + table + "_";
    CutName(p, a);
    CutName(p, b);
    SamePrefix(p, Front(a, left), Front(b, left));
    FrontsEqual(a, b, left);
  }

  function Front(a: string, n: nat): string { if |a| <= n then a else a[..n] }

  lemma FrontsEqual(a: string, b: string, n: nat)
    ensures Front(a, n) == Front(b, n) <==> a == b || (|a| >= n && |b| >= n && a[..n] == b[..n])
  {
    if |a| == n { assert a[..n] == a; }
    if |b| == n { assert b[..n] == b; }
  }

  lemma SamePrefix(p: string, x: string, y: string)
    ensures p + x == p + y <==> x == y
  {
    if p + x == p + y { assert x == (p + x)[|p|..] && y == (p + y)[|p|..]; }
  }

  lemma CutName(p: string, a: string)
    requires |p| <= 63
    ensures (if |p + a| > 63 then (p + a)[..63] else p + a) == p + Front(a, 63 - |p|)
  {
  }

  /** The SET part and the NULL part of the composite statement. */
  function SetText(cols: seq<ColumnSpec>): string
    requires cols != []
  {
    var c := cols[0];
    if |cols| == 1 then c.name + " = (" + c.expression + ")"
    else c.name + " = (" + c.expression + "), " + SetText(cols[1..])
  }

  function NullText(cols: seq<ColumnSpec>): string
    requires cols != []
  {
    if |cols| == 1 then cols[0].name + " IS NULL" else cols[0].name + " IS NULL OR " + NullText(cols[1..])
  }

  lemma {:induction false} ClausesJoin(cols: seq<ColumnSpec>)
    requires cols != []
    ensures Text.Join(seq(|cols|, i requires 0 <= i < |cols| => SetClause(cols[i])), ", ") == SetText(cols)
    ensures Text.Join(seq(|cols|, i requires 0 <= i < |cols| => NullCheck(cols[i])), " OR ") == NullText(cols)
  {
    var sets := seq(|cols|, i requires 0 <= i < |cols| => SetClause(cols[i]));
    var nulls := seq(|cols|, i requires 0 <= i < |cols| => NullCheck(cols[i]));
    if |cols| > 1 {
      var rest := cols[1..];
      ClausesJoin(rest);
      assert sets[1..] == seq(|rest|, i requires 0 <= i < |rest| => SetClause(rest[i]));
      assert nulls[1..] == seq(|rest|, i requires 0 <= i < |rest| => NullCheck(rest[i]));
      assert SetClause(cols[0]) + ", " + SetText(rest) == SetText(cols);
      assert NullCheck(cols[0]) + " OR " + NullText(rest) == NullText(cols);
    }
  }

  /** Each column is set to its expression in brackets, on rows where some of them is NULL. */
  lemma CompositeIs(table: string, cols: seq<ColumnSpec>)
    requires cols != []
    ensures CompositeOf(table, cols) ==
            "UPDATE " + table + " SET " + SetText(cols) + " WHERE id IN (SELECT id FROM " + table
            + " WHERE " + NullText(cols) + " ORDER BY id LIMIT $1)"
  {
    ClausesJoin(cols);
  }

  /* ---------- What the generated lists amount to ---------- */

  ghost function Names(add: seq<ColumnSpec>): set<string> { set i | 0 <= i < |add| :: add[i].name }

  ghost function Required(add: seq<ColumnSpec>): set<string> {
    set i | 0 <= i < |add| && !add[i].nullable :: add[i].name
  }

  ghost function IndexNames(table: string, add: seq<ColumnSpec>): set<string> {
    set i | 0 <= i < |add| && add[i].indexed :: IndexName(table, add[i].name)
  }

  ghost function Elements(drop: seq<string>): set<string> { set i | 0 <= i < |drop| :: drop[i] }

  /** No added column and no generated index name is in use yet. */
  ghost predicate Fresh(table: string, add: seq<ColumnSpec>, s: Schema) {
    Names(add) !! s.cols.Keys && IndexNames(table, add) !! s.idx.Keys
  }

  lemma {:induction false} ListShapes(table: string, add: seq<ColumnSpec>, drop: seq<string>)
    ensures forall st :: st in ExpandOf(table, add) ==> Grows(st)
    ensures forall st :: st in RollbackOf(table, add) ==> Shrinks(st)
    ensures forall st :: st in NotNullsOf(add) ==> st.SetNotNull?
    ensures forall st :: st in DropsOf(drop) ==> st.DropColumn? && st.column in drop
    decreases |add| + |drop|
  {
    if add != [] { ListShapes(table, add[..|add| - 1], drop); }
    if drop != [] { ListShapes(table, add, drop[..|drop| - 1]); }
  }

  lemma GeneratedResumable(table: string, add: seq<ColumnSpec>, drop: seq<string>)
    ensures Resumable(ExpandOf(table, add))
    ensures Resumable(ContractOf(add, drop))
    ensures Resumable(RollbackOf(table, add))
  {
    ListShapes(table, add, drop);
    var c, d := ContractOf(add, drop), |DropsOf(drop)|;
    forall i | 0 <= i < |c|
      ensures if i < d then c[i].DropColumn? else c[i].SetNotNull?
    {
      assert c[i] == if i < d then DropsOf(drop)[i] else NotNullsOf(add)[i - d];
    }
    var e := ExpandOf(table, add);
    forall i | 0 <= i < |e| ensures Grows(e[i]) { assert e[i] in e; }
    var r := RollbackOf(table, add);
    forall i | 0 <= i < |r| ensures Shrinks(r[i]) { assert r[i] in r; }
  }

  /** The columns that expand wants. */
  function WantedCols(add: seq<ColumnSpec>): seq<(string, Column)> {
    if add == [] then []
    else WantedCols(add[..|add| - 1]) + [(add[|add| - 1].name, Column(add[|add| - 1].typ, false))]
  }

  /** The indexes that expand wants, with the columns they cover. */
  function WantedIdx(table: string, add: seq<ColumnSpec>): seq<(string, string)> {
    if add == [] then []
    else
      var c := add[|add| - 1];
      WantedIdx(table, add[..|add| - 1]) + if c.indexed then [(IndexName(table, c.name), c.name)] else []
  }

  /** The first wish for a name wins. */
  function FirstOf<V>(wishes: seq<(string, V)>): map<string, V> {
    if wishes == [] then map[]
    else
      var m, (k, v) := FirstOf(wishes[..|wishes| - 1]), wishes[|wishes| - 1];
      if k in m then m else m[k := v]
  }

  lemma {:induction false} FirstWins<V>(wishes: seq<(string, V)>, i: nat)
    requires i < |wishes| && forall j :: 0 <= j < i ==> wishes[j].0 != wishes[i].0
    ensures wishes[i].0 in FirstOf(wishes) && FirstOf(wishes)[wishes[i].0] == wishes[i].1
  {
    var front := wishes[..|wishes| - 1];
    if i < |front| { FirstWins(front, i); } else { NoneWins(front, wishes[i].0); }
  }

  lemma {:induction false} NoneWins<V>(wishes: seq<(string, V)>, k: string)
    requires forall j :: 0 <= j < |wishes| ==> wishes[j].0 != k
    ensures k !in FirstOf(wishes)
  {
    if wishes != [] { NoneWins(wishes[..|wishes| - 1], k); }
  }

  /** s with the wishes added where the names were free: what was there stays, and a new name has
      what the first wish for it asks. */
  function Grown(s: Schema, cols: seq<(string, Column)>, idx: seq<(string, string)>): Schema {
    Schema(FirstOf(cols) + s.cols, FirstOf(idx) + s.idx)
  }

  lemma FirstOfSnoc<V>(wishes: seq<(string, V)>, k: string, v: V)
    ensures FirstOf(wishes + [(k, v)]) == if k in FirstOf(wishes) then FirstOf(wishes) else FirstOf(wishes)[k := v]
  {
    assert (wishes + [(k, v)])[..|wishes|] == wishes;
  }

  lemma AddOne<V>(wishes: seq<(string, V)>, k: string, v: V, s: map<string, V>)
    ensures FirstOf(wishes + [(k, v)]) + s ==
            var m := FirstOf(wishes) + s;
            if k in m then m else m[k := v]
  {
    FirstOfSnoc(wishes, k, v);
  }

  lemma {:induction false} WantedColNames(add: seq<ColumnSpec>)
    ensures FirstOf(WantedCols(add)).Keys == Names(add)
  {
    if add != [] {
      var front, c := add[..|add| - 1], add[|add| - 1];
      WantedColNames(front);
      NamesLast(add);
      FirstOfSnoc(WantedCols(front), c.name, Column(c.typ, false));
    }
  }

  ghost predicate On(idx: map<string, string>, cols: set<string>) { forall n :: n in idx ==> idx[n] in cols }

  lemma {:induction false} WantedIdxNames(table: string, add: seq<ColumnSpec>)
    ensures FirstOf(WantedIdx(table, add)).Keys == IndexNames(table, add)
    ensures On(FirstOf(WantedIdx(table, add)), Names(add))
  {
    if add != [] {
      var front, c := add[..|add| - 1], add[|add| - 1];
      WantedIdxNames(table, front);
      NamesLast(add);
      IndexNamesLast(table, add);
      if c.indexed {
        FirstOfSnoc(WantedIdx(table, front), IndexName(table, c.name), c.name);
      } else {
        assert WantedIdx(table, front) + [] == WantedIdx(table, front);
      }
    }
  }

  lemma ExpandOneEffect(table: string, c: ColumnSpec, s: Schema)
    ensures ApplyAll(ExpandOne(table, c), s).Some?
    ensures var r := ApplyAll(ExpandOne(table, c), s).value;
            && r.cols == (if c.name in s.cols then s.cols else s.cols[c.name := Column(c.typ, false)])
            && var n := IndexName(table, c.name);
               r.idx == (if !c.indexed || n in s.idx then s.idx else s.idx[n := c.name])
  {
    var add := AddColumn(c.name, c.typ);
    var m := Apply(add, s).value;
    assert [add][..0] == [];
    assert ApplyAll([add], s) == Some(m);
    if c.indexed {
      var ix := CreateIndex(IndexName(table, c.name), c.name);
      assert ExpandOne(table, c) == [add, ix] && [add, ix][..1] == [add];
    } else {
      assert ExpandOne(table, c) == [add];
    }
  }

  /** Expand never fails, keeps everything that was there, and adds the wanted columns and indexes
      where their names were free, the first wish for a name winning. */
  lemma {:induction false} ExpandEffect(table: string, add: seq<ColumnSpec>, s: Schema)
    ensures ApplyAll(ExpandOf(table, add), s) == Some(Grown(s, WantedCols(add), WantedIdx(table, add)))
  {
    if add == [] {
      var none: map<string, string>, noCols: map<string, Column> := map[], map[];
      assert noCols + s.cols == s.cols && none + s.idx == s.idx;
    } else {
      var front, c := add[..|add| - 1], add[|add| - 1];
      ExpandEffect(table, front, s);
      ApplyAllConcat(ExpandOf(table, front), ExpandOne(table, c), s);
      ExpandOneEffect(table, c, Grown(s, WantedCols(front), WantedIdx(table, front)));
      AddOne(WantedCols(front), c.name, Column(c.typ, false), s.cols);
      AddOne(WantedIdx(table, front), IndexName(table, c.name), c.name, s.idx);
      assert WantedIdx(table, front) + [] == WantedIdx(table, front);
    }
  }

  lemma NamesLast(add: seq<ColumnSpec>)
    requires add != []
    ensures Names(add) == Names(add[..|add| - 1]) + {add[|add| - 1].name}
  {
    var front, c := add[..|add| - 1], add[|add| - 1];
    forall x | x in Names(add) ensures x in Names(front) + {c.name} {
      var i :| 0 <= i < |add| && add[i].name == x;
      if i < |front| { assert front[i].name == x; }
    }
    forall x | x in Names(front) ensures x in Names(add) {
      var i :| 0 <= i < |front| && front[i].name == x;
      assert add[i].name == x;
    }
  }

  lemma RequiredLast(add: seq<ColumnSpec>)
    requires add != []
    ensures var c := add[|add| - 1];
            Required(add) == Required(add[..|add| - 1]) + if c.nullable then {} else {c.name}
  {
    var front, c := add[..|add| - 1], add[|add| - 1];
    forall x | x in Required(add) ensures x in Required(front) + if c.nullable then {} else {c.name} {
      var i :| 0 <= i < |add| && !add[i].nullable && add[i].name == x;
      if i < |front| { assert front[i].name == x; }
    }
    forall x | x in Required(front) ensures x in Required(add) {
      var i :| 0 <= i < |front| && !front[i].nullable && front[i].name == x;
      assert add[i].name == x;
    }
  }

  lemma IndexNamesLast(table: string, add: seq<ColumnSpec>)
    requires add != []
    ensures var c := add[|add| - 1];
            IndexNames(table, add) ==
            IndexNames(table, add[..|add| - 1]) + if c.indexed then {IndexName(table, c.name)} else {}
  {
    var front, c := add[..|add| - 1], add[|add| - 1];
    forall x | x in IndexNames(table, add)
      ensures x in IndexNames(table, front) + if c.indexed then {IndexName(table, c.name)} else {}
    {
      var i :| 0 <= i < |add| && add[i].indexed && IndexName(table, add[i].name) == x;
      if i < |front| { assert front[i].indexed; }
    }
    forall x | x in IndexNames(table, front) ensures x in IndexNames(table, add) {
      var i :| 0 <= i < |front| && front[i].indexed && IndexName(table, front[i].name) == x;
      assert add[i].indexed;
    }
  }

  /** The schema without some columns, their indexes, and some further indexes. */
  ghost function Purged(s: Schema, cols: set<string>, names: set<string>): Schema {
    Schema(s.cols - cols, map n | n in s.idx && n !in names && s.idx[n] !in cols :: s.idx[n])
  }

  lemma PurgedTwice(s: Schema, a: set<string>, b: set<string>, c: set<string>, d: set<string>)
    ensures Purged(Purged(s, a, b), c, d) == Purged(s, a + c, b + d)
  {
    assert s.cols - a - c == s.cols - (a + c);
    assert Purged(Purged(s, a, b), c, d).idx == Purged(s, a + c, b + d).idx;
  }

  lemma RollbackOneEffect(table: string, c: ColumnSpec, s: Schema)
    ensures ApplyAll(RollbackOne(table, c), s) ==
            Some(Purged(s, {c.name}, if c.indexed then {IndexName(table, c.name)} else {}))
  {
    var d := DropColumn(c.name);
    if c.indexed {
      var ix := DropIndex(IndexName(table, c.name));
      assert RollbackOne(table, c) == [ix, d] && [ix, d][..1] == [ix] && [ix][..0] == [];
      assert ApplyAll([ix], s) == Apply(ix, s);
      assert ApplyAll([ix, d], s) == Apply(d, Apply(ix, s).value);
      assert Apply(d, Apply(ix, s).value).value.idx == Purged(s, {c.name}, {IndexName(table, c.name)}).idx;
    } else {
      assert RollbackOne(table, c) == [d] && [d][..0] == [];
      assert ApplyAll([d], s) == Apply(d, s);
      assert Apply(d, s).value.idx == Purged(s, {c.name}, {}).idx;
    }
  }

  /** Rollback removes exactly the added columns, their indexes and the generated index names. */
  lemma {:induction false} RollbackEffect(table: string, add: seq<ColumnSpec>, s: Schema)
    ensures ApplyAll(RollbackOf(table, add), s) == Some(Purged(s, Names(add), IndexNames(table, add)))
  {
    if add == [] {
      assert s.cols - Names(add) == s.cols;
      assert Purged(s, Names(add), IndexNames(table, add)).idx == s.idx;
    } else {
      var front, c := add[..|add| - 1], add[|add| - 1];
      RollbackEffect(table, front, s);
      ApplyAllConcat(RollbackOf(table, front), RollbackOne(table, c), s);
      RollbackOneEffect(table, c, Purged(s, Names(front), IndexNames(table, front)));
      NamesLast(add);
      IndexNamesLast(table, add);
      PurgedTwice(s, Names(front), IndexNames(table, front), {c.name},
                  if c.indexed then {IndexName(table, c.name)} else {});
    }
  }

  lemma PurgeGrown(s: Schema, cols: map<string, Column>, idx: map<string, string>)
    requires WellFormed(s) && On(idx, cols.Keys)
    ensures Purged(Schema(cols + s.cols, idx + s.idx), cols.Keys, idx.Keys) == s <==>
            cols.Keys !! s.cols.Keys && idx.Keys !! s.idx.Keys
  {
    var r := Purged(Schema(cols + s.cols, idx + s.idx), cols.Keys, idx.Keys);
    assert r.cols.Keys == s.cols.Keys - cols.Keys;
    assert forall n :: n in r.idx ==> n !in idx;
    if cols.Keys !! s.cols.Keys && idx.Keys !! s.idx.Keys {
      assert r.cols == s.cols;
      assert r.idx == s.idx;
    }
  }

  /** Rollback undoes expand exactly when the names were fresh, even when two generated
      index names are cut to the same 63 characters. */
  lemma RollbackInvertsExpand(table: string, add: seq<ColumnSpec>, s: Schema)
    requires WellFormed(s)
    ensures ApplyAll(ExpandOf(table, add), s).Some?
    ensures ApplyAll(RollbackOf(table, add), ApplyAll(ExpandOf(table, add), s).value) == Some(s) <==>
            Fresh(table, add, s)
  {
    ExpandEffect(table, add, s);
    RollbackEffect(table, add, ApplyAll(ExpandOf(table, add), s).value);
    WantedColNames(add);
    WantedIdxNames(table, add);
    PurgeGrown(s, FirstOf(WantedCols(add)), FirstOf(WantedIdx(table, add)));
  }

  lemma {:induction false} DropsEffect(drop: seq<string>, s: Schema)
    ensures ApplyAll(DropsOf(drop), s) == Some(Purged(s, Elements(drop), {}))
  {
    if drop == [] {
      assert s.cols - Elements(drop) == s.cols;
      assert Purged(s, Elements(drop), {}).idx == s.idx;
    } else {
      var front, c := drop[..|drop| - 1], drop[|drop| - 1];
      DropsEffect(front, s);
      SplitLastName(drop);
      ApplyAllSnoc(DropsOf(front), DropColumn(c), s);
      var m := Purged(s, Elements(front), {});
      assert Apply(DropColumn(c), m).value.idx == Purged(m, {c}, {}).idx;
      PurgedTwice(s, Elements(front), {}, {c}, {});
      var none: set<string> := {};
      assert none + none == none;
    }
  }

  lemma SplitLastName(drop: seq<string>)
    requires drop != []
    ensures Elements(drop) == Elements(drop[..|drop| - 1]) + {drop[|drop| - 1]}
  {
    var front := drop[..|drop| - 1];
    forall x | x in Elements(drop) ensures x in Elements(front) + {drop[|drop| - 1]} {
      var i :| 0 <= i < |drop| && drop[i] == x;
      if i < |front| { assert front[i] == x; }
    }
    forall x | x in Elements(front) ensures x in Elements(drop) {
      var i :| 0 <= i < |front| && front[i] == x;
      assert drop[i] == x;
    }
  }

  ghost function Tightened(cols: map<string, Column>, req: set<string>): map<string, Column> {
    map c | c in cols :: if c in req then cols[c].(notNull := true) else cols[c]
  }

  lemma TightenOne(s: Schema, req: set<string>, c: string)
    ensures Apply(SetNotNull(c), s.(cols := Tightened(s.cols, req))) ==
            if c in s.cols then Some(s.(cols := Tightened(s.cols, req + {c}))) else None
  {
    if c in s.cols {
      assert Apply(SetNotNull(c), s.(cols := Tightened(s.cols, req))).value.cols == Tightened(s.cols, req + {c});
    }
  }

  lemma {:induction false} NotNullsEffect(add: seq<ColumnSpec>, s: Schema)
    ensures ApplyAll(NotNullsOf(add), s) ==
            if Required(add) <= s.cols.Keys then Some(s.(cols := Tightened(s.cols, Required(add)))) else None
  {
    if add == [] {
      assert Tightened(s.cols, Required(add)) == s.cols;
      return;
    }
    var front, c := add[..|add| - 1], add[|add| - 1];
    NotNullsEffect(front, s);
    RequiredLast(add);
    if c.nullable {
      assert NotNullsOf(add) == NotNullsOf(front);
      assert Required(add) == Required(front);
    } else {
      ApplyAllSnoc(NotNullsOf(front), SetNotNull(c.name), s);
      TightenOne(s, Required(front), c.name);
    }
  }

  /** What Done means: contract after expand succeeds exactly when no required new column
      is also dropped. It then leaves every column of the expanded schema but the dropped ones,
      with NOT NULL on every required one and otherwise as it was, and exactly the indexes that
      do not cover a dropped column. */
  lemma ContractAfterExpand(table: string, add: seq<ColumnSpec>, drop: seq<string>, s: Schema)
    ensures var m := Grown(s, WantedCols(add), WantedIdx(table, add));
            && ApplyAll(ExpandOf(table, add), s) == Some(m)
            && ApplyAll(ContractOf(add, drop), m) ==
               if Required(add) !! Elements(drop) then Some(Contracted(m, Required(add), Elements(drop))) else None
  {
    ExpandEffect(table, add, s);
    WantedColNames(add);
    var m := Grown(s, WantedCols(add), WantedIdx(table, add));
    ApplyAllConcat(DropsOf(drop), NotNullsOf(add), m);
    DropsEffect(drop, m);
    NotNullsEffect(add, Purged(m, Elements(drop), {}));
    RequiredRemain(add, drop, m.cols.Keys);
    assert Purged(m, Elements(drop), {}).idx == Contracted(m, Required(add), Elements(drop)).idx;
  }

  lemma RequiredRemain(add: seq<ColumnSpec>, drop: seq<string>, cols: set<string>)
    requires Names(add) <= cols
    ensures Required(add) <= cols - Elements(drop) <==> Required(add) !! Elements(drop)
  {
    assert Required(add) <= Names(add);
  }

  ghost function Contracted(s: Schema, required: set<string>, dropped: set<string>): Schema {
    Schema(Tightened(s.cols - dropped, required), map n | n in s.idx && s.idx[n] !in dropped :: s.idx[n])
  }
}
