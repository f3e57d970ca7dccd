/** The target table: per row the data the backfill expression reads, and the derived column. */
module Rows {
  import opened Options

  /** last_id comes back from the checkpoint through a float64, exact up to 2^53. */
  const MAX_ID := 0x20_0000_0000_0000

  type RowId = i: int | -MAX_ID <= i <= MAX_ID

  datatype Row = Row(data: int, val: Option<int>)
  type Table = map<RowId, Row>

  /** The value of the plan's source expression on a row; None is SQL NULL. */
  type Source = int -> Option<int>

  function Nulls(t: Table): set<RowId> { set i | i in t && t[i].val.None? }
  function NullsAbove(t: Table, last: int): set<RowId> { set i | i in t && t[i].val.None? && i > last }
  function SetAbove(t: Table, last: int): set<RowId> { set i | i in t && t[i].val.Some? && i > last }

  function Min(a: nat, b: nat): nat { if a < b then a else b }

  /** pick is what ORDER BY id LIMIT n selects from s. */
  predicate Lowest(pick: set<RowId>, s: set<RowId>, n: nat) {
    && pick <= s
    && |pick| == Min(n, |s|)
    && forall x, y :: x in pick && y in s && y !in pick ==> x < y
  }

  lemma {:induction false} MinExists(s: set<RowId>) returns (m: RowId)
    requires s != {}
    ensures m in s && forall x :: x in s ==> m <= x
  {
    var a :| a in s;
    m := a;
    if s - {a} != {} {
      var b := MinExists(s - {a});
      if b < a { m := b; }
    }
    assert forall x :: x in s ==> x == a || x in s - {a};
  }

  lemma {:induction false} LowestExists(s: set<RowId>, n: nat) returns (pick: set<RowId>)
    ensures Lowest(pick, s, n)
  {
    if n == 0 || s == {} {
      pick := {};
    } else {
      var m := MinExists(s);
      var rest := LowestExists(s - {m}, n - 1);
      pick := rest + {m};
      assert |s - {m}| == |s| - 1;
    }
  }

  /** SET col = (expr) on the picked rows. */
  function Fill(t: Table, pick: set<RowId>, f: Source): Table {
    map i | i in t :: if i in pick then t[i].(val := f(t[i].data)) else t[i]
  }

  /** COALESCE(MAX(id), 0) over s. */
  predicate IsMax(m: int, s: set<RowId>) {
    if s == {} then m == 0 else m in s && forall x :: x in s ==> x <= m
  }

  lemma {:induction false} MaxExists(s: set<RowId>) returns (m: RowId)
    ensures IsMax(m, s)
  {
    if s == {} {
      m := 0;
    } else {
      var a :| a in s;
      m := a;
      if s - {a} != {} {
        var b := MaxExists(s - {a});
        if b > a { m := b; }
      }
      assert forall x :: x in s ==> x == a || x in s - {a};
    }
  }

  datatype Report = Report(total: nat, nulls: nat, drifted: nat)

  /** Rows whose value differs from the source expression; NULL counts as different. */
  function Drifted(t: Table, f: Source): set<RowId> { set i | i in t && t[i].val != f(t[i].data) }

  /** The full-table parity query. */
  function Scan(t: Table, f: Source): Report {
    Report(|t|, |Nulls(t)|, |Drifted(t, f)|)
  }

  function Ratio(total: nat, bad: nat): real {
    if total > 0 then (total - bad) as real / total as real else 1.0
  }

  function Matching(t: Table, ids: set<RowId>, f: Source): set<RowId> {
    set i | i in ids && i in t && t[i].val == f(t[i].data)
  }

  function Matches(t: Table, ids: set<RowId>, f: Source): nat { |Matching(t, ids, f)| }

  /** The parity of a sample. */
  function ShareOf(t: Table, ids: set<RowId>, f: Source): real {
    if |ids| > 0 then Matches(t, ids, f) as real / |ids| as real else 1.0
  }

  lemma {:induction false} SubsetSize(a: set<RowId>, b: set<RowId>)
    requires a <= b
    ensures |a| <= |b|
  {
    if a != {} {
      var x :| x in a;
      SubsetSize(a - {x}, b - {x});
    }
  }

  /** A nonempty sample has a share of at least x exactly when that share of its rows holds what the
      expression gives; an empty one has share 1. */
  lemma ShareMeaning(t: Table, ids: set<RowId>, f: Source, x: real)
    requires ids <= t.Keys
    ensures |ids| > 0 ==>
              (ShareOf(t, ids, f) >= x <==>
               (|set i | i in ids && t[i].val == f(t[i].data)|) as real >= x * |ids| as real)
    ensures |ids| == 0 ==> ShareOf(t, ids, f) == 1.0
  {
    assert Matching(t, ids, f) == set i | i in ids && t[i].val == f(t[i].data);
    if |ids| > 0 { QuotientAtLeast(Matches(t, ids, f) as real, |ids| as real, x); }
  }

  lemma QuotientAtLeast(a: real, b: real, x: real)
    requires b > 0.0
    ensures a / b >= x <==> a >= x * b
  {
    var q := a / b;
    assert q * b == a;
    if q >= x { assert (q - x) * b >= 0.0; } else { assert (x - q) * b > 0.0; }
  }

  lemma DriftWithinTotal(t: Table, f: Source)
    ensures Scan(t, f).drifted <= Scan(t, f).total
  {
    SubsetSize(Drifted(t, f), t.Keys);
  }
}
