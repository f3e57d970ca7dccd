/** The sharded backfill: id ranges, half-open batches inside each range, and any
    interleaving of the shards' batches. */
module Shard {
  datatype Config = Config(totalRows: int, shardCount: int, batchSize: int)

  datatype Range = Range(minId: int, maxId: int)

  predicate InRange(r: Range, id: int) { r.minId <= id <= r.maxId }

  function Size(r: Range): nat { if r.maxId < r.minId then 0 else r.maxId - r.minId + 1 }

  ghost predicate InSome(ranges: seq<Range>, id: int) {
    exists s :: 0 <= s < |ranges| && InRange(ranges[s], id)
  }

  /** The ranges cover 1..total and nothing else, and no id twice. */
  ghost predicate Tiles(ranges: seq<Range>, total: int) {
    && (forall id :: InSome(ranges, id) <==> 1 <= id <= total)
    && (forall s, t, id :: 0 <= s < t < |ranges| && InRange(ranges[s], id) ==> !InRange(ranges[t], id))
  }

  function RangeOf(c: Config, i: int): Range
    requires c.shardCount >= 1
  {
    var size := c.totalRows / c.shardCount;
    Range(i * size + 1, if i == c.shardCount - 1 then c.totalRows else (i + 1) * size)
  }

  /** The ranges tile 1..total for every total and shard count, including fewer rows than shards. */
  method CalculateShardRanges(c: Config) returns (ranges: array<Range>)
    requires c.totalRows >= 0 && c.shardCount >= 1
    ensures fresh(ranges) && ranges.Length == c.shardCount
    ensures Tiles(ranges[..], c.totalRows) && Sum(Sizes(ranges[..])) == c.totalRows
    ensures forall i :: 0 <= i < ranges.Length ==> ranges[i] == RangeOf(c, i)
    ensures InOrder(ranges[..], c.totalRows / c.shardCount)
  {
    var shardSize := c.totalRows / c.shardCount;
    ranges := new Range[c.shardCount];
    for i := 0 to c.shardCount
      invariant forall k :: 0 <= k < i ==> ranges[k] == RangeOf(c, k)
    {
      var minId := i * shardSize + 1;
      var maxId := (i + 1) * shardSize;
      if i == c.shardCount - 1 {
        maxId := c.totalRows;
      }
      ranges[i] := Range(minId, maxId);
    }
    RangesTile(c, ranges[..]);
    SizesTotal(c, ranges[..]);
    RangesInOrder(c, ranges[..]);
  }

  /** Each range begins where the one before ends, and all but the last have the same size. */
  ghost predicate InOrder(ranges: seq<Range>, size: int) {
    && (|ranges| > 0 ==> ranges[0].minId == 1)
    && (forall i :: 0 < i < |ranges| ==> ranges[i].minId == ranges[i - 1].maxId + 1)
    && (forall i :: 0 <= i < |ranges| - 1 ==> ranges[i].maxId + 1 - ranges[i].minId == size)
  }

  lemma RangesInOrder(c: Config, ranges: seq<Range>)
    requires c.totalRows >= 0 && c.shardCount >= 1 && |ranges| == c.shardCount
    requires forall i :: 0 <= i < |ranges| ==> ranges[i] == RangeOf(c, i)
    ensures InOrder(ranges, c.totalRows / c.shardCount)
  {
    var size := c.totalRows / c.shardCount;
    forall i | 0 <= i < |ranges| - 1 ensures ranges[i].maxId + 1 - ranges[i].minId == size {
      assert (i + 1) * size == i * size + size;
    }
  }

  lemma SizesTotal(c: Config, ranges: seq<Range>)
    requires c.totalRows >= 0 && c.shardCount >= 1 && |ranges| == c.shardCount
    requires forall i :: 0 <= i < |ranges| ==> ranges[i] == RangeOf(c, i)
    ensures Sum(Sizes(ranges)) == c.totalRows
  {
    SizesSumTo(c, ranges, |ranges|, c.totalRows / c.shardCount);
    assert Sizes(ranges)[..|ranges|] == Sizes(ranges);
  }

  lemma RangesTile(c: Config, ranges: seq<Range>)
    requires c.totalRows >= 0 && c.shardCount >= 1 && |ranges| == c.shardCount
    requires forall i :: 0 <= i < |ranges| ==> ranges[i] == RangeOf(c, i)
    ensures Tiles(ranges, c.totalRows)
  {
    forall id ensures InSome(ranges, id) <==> 1 <= id <= c.totalRows {
      if 1 <= id <= c.totalRows {
        var s := Find(c, id, 0);
        assert InRange(ranges[s], id);
      }
      if InSome(ranges, id) {
        var s :| 0 <= s < |ranges| && InRange(ranges[s], id);
        RangeInside(c, s, id);
      }
    }
    forall s, t, id | 0 <= s < t < |ranges| && InRange(ranges[s], id) ensures !InRange(ranges[t], id) {
      RangesApart(c, s, t, id);
    }
  }

  lemma RangeInside(c: Config, s: int, id: int)
    requires c.totalRows >= 0 && 0 <= s < c.shardCount && InRange(RangeOf(c, s), id)
    ensures 1 <= id <= c.totalRows
  {
    var size := c.totalRows / c.shardCount;
    Monotone(0, s, size);
    Monotone(s + 1, c.shardCount, size);
  }

  lemma RangesApart(c: Config, s: int, t: int, id: int)
    requires c.totalRows >= 0 && 0 <= s < t < c.shardCount && InRange(RangeOf(c, s), id)
    ensures !InRange(RangeOf(c, t), id)
  {
    Monotone(s + 1, t, c.totalRows / c.shardCount);
  }

  lemma Monotone(i: int, j: int, size: int)
    requires i <= j && size >= 0
    ensures i * size <= j * size
  {
    assert (j - i) * size >= 0;
  }

  lemma {:induction false} Find(c: Config, id: int, i: nat) returns (s: nat)
    requires c.shardCount >= 1 && i < c.shardCount
    requires i * (c.totalRows / c.shardCount) < id <= c.totalRows
    ensures s < c.shardCount && InRange(RangeOf(c, s), id)
    decreases c.shardCount - i
  {
    if InRange(RangeOf(c, i), id) {
      s := i;
    } else {
      s := Find(c, id, i + 1);
    }
  }

  /* ---------- The table ---------- */

  datatype Status = PendingRow | Processed | Other

  type Table = map<int, Status>

  /** UPDATE ... WHERE id >= lo AND id < hi AND status = 'pending'. */
  function Process(t: Table, lo: int, hi: int): Table {
    map id | id in t :: if lo <= id < hi && t[id] == PendingRow then Processed else t[id]
  }

  /** The end of the batch that starts at offset. */
  function BatchEnd(c: Config, r: Range, offset: int): int {
    if offset + c.batchSize > r.maxId + 1 then r.maxId + 1 else offset + c.batchSize
  }

  /** Batches needed for len rows. */
  function Batches(len: nat, batch: int): nat
    requires batch >= 1
  {
    if len == 0 then 0 else 1 + Batches(if len <= batch then 0 else len - batch, batch)
  }

  /** ... which is len / batch rounded up. */
  lemma {:induction false} BatchesIsCeiling(len: nat, batch: int)
    requires batch >= 1
    ensures if len == 0 then Batches(len, batch) == 0
            else (Batches(len, batch) - 1) * batch < len <= Batches(len, batch) * batch
  {
    if len > 0 { BatchesIsCeiling(if len <= batch then 0 else len - batch, batch); }
  }

  class Database {
    var rows: Table

    constructor (t: Table)
      ensures rows == t
    {
      rows := t;
    }

    method ProcessBatch(lo: int, hi: int, outcome: Outcome) returns (ok: bool)
      modifies this
      ensures ok <==> outcome == Counted
      ensures outcome == Undone ==> rows == old(rows)
      ensures outcome != Undone ==> rows == Process(old(rows), lo, hi)
    {
      if outcome != Undone { rows := Process(rows, lo, hi); }
      ok := outcome == Counted;
    }
  }

  /** How a batch ends: it is counted, it is committed although the shard sees an error, or it has no
      effect, as when the context was cancelled before it. */
  datatype Outcome = Counted | Uncounted | Undone

  datatype ShardResult = ShardResult(rowsProcessed: nat, batchesProcessed: nat, failed: bool)

  /** Ids of r still to do. */
  function Remaining(r: Range, offset: int): nat { if offset > r.maxId then 0 else r.maxId + 1 - offset }

  /** Rows in the first n batches. */
  function Covered(n: nat, batch: int, size: nat): nat
    requires batch >= 1
  {
    if n == 0 then 0
    else if Covered(n - 1, batch, size) + batch > size then size
    else Covered(n - 1, batch, size) + batch
  }

  lemma {:induction false} CoveredIs(n: nat, batch: int, size: nat)
    requires batch >= 1
    ensures Covered(n, batch, size) == if n * batch > size then size else n * batch
  {
    if n > 0 {
      CoveredIs(n - 1, batch, size);
      OneMore(n - 1, batch);
    }
  }

  /** What a shard leaves when its k-th batch ends as fate(k) says. It stops at the first batch that is
      not counted; without one, its range is as one pass would leave it, with every row and the ceiling
      of batches counted. */
  ghost predicate ShardDone(c: Config, r: Range, t: Table, rows: Table, res: ShardResult, fate: nat -> Outcome)
    requires c.batchSize >= 1
  {
    var n := res.batchesProcessed;
    var next := r.minId + res.rowsProcessed;
    && (forall k :: 0 <= k < n ==> fate(k) == Counted)
    && res.rowsProcessed == Covered(n, c.batchSize, Size(r))
    && if res.failed then
         && n < Batches(Size(r), c.batchSize) && fate(n) != Counted
         && rows == Process(t, r.minId, if fate(n) == Undone then next else BatchEnd(c, r, next))
       else
         n == Batches(Size(r), c.batchSize) && rows == Process(t, r.minId, r.maxId + 1)
  }

  /** A shard on its way through its range. */
  ghost predicate Underway(c: Config, r: Range, t: Table, rows: Table, offset: int, res: ShardResult,
                           fate: nat -> Outcome)
    requires c.batchSize >= 1
  {
    && r.minId <= offset && !res.failed
    && res.rowsProcessed == (if offset > r.maxId then Size(r) else offset - r.minId)
    && res.rowsProcessed == Covered(res.batchesProcessed, c.batchSize, Size(r))
    && res.batchesProcessed + Batches(Size(r) - res.rowsProcessed, c.batchSize) == Batches(Size(r), c.batchSize)
    && rows == Process(t, r.minId, r.minId + res.rowsProcessed)
    && forall k :: 0 <= k < res.batchesProcessed ==> fate(k) == Counted
  }

  /** One shard on its own. */
  method RunShard(db: Database, c: Config, r: Range, fate: nat -> Outcome) returns (res: ShardResult)
    requires c.batchSize >= 1
    modifies db
    ensures ShardDone(c, r, old(db.rows), db.rows, res, fate)
  {
    ghost var t := db.rows;
    res := ShardResult(0, 0, false);
    var offset := r.minId;
    ProcessNothing(t, r.minId, r.minId);
    while offset <= r.maxId
      invariant Underway(c, r, t, db.rows, offset, res, fate)
      decreases r.maxId + 1 - offset
    {
      ghost var before := db.rows;
      var batchEnd := offset + c.batchSize;
      if batchEnd > r.maxId + 1 {
        batchEnd := r.maxId + 1;
      }
      var ok := db.ProcessBatch(offset, batchEnd, fate(res.batchesProcessed));
      BatchDone(c, r, t, before, db.rows, offset, res, fate);
      if !ok { return res.(failed := true); }
      res := ShardResult(res.rowsProcessed + (batchEnd - offset), res.batchesProcessed + 1, false);
      offset := offset + c.batchSize;
    }
    AllDone(c, r, t, db.rows, offset, res, fate);
  }

  lemma BatchDone(c: Config, r: Range, t: Table, before: Table, after: Table, offset: int, res: ShardResult,
                  fate: nat -> Outcome)
    requires c.batchSize >= 1 && offset <= r.maxId && Underway(c, r, t, before, offset, res, fate)
    requires after == if fate(res.batchesProcessed) == Undone then before
                      else Process(before, offset, BatchEnd(c, r, offset))
    ensures BatchEnd(c, r, offset) >= offset
    ensures if fate(res.batchesProcessed) != Counted then ShardDone(c, r, t, after, res.(failed := true), fate)
            else
              var rows := BatchEnd(c, r, offset) - offset;
              Underway(c, r, t, after, offset + c.batchSize,
                       ShardResult(res.rowsProcessed + rows, res.batchesProcessed + 1, false), fate)
  {
    ProcessJoin(t, r.minId, offset, BatchEnd(c, r, offset));
  }

  lemma AllDone(c: Config, r: Range, t: Table, rows: Table, offset: int, res: ShardResult, fate: nat -> Outcome)
    requires c.batchSize >= 1 && offset > r.maxId && Underway(c, r, t, rows, offset, res, fate)
    ensures ShardDone(c, r, t, rows, res, fate)
  {
    ProcessNothing(t, r.minId, r.minId);
    ProcessNothing(t, r.minId, r.maxId + 1);
  }

  /** A batch turns the pending rows of its ids, and no others, into processed ones. */
  lemma ProcessIs(t: Table, lo: int, hi: int)
    ensures Process(t, lo, hi).Keys == t.Keys
    ensures forall id :: id in t ==>
              Process(t, lo, hi)[id] == if lo <= id < hi && t[id] == PendingRow then Processed else t[id]
  {
  }

  lemma ProcessNothing(t: Table, lo: int, hi: int)
    ensures hi <= lo ==> Process(t, lo, hi) == t
  {
  }

  lemma ProcessJoin(t: Table, a: int, b: int, d: int)
    requires a <= b <= d
    ensures Process(Process(t, a, b), b, d) == Process(t, a, d)
  {
  }

  /* ---------- All shards together ---------- */

  datatype Turn = Turn(shard: nat, outcome: Outcome)

  /** Where each shard's loop stands and how far its updates reach, the shards that stopped early,
      the table, the shared counters, and the batches committed so far. */
  datatype Fleet = Fleet(offset: seq<int>, reach: seq<int>, halted: set<nat>, rows: Table,
                         rowCount: nat, batchCount: nat, log: seq<(int, int)>)

  function StartFleet(ranges: seq<Range>, t: Table): Fleet {
    var start := seq(|ranges|, s requires 0 <= s < |ranges| => ranges[s].minId);
    Fleet(start, start, {}, t, 0, 0, [])
  }

  /** The next batch of shard s reaches the table. */
  function Committed(c: Config, ranges: seq<Range>, f: Fleet, s: nat): Fleet
    requires c.batchSize >= 1 && s < |ranges| == |f.offset| == |f.reach|
  {
    var lo, hi := f.offset[s], BatchEnd(c, ranges[s], f.offset[s]);
    f.(reach := f.reach[s := lo + c.batchSize], rows := Process(f.rows, lo, hi), log := f.log + [(lo, hi)])
  }

  /** Shard s has its next turn; nothing happens when it has finished or stopped. */
  function StepShard(c: Config, ranges: seq<Range>, f: Fleet, turn: Turn): Fleet
    requires c.batchSize >= 1 && turn.shard < |ranges| == |f.offset| == |f.reach|
  {
    var s := turn.shard;
    var lo := f.offset[s];
    if s in f.halted || lo > ranges[s].maxId then f
    else
      match turn.outcome
      case Undone => f.(halted := f.halted + {s})
      case Uncounted => Committed(c, ranges, f, s).(halted := f.halted + {s})
      case Counted =>
        var hi := BatchEnd(c, ranges[s], lo);
        Committed(c, ranges, f, s).(offset := f.offset[s := lo + c.batchSize], rowCount := f.rowCount + (hi - lo),
                                    batchCount := f.batchCount + 1)
  }

  /** Any interleaving, with failures anywhere. */
  function RunFleet(c: Config, ranges: seq<Range>, t: Table, sched: seq<Turn>): (f: Fleet)
    requires c.batchSize >= 1 && forall k :: 0 <= k < |sched| ==> sched[k].shard < |ranges|
    ensures |f.offset| == |f.reach| == |ranges|
  {
    if sched == [] then StartFleet(ranges, t)
    else StepShard(c, ranges, RunFleet(c, ranges, t, sched[..|sched| - 1]), sched[|sched| - 1])
  }

  ghost predicate Finished(ranges: seq<Range>, f: Fleet)
    requires |ranges| == |f.offset|
  {
    forall s :: 0 <= s < |ranges| ==> f.offset[s] > ranges[s].maxId
  }

  function Sum(xs: seq<nat>): nat { if xs == [] then 0 else Sum(xs[..|xs| - 1]) + xs[|xs| - 1] }

  lemma {:induction false} SumUpdate(xs: seq<nat>, i: nat, v: nat)
    requires i < |xs|
    ensures Sum(xs[i := v]) + xs[i] == Sum(xs) + v
  {
    if i == |xs| - 1 {
      assert xs[i := v][..i] == xs[..i];
    } else {
      SumUpdate(xs[..|xs| - 1], i, v);
      assert xs[i := v][..|xs| - 1] == xs[..|xs| - 1][i := v];
    }
  }

  lemma {:induction false} SumZero(xs: seq<nat>)
    requires forall i :: 0 <= i < |xs| ==> xs[i] == 0
    ensures Sum(xs) == 0
  {
    if xs != [] { SumZero(xs[..|xs| - 1]); }
  }

  function RowsLeft(ranges: seq<Range>, offset: seq<int>): seq<nat>
    requires |ranges| == |offset|
  {
    seq(|ranges|, s requires 0 <= s < |ranges| => Remaining(ranges[s], offset[s]))
  }

  function BatchesLeft(c: Config, ranges: seq<Range>, offset: seq<int>): seq<nat>
    requires |ranges| == |offset| && c.batchSize >= 1
  {
    seq(|ranges|, s requires 0 <= s < |ranges| => Batches(Remaining(ranges[s], offset[s]), c.batchSize))
  }

  function Sizes(ranges: seq<Range>): seq<nat> { seq(|ranges|, s requires 0 <= s < |ranges| => Size(ranges[s])) }

  function BatchSizes(c: Config, ranges: seq<Range>): seq<nat>
    requires c.batchSize >= 1
  {
    seq(|ranges|, s requires 0 <= s < |ranges| => Batches(Size(ranges[s]), c.batchSize))
  }

  function Hits(log: seq<(int, int)>, id: int): nat {
    if log == [] then 0
    else Hits(log[..|log| - 1], id) + if log[|log| - 1].0 <= id < log[|log| - 1].1 then 1 else 0
  }

  /** Rows in committed batches. */
  function RowsIn(log: seq<(int, int)>): int {
    if log == [] then 0 else RowsIn(log[..|log| - 1]) + (log[|log| - 1].1 - log[|log| - 1].0)
  }

  ghost predicate IsCovered(ranges: seq<Range>, reach: seq<int>, id: int)
    requires |ranges| == |reach|
  {
    exists s :: 0 <= s < |ranges| && InRange(ranges[s], id) && id < reach[s]
  }

  /** The updates of a shard reach as far as its count, or one batch further if it stopped. */
  ghost predicate ShardInv(c: Config, r: Range, offset: int, reach: int, halted: bool) {
    && offset >= r.minId
    && (reach == offset || (halted && offset <= r.maxId && reach == offset + c.batchSize))
  }

  ghost predicate LoopsInv(c: Config, ranges: seq<Range>, f: Fleet)
    requires |f.offset| == |f.reach| == |ranges|
  {
    forall s :: 0 <= s < |ranges| ==> ShardInv(c, ranges[s], f.offset[s], f.reach[s], s in f.halted)
  }

  ghost predicate TableInv(ranges: seq<Range>, reach: seq<int>, t: Table, rows: Table, log: seq<(int, int)>)
    requires |ranges| == |reach|
  {
    && rows.Keys == t.Keys
    && (forall id :: id in t ==>
          rows[id] == if t[id] == PendingRow && IsCovered(ranges, reach, id) then Processed else t[id])
    && (forall id :: Hits(log, id) == if IsCovered(ranges, reach, id) then 1 else 0)
  }

  /** The counters, when this many shards have stopped. */
  ghost predicate CountInv(c: Config, ranges: seq<Range>, offset: seq<int>, rows: nat, batches: nat,
                           log: seq<(int, int)>, stopped: nat)
    requires c.batchSize >= 1 && |offset| == |ranges|
  {
    && rows + Sum(RowsLeft(ranges, offset)) == Sum(Sizes(ranges))
    && batches + Sum(BatchesLeft(c, ranges, offset)) == Sum(BatchSizes(c, ranges))
    && rows <= RowsIn(log) <= rows + stopped * c.batchSize
    && batches <= |log| <= batches + stopped
  }

  ghost predicate FleetInv(c: Config, ranges: seq<Range>, t: Table, f: Fleet)
    requires c.batchSize >= 1
  {
    && |f.offset| == |f.reach| == |ranges|
    && LoopsInv(c, ranges, f)
    && TableInv(ranges, f.reach, t, f.rows, f.log)
    && FleetCounts(c, ranges, f)
  }

  lemma FleetStart(c: Config, ranges: seq<Range>, t: Table)
    requires c.batchSize >= 1
    ensures FleetInv(c, ranges, t, StartFleet(ranges, t))
  {
    var f := StartFleet(ranges, t);
    assert RowsLeft(ranges, f.offset) == Sizes(ranges);
    assert BatchesLeft(c, ranges, f.offset) == BatchSizes(c, ranges);
  }

  /** A batch covers exactly the ids it names, none of which was covered before. */
  lemma CoverageGrows(c: Config, ranges: seq<Range>, total: int, reach: seq<int>, s: nat, id: int)
    requires c.batchSize >= 1 && Tiles(ranges, total) && s < |ranges| == |reach|
    requires ranges[s].minId <= reach[s] <= ranges[s].maxId
    ensures var hi := BatchEnd(c, ranges[s], reach[s]);
            && (IsCovered(ranges, reach[s := reach[s] + c.batchSize], id) <==>
                  IsCovered(ranges, reach, id) || reach[s] <= id < hi)
            && (reach[s] <= id < hi ==> !IsCovered(ranges, reach, id))
  {
    var after := reach[s := reach[s] + c.batchSize];
    var hi := BatchEnd(c, ranges[s], reach[s]);
    if reach[s] <= id < hi {
      assert InRange(ranges[s], id) && id < after[s];
    }
    if IsCovered(ranges, reach, id) {
      var u :| 0 <= u < |ranges| && InRange(ranges[u], id) && id < reach[u];
      assert InRange(ranges[u], id) && id < after[u];
    }
  }

  /** A committed batch, counted or not. */
  lemma TableStep(c: Config, ranges: seq<Range>, total: int, reach: seq<int>, t: Table, rows: Table,
                  log: seq<(int, int)>, s: nat, lo: int)
    requires c.batchSize >= 1 && Tiles(ranges, total) && s < |ranges| == |reach| && lo == reach[s]
    requires TableInv(ranges, reach, t, rows, log) && ranges[s].minId <= lo <= ranges[s].maxId
    ensures var hi := BatchEnd(c, ranges[s], lo);
            TableInv(ranges, reach[s := lo + c.batchSize], t, Process(rows, lo, hi), log + [(lo, hi)])
  {
    var hi := BatchEnd(c, ranges[s], lo);
    var after, log' := reach[s := lo + c.batchSize], log + [(lo, hi)];
    forall id
      ensures Hits(log', id) == if IsCovered(ranges, after, id) then 1 else 0
      ensures id in t ==> Process(rows, lo, hi)[id] ==
                          if t[id] == PendingRow && IsCovered(ranges, after, id) then Processed else t[id]
    {
      CoverageGrows(c, ranges, total, reach, s, id);
      assert log'[..|log|] == log;
    }
  }

  lemma CountersStep(c: Config, ranges: seq<Range>, offset: seq<int>, s: nat)
    requires c.batchSize >= 1 && s < |ranges| == |offset|
    requires ranges[s].minId <= offset[s] <= ranges[s].maxId
    ensures var after := offset[s := offset[s] + c.batchSize];
            && BatchEnd(c, ranges[s], offset[s]) - offset[s] + Sum(RowsLeft(ranges, after)) ==
               Sum(RowsLeft(ranges, offset))
            && 1 + Sum(BatchesLeft(c, ranges, after)) == Sum(BatchesLeft(c, ranges, offset))
  {
    var after := offset[s := offset[s] + c.batchSize];
    var left := Remaining(ranges[s], after[s]);
    SumUpdate(RowsLeft(ranges, offset), s, left);
    assert RowsLeft(ranges, after) == RowsLeft(ranges, offset)[s := left];
    SumUpdate(BatchesLeft(c, ranges, offset), s, Batches(left, c.batchSize));
    assert BatchesLeft(c, ranges, after) == BatchesLeft(c, ranges, offset)[s := Batches(left, c.batchSize)];
  }

  lemma LogSnoc(log: seq<(int, int)>, b: (int, int))
    ensures RowsIn(log + [b]) == RowsIn(log) + (b.1 - b.0)
  {
    assert (log + [b])[..|log|] == log;
  }

  lemma OneMore(n: nat, b: int)
    ensures (n + 1) * b == n * b + b
  {
  }

  /** Shard s is at a batch it may still run. */
  ghost predicate HasBatch(ranges: seq<Range>, f: Fleet, s: nat) {
    && s < |ranges| == |f.offset| == |f.reach| && s !in f.halted
    && ranges[s].minId <= f.offset[s] <= ranges[s].maxId && f.reach[s] == f.offset[s]
  }

  lemma CountedStep(c: Config, ranges: seq<Range>, offset: seq<int>, rows: nat, batches: nat,
                    log: seq<(int, int)>, stopped: nat, s: nat)
    requires c.batchSize >= 1 && s < |offset| == |ranges| && CountInv(c, ranges, offset, rows, batches, log, stopped)
    requires ranges[s].minId <= offset[s] <= ranges[s].maxId
    ensures var lo, hi := offset[s], BatchEnd(c, ranges[s], offset[s]);
            && hi >= lo
            && CountInv(c, ranges, offset[s := lo + c.batchSize], rows + (hi - lo), batches + 1, log + [(lo, hi)],
                        stopped)
  {
    CountersStep(c, ranges, offset, s);
    LogSnoc(log, (offset[s], BatchEnd(c, ranges[s], offset[s])));
  }

  lemma StoppedStep(c: Config, ranges: seq<Range>, offset: seq<int>, rows: nat, batches: nat,
                    log: seq<(int, int)>, stopped: nat, b: (int, int))
    requires c.batchSize >= 1 && |offset| == |ranges| && CountInv(c, ranges, offset, rows, batches, log, stopped)
    requires b.0 <= b.1 <= b.0 + c.batchSize
    ensures CountInv(c, ranges, offset, rows, batches, log, stopped + 1)
    ensures CountInv(c, ranges, offset, rows, batches, log + [b], stopped + 1)
  {
    LogSnoc(log, b);
    OneMore(stopped, c.batchSize);
  }

  ghost predicate FleetCounts(c: Config, ranges: seq<Range>, f: Fleet)
    requires c.batchSize >= 1 && |f.offset| == |ranges|
  {
    CountInv(c, ranges, f.offset, f.rowCount, f.batchCount, f.log, |f.halted|)
  }

  lemma CountCounted(c: Config, ranges: seq<Range>, f: Fleet, s: nat)
    requires c.batchSize >= 1 && HasBatch(ranges, f, s) && FleetCounts(c, ranges, f)
    ensures FleetCounts(c, ranges, StepShard(c, ranges, f, Turn(s, Counted)))
  {
    CountedStep(c, ranges, f.offset, f.rowCount, f.batchCount, f.log, |f.halted|, s);
  }

  lemma CountStopped(c: Config, ranges: seq<Range>, f: Fleet, s: nat)
    requires c.batchSize >= 1 && HasBatch(ranges, f, s) && FleetCounts(c, ranges, f)
    ensures FleetCounts(c, ranges, StepShard(c, ranges, f, Turn(s, Uncounted)))
    ensures FleetCounts(c, ranges, StepShard(c, ranges, f, Turn(s, Undone)))
  {
    var lo := f.offset[s];
    assert |f.halted + {s}| == |f.halted| + 1;
    StoppedStep(c, ranges, f.offset, f.rowCount, f.batchCount, f.log, |f.halted|, (lo, BatchEnd(c, ranges[s], lo)));
  }

  lemma LoopsStep(c: Config, ranges: seq<Range>, f: Fleet, turn: Turn)
    requires c.batchSize >= 1 && HasBatch(ranges, f, turn.shard) && LoopsInv(c, ranges, f)
    ensures LoopsInv(c, ranges, StepShard(c, ranges, f, turn))
  {
  }

  lemma CommittedTable(c: Config, ranges: seq<Range>, total: int, t: Table, f: Fleet, s: nat)
    requires c.batchSize >= 1 && Tiles(ranges, total) && HasBatch(ranges, f, s)
    requires TableInv(ranges, f.reach, t, f.rows, f.log)
    ensures var f' := Committed(c, ranges, f, s); TableInv(ranges, f'.reach, t, f'.rows, f'.log)
  {
    TableStep(c, ranges, total, f.reach, t, f.rows, f.log, s, f.offset[s]);
  }

  lemma TurnTable(c: Config, ranges: seq<Range>, f: Fleet, turn: Turn)
    requires c.batchSize >= 1 && HasBatch(ranges, f, turn.shard)
    ensures var f' := StepShard(c, ranges, f, turn);
            var seen := if turn.outcome == Undone then f else Committed(c, ranges, f, turn.shard);
            f'.reach == seen.reach && f'.rows == seen.rows && f'.log == seen.log
  {
  }

  lemma FleetStep(c: Config, ranges: seq<Range>, total: int, t: Table, f: Fleet, turn: Turn)
    requires c.batchSize >= 1 && Tiles(ranges, total) && FleetInv(c, ranges, t, f) && turn.shard < |ranges|
    ensures FleetInv(c, ranges, t, StepShard(c, ranges, f, turn))
  {
    var s := turn.shard;
    if s !in f.halted && f.offset[s] <= ranges[s].maxId {
      assert ShardInv(c, ranges[s], f.offset[s], f.reach[s], false);
      if turn.outcome == Counted { CountCounted(c, ranges, f, s); } else { CountStopped(c, ranges, f, s); }
      LoopsStep(c, ranges, f, turn);
      CommittedTable(c, ranges, total, t, f, s);
      TurnTable(c, ranges, f, turn);
    }
  }

  lemma {:induction false} FleetAlways(c: Config, ranges: seq<Range>, total: int, t: Table, sched: seq<Turn>)
    requires c.batchSize >= 1 && Tiles(ranges, total) && forall k :: 0 <= k < |sched| ==> sched[k].shard < |ranges|
    ensures FleetInv(c, ranges, t, RunFleet(c, ranges, t, sched))
  {
    if sched == [] {
      FleetStart(c, ranges, t);
    } else {
      var front := sched[..|sched| - 1];
      FleetAlways(c, ranges, total, t, front);
      FleetStep(c, ranges, total, t, RunFleet(c, ranges, t, front), sched[|sched| - 1]);
    }
  }

  lemma SizeOfRange(c: Config, i: nat, size: nat)
    requires c.totalRows >= 0 && i < c.shardCount && size == c.totalRows / c.shardCount
    ensures Size(RangeOf(c, i)) == if i == c.shardCount - 1 then c.totalRows - i * size else size
    ensures (i + 1) * size == i * size + size
  {
    assert (i + 1) * size == i * size + size;
    Monotone(i + 1, c.shardCount, size);
    assert size * c.shardCount <= c.totalRows;
  }

  lemma {:induction false} SizesSumTo(c: Config, ranges: seq<Range>, n: nat, size: nat)
    requires c.totalRows >= 0 && c.shardCount >= 1 && |ranges| == c.shardCount && n <= |ranges|
    requires size == c.totalRows / c.shardCount
    requires forall i :: 0 <= i < |ranges| ==> ranges[i] == RangeOf(c, i)
    ensures Sum(Sizes(ranges)[..n]) == if n == |ranges| then c.totalRows else n * size
  {
    if n > 0 {
      SizesSumTo(c, ranges, n - 1, size);
      SizeOfRange(c, n - 1, size);
      SumSnoc(Sizes(ranges), n);
    }
  }

  lemma SumSnoc(xs: seq<nat>, n: nat)
    requires 0 < n <= |xs|
    ensures Sum(xs[..n]) == Sum(xs[..n - 1]) + xs[n - 1]
  {
    assert xs[..n][..n - 1] == xs[..n - 1];
  }

  /** What any schedule leaves, whichever batches fail or are cancelled. */
  ghost predicate Accounted(c: Config, ranges: seq<Range>, t: Table, f: Fleet)
    requires c.batchSize >= 1 && |f.offset| == |ranges|
  {
    // exactly the ids of committed batches are processed, each in one batch and inside 1..total
    && f.rows.Keys == t.Keys
    && (forall id :: id in t ==> f.rows[id] == if t[id] == PendingRow && Hits(f.log, id) > 0 then Processed else t[id])
    && (forall id :: Hits(f.log, id) <= if 1 <= id <= c.totalRows then 1 else 0)
    // the counters lag by at most one batch per shard that stopped
    && f.rowCount <= RowsIn(f.log) <= f.rowCount + |f.halted| * c.batchSize
    && f.batchCount <= |f.log| <= f.batchCount + |f.halted|
    // and say whether all shards finished
    && f.rowCount <= c.totalRows
    && (f.rowCount == c.totalRows <==> Finished(ranges, f))
  }

  lemma CoveredInside(ranges: seq<Range>, total: int, reach: seq<int>, id: int)
    requires Tiles(ranges, total) && |reach| == |ranges| && IsCovered(ranges, reach, id)
    ensures 1 <= id <= total
  {
    assert InSome(ranges, id);
  }

  lemma {:induction false} SumPositive(xs: seq<nat>, i: nat)
    requires i < |xs| && xs[i] > 0
    ensures Sum(xs) > 0
  {
    if i < |xs| - 1 { SumPositive(xs[..|xs| - 1], i); }
  }

  lemma FinishedIffNothingLeft(ranges: seq<Range>, f: Fleet)
    requires |f.offset| == |ranges|
    ensures Finished(ranges, f) <==> Sum(RowsLeft(ranges, f.offset)) == 0
  {
    if Finished(ranges, f) {
      SumZero(RowsLeft(ranges, f.offset));
    } else {
      var s :| 0 <= s < |ranges| && f.offset[s] <= ranges[s].maxId;
      SumPositive(RowsLeft(ranges, f.offset), s);
    }
  }

  /** lo lies a whole number of batches into the range. */
  ghost predicate AtBoundary(c: Config, r: Range, lo: int) { exists k: nat :: lo == r.minId + Multiple(k, c.batchSize) }

  function Multiple(k: nat, n: int): int { k * n }

  lemma BoundaryStart(c: Config, r: Range)
    ensures AtBoundary(c, r, r.minId)
  {
    assert r.minId == r.minId + Multiple(0, c.batchSize);
  }

  lemma BoundaryNext(c: Config, r: Range, lo: int)
    requires AtBoundary(c, r, lo)
    ensures AtBoundary(c, r, lo + c.batchSize)
  {
    var k: nat :| lo == r.minId + Multiple(k, c.batchSize);
    OneMore(k, c.batchSize);
    assert lo + c.batchSize == r.minId + Multiple(k + 1, c.batchSize);
  }

  /** A batch of the range starts at a boundary and is as long as it can be. */
  ghost predicate IsBatch(c: Config, r: Range, b: (int, int)) {
    && AtBoundary(c, r, b.0) && b.0 <= r.maxId
    && b.1 == if b.0 + c.batchSize > r.maxId + 1 then r.maxId + 1 else b.0 + c.batchSize
  }

  ghost predicate OffsetsInv(c: Config, ranges: seq<Range>, f: Fleet)
    requires |f.offset| == |ranges|
  {
    && (forall s :: 0 <= s < |ranges| ==> AtBoundary(c, ranges[s], f.offset[s]))
    && forall b :: b in f.log ==> exists s :: 0 <= s < |ranges| && IsBatch(c, ranges[s], b)
  }

  lemma OffsetsStep(c: Config, ranges: seq<Range>, f: Fleet, turn: Turn)
    requires c.batchSize >= 1 && turn.shard < |ranges| == |f.offset| == |f.reach| && OffsetsInv(c, ranges, f)
    ensures OffsetsInv(c, ranges, StepShard(c, ranges, f, turn))
  {
    var s := turn.shard;
    BoundaryNext(c, ranges[s], f.offset[s]);
    if f.offset[s] <= ranges[s].maxId {
      assert IsBatch(c, ranges[s], (f.offset[s], BatchEnd(c, ranges[s], f.offset[s])));
    }
  }

  lemma {:induction false} BatchesShaped(c: Config, ranges: seq<Range>, t: Table, sched: seq<Turn>)
    requires c.batchSize >= 1 && forall k :: 0 <= k < |sched| ==> sched[k].shard < |ranges|
    ensures OffsetsInv(c, ranges, RunFleet(c, ranges, t, sched))
  {
    if sched == [] {
      forall s | 0 <= s < |ranges| ensures AtBoundary(c, ranges[s], ranges[s].minId) { BoundaryStart(c, ranges[s]); }
    } else {
      var front := sched[..|sched| - 1];
      BatchesShaped(c, ranges, t, front);
      OffsetsStep(c, ranges, RunFleet(c, ranges, t, front), sched[|sched| - 1]);
    }
  }

  /** However the shards' batches interleave and fail, nothing is done twice, nothing outside the
      ranges, and the counters miss at most one batch of each shard that stopped. */
  lemma AnyScheduleAccounted(c: Config, ranges: seq<Range>, t: Table, sched: seq<Turn>)
    requires c.batchSize >= 1 && Tiles(ranges, c.totalRows) && Sum(Sizes(ranges)) == c.totalRows
    requires forall k :: 0 <= k < |sched| ==> sched[k].shard < |ranges|
    ensures Accounted(c, ranges, t, RunFleet(c, ranges, t, sched))
    ensures forall b :: b in RunFleet(c, ranges, t, sched).log ==>
              exists s :: 0 <= s < |ranges| && IsBatch(c, ranges[s], b)
  {
    var f := RunFleet(c, ranges, t, sched);
    BatchesShaped(c, ranges, t, sched);
    FleetAlways(c, ranges, c.totalRows, t, sched);
    FinishedIffNothingLeft(ranges, f);
    forall id ensures Hits(f.log, id) <= if 1 <= id <= c.totalRows then 1 else 0 {
      if IsCovered(ranges, f.reach, id) { CoveredInside(ranges, c.totalRows, f.reach, id); }
    }
  }

  /** Parallel sharding equals one update: however the shards' batches interleave, when all
      have finished the table is that of one pass, every id of 1..total was in exactly one
      batch and no other id in any, rows add up to the total and batches to the ceilings. */
  lemma InterleavingEqualsOnePass(c: Config, ranges: seq<Range>, t: Table, sched: seq<Turn>)
    requires c.batchSize >= 1 && Tiles(ranges, c.totalRows) && Sum(Sizes(ranges)) == c.totalRows
    requires forall k :: 0 <= k < |sched| ==> sched[k].shard < |ranges|
    requires Finished(ranges, RunFleet(c, ranges, t, sched))
    ensures var f := RunFleet(c, ranges, t, sched);
            && f.rows == Process(t, 1, c.totalRows + 1)
            && (forall id :: Hits(f.log, id) == if 1 <= id <= c.totalRows then 1 else 0)
            && f.rowCount == c.totalRows
            && f.batchCount == Sum(BatchSizes(c, ranges))
  {
    var f := RunFleet(c, ranges, t, sched);
    FleetAlways(c, ranges, c.totalRows, t, sched);
    FinishedCovers(c, ranges, f);
    FinishedRows(c, ranges, t, f);
    SumZero(RowsLeft(ranges, f.offset));
    SumZero(BatchesLeft(c, ranges, f.offset));
  }

  lemma FinishedCovers(c: Config, ranges: seq<Range>, f: Fleet)
    requires Tiles(ranges, c.totalRows) && |f.offset| == |f.reach| == |ranges| && Finished(ranges, f)
    requires LoopsInv(c, ranges, f)
    ensures forall id :: IsCovered(ranges, f.reach, id) <==> 1 <= id <= c.totalRows
  {
    forall id ensures IsCovered(ranges, f.reach, id) <==> 1 <= id <= c.totalRows {
      assert InSome(ranges, id) <==> 1 <= id <= c.totalRows;
    }
  }

  lemma FinishedRows(c: Config, ranges: seq<Range>, t: Table, f: Fleet)
    requires |f.reach| == |ranges| && TableInv(ranges, f.reach, t, f.rows, f.log)
    requires forall id :: IsCovered(ranges, f.reach, id) <==> 1 <= id <= c.totalRows
    ensures f.rows == Process(t, 1, c.totalRows + 1)
    ensures forall id :: Hits(f.log, id) == if 1 <= id <= c.totalRows then 1 else 0
  {
    forall id | id in t ensures f.rows[id] == Process(t, 1, c.totalRows + 1)[id] {
      assert IsCovered(ranges, f.reach, id) <==> 1 <= id <= c.totalRows;
    }
  }
}
