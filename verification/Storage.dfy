/** The durable record of a migration: its state, checkpoint, terminal flag and event log. */
module Storage {
  import opened Options
  import opened Plan

  datatype State =
    | Pending | Expanding | Backfilling | Verifying | Canary | Cutover | Contracting
    | Done | RollingBack | RolledBack

  /** The happy path; terminal states have no successor. */
  function Next(s: State): Option<State> {
    match s
    case Pending => Some(Expanding)
    case Expanding => Some(Backfilling)
    case Backfilling => Some(Verifying)
    case Verifying => Some(Canary)
    case Canary => Some(Cutover)
    case Cutover => Some(Contracting)
    case Contracting => Some(Done)
    case RollingBack => Some(RolledBack)
    case Done => None
    case RolledBack => None
  }

  predicate IsTerminal(s: State) { s == Done || s == RolledBack }

  /** What a handler leaves behind; only Progress is ever read back. */
  datatype Checkpoint =
    | Empty | Step(state: State) | Expanded(n: nat) | Skipped
    | Progress(lastId: int, rowsDone: int, batchNum: int)
    | Parity(parity: real, sampled: nat)
    | CanaryAt(pct: int) | Breach(pct: int)
    | NotReady | CutoverAbort(parity: real) | Committed(parity: real, rows: nat)
    | Contracted(n: nat) | RolledBackAll(n: nat)

  /** One audit row; from is None only for the row that records the creation. */
  datatype Event = Event(from: Option<State>, to: State)

  datatype Record = Record(state: State, checkpoint: Checkpoint, terminal: bool, events: seq<Event>)

  function Created(initial: State): Record {
    Record(initial, Empty, false, [Event(None, initial)])
  }

  function Saved(r: Record, from: State, to: State, ck: Checkpoint, terminal: bool): Record {
    Record(to, ck, terminal, r.events + [Event(Some(from), to)])
  }

  function Checkpointed(r: Record, state: State, ck: Checkpoint): Record {
    r.(checkpoint := ck, events := r.events + [Event(Some(state), state)])
  }

  type Id = nat

  /** How a transaction ends: one that reports failure may still have committed. */
  datatype Tx = Acknowledged | Unacknowledged | Aborted

  /** The control database. updated holds when each migration's row was last written. */
  class Store {
    var plans: map<Id, MigrationPlan>
    var recs: map<Id, Record>
    var updated: map<Id, int>

    ghost predicate Valid()
      reads this
    {
      plans.Keys == recs.Keys == updated.Keys
    }

    /** One migration per plan id and version; only CreateMigration writes plans. */
    ghost predicate Unique()
      reads this`plans
    {
      forall i, j :: i in plans && j in plans && plans[i].id == plans[j].id && plans[i].version == plans[j].version
        ==> i == j
    }

    constructor ()
      ensures Valid() && Unique() && recs == map[]
    {
      plans, recs, updated := map[], map[], map[];
    }

    /** Submitting the same plan id and version again returns the first migration untouched, and
        a failed submission leaves nothing or the whole of a fresh migration. */
    method CreateMigration(p: MigrationPlan, initial: State, uuid: Id, now: int, tx: Tx) returns (id: Option<Id>)
      requires Valid() && Unique() && uuid !in recs
      modifies this
      ensures Valid() && Unique() && (id.Some? <==> tx == Acknowledged)
      ensures (exists i :: i in old(plans) && old(plans)[i].id == p.id && old(plans)[i].version == p.version) ||
              tx == Aborted ==>
                plans == old(plans) && recs == old(recs) && updated == old(updated)
      ensures tx != Aborted &&
              (forall i :: i in old(plans) ==> old(plans)[i].id != p.id || old(plans)[i].version != p.version) ==>
                && plans == old(plans)[uuid := p] && updated == old(updated)[uuid := now]
                && recs == old(recs)[uuid := Record(initial, Empty, false, [Event(None, initial)])]
      ensures id.Some? ==>
                && id.value in plans && plans[id.value].id == p.id && plans[id.value].version == p.version
                && (id.value == uuid || id.value in old(plans))
    {
      if i :| i in plans && plans[i].id == p.id && plans[i].version == p.version {
        return if tx == Acknowledged then Some(i) else None;
      }
      if tx != Aborted {
        plans := plans[uuid := p];
        recs := recs[uuid := Created(initial)];
        updated := updated[uuid := now];
      }
      return if tx == Acknowledged then Some(uuid) else None;
    }

    method Load(id: Id) returns (found: Option<(MigrationPlan, Record)>)
      requires Valid()
      ensures found == if id in recs then Some((plans[id], recs[id])) else None
    {
      if id in recs { return Some((plans[id], recs[id])); }
      return None;
    }

    method SaveState(id: Id, from: State, to: State, ck: Checkpoint, terminal: bool, now: int, tx: Tx)
      returns (ok: bool)
      requires Valid() && id in recs
      modifies this`recs, this`updated
      ensures Valid() && (ok <==> tx == Acknowledged)
      ensures tx == Aborted ==> recs == old(recs) && updated == old(updated)
      ensures tx != Aborted ==>
                && recs == old(recs)[id := Saved(old(recs)[id], from, to, ck, terminal)]
                && updated == old(updated)[id := now]
    {
      if tx != Aborted {
        recs := recs[id := Saved(recs[id], from, to, ck, terminal)];
        updated := updated[id := now];
      }
      ok := tx == Acknowledged;
    }

    method SaveCheckpoint(id: Id, state: State, ck: Checkpoint, now: int, tx: Tx) returns (ok: bool)
      requires Valid() && id in recs
      modifies this`recs, this`updated
      ensures Valid() && (ok <==> tx == Acknowledged)
      ensures tx == Aborted ==> recs == old(recs) && updated == old(updated)
      ensures tx != Aborted ==>
                && recs == old(recs)[id := Checkpointed(old(recs)[id], state, ck)]
                && updated == old(updated)[id := now]
    {
      if tx != Aborted {
        recs := recs[id := Checkpointed(recs[id], state, ck)];
        updated := updated[id := now];
      }
      ok := tx == Acknowledged;
    }

    /** Every non-terminal migration, once each, the longest untouched first; None when the
        query fails. */
    method FindResumable(failed: bool) returns (found: Option<seq<Id>>)
      requires Valid()
      ensures found.None? <==> failed
      ensures found.Some? ==> forall id :: id in found.value <==> id in recs && !recs[id].terminal
      ensures found.Some? ==> Ordered(found.value, updated)
    {
      if failed { return None; }
      var ids: seq<Id> := [];
      var rest := recs.Keys;
      while rest != {}
        invariant rest <= recs.Keys
        invariant forall id :: id in ids <==> id in recs && id !in rest && !recs[id].terminal
        invariant forall i, id :: 0 <= i < |ids| && id in rest ==> updated[ids[i]] <= updated[id]
        invariant Ordered(ids, updated)
        decreases rest
      {
        ghost var first := Oldest(rest, updated);
        var id :| id in rest && forall x :: x in rest ==> updated[id] <= updated[x];
        rest := rest - {id};
        if !recs[id].terminal { ids := ids + [id]; }
      }
      return Some(ids);
    }
  }

  /** No id twice, in the order of their last writes. */
  ghost predicate Ordered(ids: seq<Id>, updated: map<Id, int>) {
    && (forall i :: 0 <= i < |ids| ==> ids[i] in updated)
    && forall i, j :: 0 <= i < j < |ids| ==> ids[i] != ids[j] && updated[ids[i]] <= updated[ids[j]]
  }

  lemma {:induction false} Oldest(s: set<Id>, updated: map<Id, int>) returns (m: Id)
    requires s != {} && s <= updated.Keys
    ensures m in s && forall x :: x in s ==> updated[m] <= updated[x]
  {
    var a :| a in s;
    m := a;
    if s - {a} != {} {
      var b := Oldest(s - {a}, updated);
      if updated[b] < updated[a] { m := b; }
    }
    assert forall x :: x in s ==> x == a || x in s - {a};
  }
}
