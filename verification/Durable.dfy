/** The durable record: in every reachable configuration the event log is a connected path
    through the lifecycle that ends at the stored state. */
module Durable {
  import opened Options
  import opened Plan
  import opened Storage
  import opened Lifecycle

  /** The lifecycle graph: the happy path, and the two gates that may divert. */
  predicate Edge(a: State, b: State) {
    Next(a) == Some(b) || (b == RollingBack && (a == Canary || a == Cutover))
  }

  /** Transitions still possible; every edge lowers it. */
  function Rank(s: State): nat {
    match s
    case Pending => 7
    case Expanding => 6
    case Backfilling => 5
    case Verifying => 4
    case Canary => 3
    case Cutover => 2
    case Contracting => 1
    case RollingBack => 1
    case Done => 0
    case RolledBack => 0
  }

  lemma EdgeLowersRank(a: State, b: State)
    requires Edge(a, b)
    ensures Rank(b) < Rank(a)
  {
  }

  /** Whatever a handler asks to persist follows an edge. */
  lemma LeavingFollowsEdge(e: Env, c: Conf)
    requires PcFits(e, c) && Leaving(e, c).Some?
    ensures Edge(c.rec.state, Leaving(e, c).value.0)
  {
  }

  predicate IsChange(ev: Event) { ev.from.Some? && ev.from.value != ev.to }

  function Changes(log: seq<Event>): nat {
    if log == [] then 0 else Changes(log[..|log| - 1]) + if IsChange(log[|log| - 1]) then 1 else 0
  }

  /** Each row starts where the one before it ended; only the two handlers that checkpoint
      write self-loops. */
  ghost predicate ConnectedPath(log: seq<Event>) {
    && |log| > 0 && log[0] == Event(None, Pending)
    && forall i :: 0 < i < |log| ==>
         && log[i].from == Some(log[i - 1].to)
         && (Edge(log[i - 1].to, log[i].to) || (log[i].to == log[i - 1].to && log[i].to in {Backfilling, Canary}))
  }

  ghost predicate Consistent(r: Record) {
    && ConnectedPath(r.events)
    && r.events[|r.events| - 1].to == r.state
    && (r.terminal <==> IsTerminal(r.state))
    && Changes(r.events) + Rank(r.state) <= 7
  }

  lemma PathGrows(log: seq<Event>, ev: Event)
    requires ConnectedPath(log) && ev.from == Some(log[|log| - 1].to)
    requires Edge(log[|log| - 1].to, ev.to) || (ev.to == log[|log| - 1].to && ev.to in {Backfilling, Canary})
    ensures ConnectedPath(log + [ev]) && Changes(log + [ev]) == Changes(log) + if IsChange(ev) then 1 else 0
  {
    assert (log + [ev])[..|log|] == log;
  }

  lemma AppendKeeps(r: Record, to: State, r': Record)
    requires Consistent(r)
    requires r'.events == r.events + [Event(Some(r.state), to)] && r'.state == to
    requires r'.terminal <==> IsTerminal(to)
    requires Edge(r.state, to) || (to == r.state && to in {Backfilling, Canary})
    ensures Consistent(r')
  {
    PathGrows(r.events, Event(Some(r.state), to));
    if to != r.state { EdgeLowersRank(r.state, to); }
  }

  lemma RecordStep(e: Env, c: Conf, a: Action)
    requires PcFits(e, c) && Consistent(c.rec) && After(e, c, a).Some?
    ensures Consistent(After(e, c, a).value.rec)
  {
    var c' := After(e, c, a).value;
    match a
    case Save => AppendKeeps(c.rec, c'.rec.state, c'.rec);
    case SaveProgress => AppendKeeps(c.rec, Backfilling, c'.rec);
    case Observe => if !Breaches(e.plan, e.plan.canarySteps[c.pc.i]) { AppendKeeps(c.rec, Canary, c'.rec); }
    case _ =>
  }

  /** Over every run, with crashes, re-entries and foreign writes anywhere. */
  lemma {:induction false} RecordAlwaysConsistent(e: Env, c0: Conf, acts: seq<Action>)
    requires Initial(c0) && Play(e, c0, acts).Some?
    ensures Consistent(Play(e, c0, acts).value.rec)
  {
    if acts == [] {
      assert c0.rec.events[..0] == [];
    } else {
      var front := acts[..|acts| - 1];
      RecordAlwaysConsistent(e, c0, front);
      PcFitsAlways(e, c0, front);
      RecordStep(e, Play(e, c0, front).value, acts[|acts| - 1]);
    }
  }

  lemma {:induction false} ChangesIs(log: seq<Event>)
    ensures Changes(log) == |set i | 0 <= i < |log| && log[i].from.Some? && log[i].from.value != log[i].to|
  {
    if log != [] {
      var front, n := log[..|log| - 1], |log| - 1;
      ChangesIs(front);
      var all := set i | 0 <= i < |log| && log[i].from.Some? && log[i].from.value != log[i].to;
      var some := set i | 0 <= i < |front| && front[i].from.Some? && front[i].from.value != front[i].to;
      assert all == some + if IsChange(log[n]) then {n} else {};
    }
  }

  /** At most seven state changes, however often the driver crashed and started again. */
  lemma AtMostSevenChanges(e: Env, c0: Conf, acts: seq<Action>)
    requires Initial(c0) && Play(e, c0, acts).Some?
    ensures var log := Play(e, c0, acts).value.rec.events;
            |set i | 0 <= i < |log| && log[i].from.Some? && log[i].from.value != log[i].to| <= 7
  {
    RecordAlwaysConsistent(e, c0, acts);
    ChangesIs(Play(e, c0, acts).value.rec.events);
  }

  /** After a crash the migration can be entered again exactly when its row is not terminal;
      a terminal row no driver changes any more. */
  lemma ResumableOrFinal(e: Env, c0: Conf, acts: seq<Action>, a: Action)
    requires Initial(c0) && Play(e, c0, acts).Some?
    ensures var c := Play(e, c0, acts).value;
            && (After(e, c.(pc := Down), Enter).Some? <==> !c.rec.terminal)
            && (c.rec.terminal && After(e, c, a).Some? ==>
                  After(e, c, a).value.rec == c.rec && After(e, c, a).value.sch == c.sch)
  {
    RecordAlwaysConsistent(e, c0, acts);
    PcFitsAlways(e, c0, acts);
  }

  /** After a stop or a crash the ids FindResumable lists are exactly the created migrations
      that have not ended. */
  lemma FoundIffUnfinished(recs: map<Id, Record>, ids: seq<Id>)
    requires forall id :: id in recs ==> Consistent(recs[id])
    requires forall id :: id in ids <==> id in recs && !recs[id].terminal
    ensures forall id :: id in ids <==> id in recs && Next(recs[id].state).Some?
  {
    forall id | id in recs ensures recs[id].terminal <==> Next(recs[id].state).None? {
      assert Consistent(recs[id]);
    }
  }
}
