/** The worker pool: a bounded queue, a fixed set of workers, and a stop that cancels and
    closes. A run is any interleaving of the atomic steps below. */
module Pool {
  import opened Options
  import opened Storage

  /** taken is every job a worker ever received, in order; done those whose run returned. */
  datatype State = State(workers: nat, queue: seq<Id>, busy: map<nat, Id>, gone: set<nat>,
                         cancelled: bool, closed: bool, submitted: seq<Id>, taken: seq<Id>, done: seq<Id>)

  datatype Step =
    | Submit(id: Id)      // blocks while the queue is full, panics once it is closed
    | Take(w: nat)        // worker w wins its select on the queue
    | Finish(w: nat)      // its run returns
    | Leave(w: nat)       // worker w sees the cancellation or the closed, empty queue
    | Cancel | Close      // the two halves of Stop

  function NewPool(workers: int): State {
    State(if workers <= 0 then 1 else workers, [], map[], {}, false, false, [], [], [])
  }

  predicate Idle(p: State, w: nat) { w < p.workers && w !in p.busy && w !in p.gone }

  /** None when the step is not possible in this state. */
  function After(p: State, s: Step): Option<State> {
    match s
    case Submit(id) =>
      if p.closed || |p.queue| >= 2 * p.workers then None
      else Some(p.(queue := p.queue + [id], submitted := p.submitted + [id]))
    case Take(w) =>
      if !Idle(p, w) || p.queue == [] then None
      else Some(p.(queue := p.queue[1..], busy := p.busy[w := p.queue[0]], taken := p.taken + [p.queue[0]]))
    case Finish(w) =>
      if w !in p.busy then None
      else Some(p.(busy := p.busy - {w}, done := p.done + [p.busy[w]]))
    case Leave(w) =>
      if !Idle(p, w) || !(p.cancelled || (p.closed && p.queue == [])) then None
      else Some(p.(gone := p.gone + {w}))
    case Cancel => if p.cancelled then None else Some(p.(cancelled := true))
    case Close => if p.closed || !p.cancelled then None else Some(p.(closed := true))
  }

  function Play(p0: State, steps: seq<Step>): Option<State> {
    if steps == [] then Some(p0)
    else match Play(p0, steps[..|steps| - 1])
      case None => None
      case Some(p) => After(p, steps[|steps| - 1])
  }

  /** The pool as an object, one method per atomic step; ok is false when a goroutine in
      that position would block or the step makes no sense. */
  class WorkerPool {
    var workers: nat
    var jobs: seq<Id>
    var running: map<nat, Id>
    var stopped: set<nat>
    var cancelled: bool
    var closed: bool
    ghost var submitted: seq<Id>
    ghost var taken: seq<Id>
    ghost var done: seq<Id>

    constructor (n: int)
      ensures Abs() == NewPool(n)
    {
      workers := if n <= 0 then 1 else n;
      jobs, running, stopped := [], map[], {};
      cancelled, closed := false, false;
      submitted, taken, done := [], [], [];
    }

    ghost function Abs(): State
      reads this
    {
      State(workers, jobs, running, stopped, cancelled, closed, submitted, taken, done)
    }

    method Submit(id: Id) returns (ok: bool)
      modifies this
      ensures ok <==> !old(closed) && |old(jobs)| < 2 * old(workers)
      ensures Abs() == if ok then old(Abs()).(queue := old(jobs) + [id], submitted := old(submitted) + [id])
                       else old(Abs())
      ensures ok <==> After(old(Abs()), Step.Submit(id)).Some?
      ensures ok ==> After(old(Abs()), Step.Submit(id)) == Some(Abs())
    {
      ok := !closed && |jobs| < 2 * workers;
      if ok {
        jobs := jobs + [id];
        submitted := submitted + [id];
      }
    }

    /** One turn of worker w's loop: its select picks freely among the ready cases. It takes the
        oldest job, leaves after the cancellation or from a closed and empty queue, or has to wait. */
    method Turn(w: nat, preferDone: bool) returns (ghost s: Option<Step>)
      requires w < workers && w !in running && w !in stopped
      modifies this
      ensures s.Some? ==> After(old(Abs()), s.value) == Some(Abs())
      ensures match s
              case None => Abs() == old(Abs()) && old(jobs) == [] && !old(cancelled) && !old(closed)
              case Some(step) =>
                if old(jobs) != [] && !(old(cancelled) && preferDone) then
                  && step == Take(w) && jobs == old(jobs)[1..] && running == old(running)[w := old(jobs)[0]]
                  && taken == old(taken) + [old(jobs)[0]] && stopped == old(stopped)
                else
                  && step == Leave(w) && (old(cancelled) || (old(closed) && old(jobs) == []))
                  && stopped == old(stopped) + {w} && jobs == old(jobs) && running == old(running)
    {
      if cancelled && (preferDone || jobs == []) {
        stopped := stopped + {w};
        s := Some(Leave(w));
      } else if |jobs| > 0 {
        running := running[w := jobs[0]];
        taken := taken + [jobs[0]];
        jobs := jobs[1..];
        s := Some(Take(w));
      } else if closed {
        stopped := stopped + {w};
        s := Some(Leave(w));
      } else {
        s := None;
      }
    }

    /** The runner returned, with or without an error. */
    method RunReturned(w: nat)
      requires w in running
      modifies this
      ensures After(old(Abs()), Finish(w)) == Some(Abs())
      ensures Abs() == old(Abs()).(busy := old(running) - {w}, done := old(done) + [old(running)[w]])
    {
      done := done + [running[w]];
      running := running - {w};
    }

    /** The part of Stop before it waits for the workers. */
    method Stop()
      requires !cancelled && !closed
      modifies this
      ensures Play(old(Abs()), [Cancel, Close]) == Some(Abs())
      ensures Abs() == old(Abs()).(cancelled := true, closed := true)
    {
      ghost var p := Abs();
      cancelled := true;
      closed := true;
      assert [Cancel, Close][..1] == [Cancel] && [Cancel][..0] == [];
      assert Play(p, [Cancel]) == After(p, Cancel);
    }
  }

  /** How many workers are running job id. */
  function Drivers(p: State, id: Id): set<nat> { DriversIn(p.busy, id) }

  function DriversIn(busy: map<nat, Id>, id: Id): set<nat> { set w | w in busy && busy[w] == id }

  function Times(s: seq<Id>, id: Id): nat { multiset(s)[id] }

  ghost predicate Conserved(p: State) {
    && p.submitted == p.taken + p.queue
    && |p.queue| <= 2 * p.workers
    && (forall w :: w in p.busy ==> w < p.workers && w !in p.gone)
    && (forall id :: Times(p.taken, id) == Times(p.done, id) + |Drivers(p, id)|)
  }

  lemma DriversTake(busy: map<nat, Id>, w: nat, job: Id, id: Id)
    requires w !in busy
    ensures |DriversIn(busy[w := job], id)| == |DriversIn(busy, id)| + if id == job then 1 else 0
  {
    assert DriversIn(busy[w := job], id) == DriversIn(busy, id) + if id == job then {w} else {};
  }

  lemma DriversFinish(busy: map<nat, Id>, w: nat, id: Id)
    requires w in busy
    ensures |DriversIn(busy, id)| == |DriversIn(busy - {w}, id)| + if id == busy[w] then 1 else 0
  {
    assert DriversIn(busy, id) == DriversIn(busy - {w}, id) + if id == busy[w] then {w} else {};
  }

  lemma TimesSnoc(s: seq<Id>, x: Id, id: Id)
    ensures Times(s + [x], id) == Times(s, id) + if id == x then 1 else 0
  {
  }

  lemma TakeKeeps(p: State, w: nat)
    requires Conserved(p) && After(p, Take(w)).Some?
    ensures Conserved(After(p, Take(w)).value)
  {
    var p' := After(p, Take(w)).value;
    var job := p.queue[0];
    assert p.taken + p.queue == p'.taken + p'.queue;
    forall id ensures Times(p'.taken, id) == Times(p'.done, id) + |Drivers(p', id)| {
      TimesSnoc(p.taken, job, id);
      DriversTake(p.busy, w, job, id);
      assert Times(p.taken, id) == Times(p.done, id) + |Drivers(p, id)|;
    }
  }

  lemma FinishKeeps(p: State, w: nat)
    requires Conserved(p) && After(p, Finish(w)).Some?
    ensures Conserved(After(p, Finish(w)).value)
  {
    var p' := After(p, Finish(w)).value;
    forall id ensures Times(p'.taken, id) == Times(p'.done, id) + |Drivers(p', id)| {
      TimesSnoc(p.done, p.busy[w], id);
      DriversFinish(p.busy, w, id);
      assert Times(p.taken, id) == Times(p.done, id) + |Drivers(p, id)|;
    }
  }

  lemma {:induction false} AlwaysConserved(n: int, steps: seq<Step>)
    requires Play(NewPool(n), steps).Some?
    ensures Conserved(Play(NewPool(n), steps).value)
  {
    if steps == [] {
      assert forall id :: Drivers(NewPool(n), id) == {};
    } else {
      var front, s := steps[..|steps| - 1], steps[|steps| - 1];
      AlwaysConserved(n, front);
      var p := Play(NewPool(n), front).value;
      match s
      case Take(w) => TakeKeeps(p, w);
      case Finish(w) => FinishKeeps(p, w);
      case _ => assert forall x :: Drivers(After(p, s).value, x) == Drivers(p, x);
    }
  }

  lemma {:induction false} SubsetCount(a: set<nat>, n: nat)
    requires forall w :: w in a ==> w < n
    ensures |a| <= n
  {
    if n == 0 {
      assert a == {};
    } else {
      SubsetCount(a - {n - 1}, n - 1);
    }
  }

  /** The pool has as many workers as configured, and one if that is not positive. */
  function PoolSize(n: int): nat { if n <= 0 then 1 else n }

  /** No lost migration: in every interleaving each submitted id is queued, running or done,
      as often as it was submitted; jobs start in submission order; at most n run and at most
      2 * n wait. */
  lemma NothingLost(n: int, steps: seq<Step>, id: Id)
    requires Play(NewPool(n), steps).Some?
    ensures var p := Play(NewPool(n), steps).value;
            && Times(p.submitted, id) == Times(p.queue, id) + |Drivers(p, id)| + Times(p.done, id)
            && p.taken <= p.submitted
            && |p.busy.Keys| <= PoolSize(n) && |p.queue| <= 2 * PoolSize(n)
  {
    AlwaysConserved(n, steps);
    WorkersFixed(n, steps);
    var p := Play(NewPool(n), steps).value;
    assert multiset(p.submitted) == multiset(p.taken) + multiset(p.queue);
    SubsetCount(p.busy.Keys, p.workers);
  }

  ghost predicate StopInv(p: State) { (p.gone != {} || p.closed ==> p.cancelled) && p.busy.Keys !! p.gone }

  /** No worker leaves, and the queue is not closed, before the stop; and no worker that left runs. */
  lemma {:induction false} LeavesOnlyAfterStop(n: int, steps: seq<Step>)
    requires Play(NewPool(n), steps).Some?
    ensures StopInv(Play(NewPool(n), steps).value)
  {
    if steps != [] { LeavesOnlyAfterStop(n, steps[..|steps| - 1]); }
  }

  /** All workers can run at once. */
  lemma {:induction false} RunsInParallel(n: int, id: Id, k: nat) returns (steps: seq<Step>)
    requires k <= PoolSize(n)
    ensures var p := NewPool(n);
            && Play(p, steps).Some?
            && (forall w: nat :: w in Play(p, steps).value.busy <==> w < k)
            && Play(p, steps).value.queue == [] && !Play(p, steps).value.closed && Play(p, steps).value.gone == {}
            && Play(p, steps).value.workers == PoolSize(n)
  {
    if k == 0 {
      steps := [];
    } else {
      var before := RunsInParallel(n, id, k - 1);
      var p := Play(NewPool(n), before).value;
      Start(p, id, k - 1);
      PlayConcat(NewPool(n), before, [Submit(id), Take(k - 1)]);
      steps := before + [Submit(id), Take(k - 1)];
    }
  }

  /** No doubled migration: an id submitted once has at most one driver at any time, and none
      once it is done. */
  lemma SubmittedOnceDrivenOnce(n: int, steps: seq<Step>, id: Id)
    requires Play(NewPool(n), steps).Some? && Times(Play(NewPool(n), steps).value.submitted, id) <= 1
    ensures var p := Play(NewPool(n), steps).value;
            && |Drivers(p, id)| <= 1
            && (Times(p.done, id) > 0 ==> Drivers(p, id) == {} && Times(p.queue, id) == 0)
  {
    NothingLost(n, steps, id);
  }

  /* ---------- When one migration can have two drivers ---------- */

  lemma {:induction false} PlayConcat(p: State, a: seq<Step>, b: seq<Step>)
    ensures Play(p, a + b) == match Play(p, a) case None => None case Some(q) => Play(q, b)
  {
    if b == [] {
      assert a + b == a;
    } else {
      PlayConcat(p, a, b[..|b| - 1]);
      assert (a + b)[..|a + b| - 1] == a + b[..|b| - 1];
    }
  }

  /** A moment of a run: a prefix of its steps, with a prefix of its submissions. */
  lemma {:induction false} Moment(p: State, steps: seq<Step>, k: nat)
    requires k <= |steps| && Play(p, steps).Some?
    ensures Play(p, steps[..k]).Some? && Play(p, steps[..k]).value.submitted <= Play(p, steps).value.submitted
  {
    if k == |steps| {
      assert steps[..k] == steps;
    } else {
      var front := steps[..|steps| - 1];
      Moment(p, front, k);
      assert front[..k] == steps[..k];
      StepSubmits(Play(p, front).value, steps[|steps| - 1]);
    }
  }

  lemma StepSubmits(p: State, s: Step)
    requires After(p, s).Some?
    ensures p.submitted <= After(p, s).value.submitted
  {
  }

  /** At no moment of any run that submits exactly these migrations has this one two drivers. */
  ghost predicate NeverDoubled(n: int, subs: seq<Id>, id: Id) {
    forall steps: seq<Step>, k: nat | k <= |steps| && Submits(n, steps, subs) ::
      DriversAt(n, steps, k, id) <= 1
  }

  ghost predicate Submits(n: int, steps: seq<Step>, subs: seq<Id>) {
    Play(NewPool(n), steps).Some? && Play(NewPool(n), steps).value.submitted == subs
  }

  function DriversAt(n: int, steps: seq<Step>, k: nat, id: Id): nat
    requires k <= |steps|
  {
    match Play(NewPool(n), steps[..k]) case None => 0 case Some(p) => |Drivers(p, id)|
  }

  lemma OneDriver(n: int, subs: seq<Id>, id: Id, steps: seq<Step>, k: nat)
    requires k <= |steps| && Submits(n, steps, subs) && (PoolSize(n) == 1 || Times(subs, id) <= 1)
    ensures DriversAt(n, steps, k, id) <= 1
  {
    Moment(NewPool(n), steps, k);
    var p := Play(NewPool(n), steps[..k]).value;
    AlwaysConserved(n, steps[..k]);
    if PoolSize(n) == 1 {
      WorkersFixed(n, steps[..k]);
      SubsetCount(Drivers(p, id), 1);
    } else {
      assert subs == p.submitted + subs[|p.submitted|..];
      SubmittedOnceDrivenOnce(n, steps[..k], id);
    }
  }

  lemma {:induction false} WorkersFixed(n: int, steps: seq<Step>)
    requires Play(NewPool(n), steps).Some?
    ensures Play(NewPool(n), steps).value.workers == NewPool(n).workers
  {
    if steps != [] { WorkersFixed(n, steps[..|steps| - 1]); }
  }

  /** An open pool between submissions, with worker w free. */
  predicate Ready(p: State, w: nat) { p.workers >= 1 && !p.closed && p.queue == [] && Idle(p, w) }

  /** The pool after these migrations came and went. */
  function Through(p: State, xs: seq<Id>): State {
    p.(submitted := p.submitted + xs, taken := p.taken + xs, done := p.done + xs)
  }

  function Started(p: State, id: Id, w: nat): State {
    p.(submitted := p.submitted + [id], taken := p.taken + [id], busy := p.busy[w := id])
  }

  lemma Start(p: State, id: Id, w: nat)
    requires Ready(p, w)
    ensures Play(p, [Submit(id), Take(w)]) == Some(Started(p, id, w))
  {
    var steps := [Submit(id), Take(w)];
    assert steps[..1] == [Submit(id)] && [Submit(id)][..0] == [];
    assert Play(p, [Submit(id)]) == After(p, Submit(id));
    assert p.queue + [id] == [id] && [id][1..] == [];
  }

  lemma FinishOne(p: State, w: nat)
    requires w in p.busy
    ensures Play(p, [Finish(w)]) == After(p, Finish(w))
  {
    assert [Finish(w)][..0] == [];
  }

  lemma NothingThrough(p: State)
    ensures Through(p, []) == p
  {
    assert p.submitted + [] == p.submitted && p.taken + [] == p.taken && p.done + [] == p.done;
  }

  lemma ThroughOne(p: State, xs: seq<Id>, w: nat)
    requires Ready(p, w) && xs != []
    ensures var x := xs[|xs| - 1];
            After(Started(Through(p, xs[..|xs| - 1]), x, w), Finish(w)) == Some(Through(p, xs))
  {
    var front, x := xs[..|xs| - 1], xs[|xs| - 1];
    assert xs == front + [x];
    assert p.busy[w := x] - {w} == p.busy;
    assert p.submitted + front + [x] == p.submitted + xs;
    assert p.taken + front + [x] == p.taken + xs;
    assert p.done + front + [x] == p.done + xs;
  }

  /** One worker takes and finishes each of them as it is submitted. */
  lemma {:induction false} Handle(p: State, xs: seq<Id>, w: nat) returns (steps: seq<Step>)
    requires Ready(p, w)
    ensures Play(p, steps) == Some(Through(p, xs))
  {
    if xs == [] {
      steps := [];
      assert Through(p, []) == p by { NothingThrough(p); }
    } else {
      var x := xs[|xs| - 1];
      var before := Handle(p, xs[..|xs| - 1], w);
      var q := Through(p, xs[..|xs| - 1]);
      Start(q, x, w);
      PlayConcat(p, before, [Submit(x), Take(w)]);
      FinishOne(Started(q, x, w), w);
      PlayConcat(p, before + [Submit(x), Take(w)], [Finish(w)]);
      steps := before + [Submit(x), Take(w)] + [Finish(w)];
      ThroughOne(p, xs, w);
    }
  }

  lemma HandleThenStart(p: State, xs: seq<Id>, helper: nat, id: Id, w: nat) returns (steps: seq<Step>)
    requires Ready(p, helper) && Idle(p, w)
    ensures Play(p, steps) == Some(Started(Through(p, xs), id, w))
  {
    var before := Handle(p, xs, helper);
    Start(Through(p, xs), id, w);
    PlayConcat(p, before, [Submit(id), Take(w)]);
    steps := before + [Submit(id), Take(w)];
  }

  lemma FinishBoth(p: State, c: seq<Id>, id: Id) returns (steps: seq<Step>)
    requires p.busy == map[0 := id, 1 := id] && p.workers >= 2 && !p.closed && p.queue == [] && p.gone == {}
    ensures Play(p, steps).Some? && Play(p, steps).value.submitted == p.submitted + c
  {
    var q := After(p, Finish(0)).value;
    FinishOne(p, 0);
    FinishOne(q, 1);
    PlayConcat(p, [Finish(0)], [Finish(1)]);
    var r := After(q, Finish(1)).value;
    var rest := Handle(r, c, 1);
    PlayConcat(p, [Finish(0)] + [Finish(1)], rest);
    steps := [Finish(0)] + [Finish(1)] + rest;
  }

  /** Worker 1 deals with every other migration while worker 0 keeps the first occurrence. */
  lemma TwoDrivers(n: int, a: seq<Id>, b: seq<Id>, c: seq<Id>, id: Id) returns (steps: seq<Step>, k: nat)
    requires PoolSize(n) >= 2
    ensures k <= |steps| && Submits(n, steps, a + [id] + b + [id] + c) && DriversAt(n, steps, k, id) == 2
  {
    var p := NewPool(n);
    var s1 := HandleThenStart(p, a, 1, id, 0);
    var q := Started(Through(p, a), id, 0);
    var s2 := HandleThenStart(q, b, 1, id, 1);
    var r := Started(Through(q, b), id, 1);
    PlayConcat(p, s1, s2);
    assert r.busy == map[0 := id, 1 := id];
    assert Drivers(r, id) == {0, 1};
    var s3 := FinishBoth(r, c, id);
    PlayConcat(p, s1 + s2, s3);
    steps, k := s1 + s2 + s3, |s1 + s2|;
    assert steps[..k] == s1 + s2;
    assert r.submitted == a + [id] + b + [id];
  }

  lemma TwoPlaces(s: seq<Id>, id: Id) returns (i: nat, j: nat)
    requires Times(s, id) >= 2
    ensures i < j < |s| && s[i] == s[j] == id
  {
    assert id in s;
    i :| 0 <= i < |s| && s[i] == id;
    assert s == s[..i] + [id] + s[i + 1..];
    if Times(s[i + 1..], id) >= 1 {
      assert id in s[i + 1..];
      j :| i < j < |s| && s[j] == id;
    } else {
      assert id in s[..i];
      j := i;
      i :| 0 <= i < j && s[i] == id;
    }
  }

  lemma DoubledIfTwice(n: int, subs: seq<Id>, id: Id)
    requires PoolSize(n) >= 2 && Times(subs, id) >= 2
    ensures !NeverDoubled(n, subs, id)
  {
    var i, j := TwoPlaces(subs, id);
    var a, b, c := subs[..i], subs[i + 1..j], subs[j + 1..];
    assert subs == a + [id] + b + [id] + c;
    var steps, k := TwoDrivers(n, a, b, c, id);
  }

  /** One driver per migration is guaranteed exactly when there is one worker or the migration is
      submitted once; submitting the same plan again submits its migration again. */
  lemma OneDriverIff(n: int, subs: seq<Id>, id: Id)
    ensures NeverDoubled(n, subs, id) <==> PoolSize(n) == 1 || Times(subs, id) <= 1
  {
    if PoolSize(n) == 1 || Times(subs, id) <= 1 {
      forall steps: seq<Step>, k: nat | k <= |steps| && Submits(n, steps, subs)
        ensures DriversAt(n, steps, k, id) <= 1
      {
        OneDriver(n, subs, id, steps, k);
      }
    } else {
      DoubledIfTwice(n, subs, id);
    }
  }
}
