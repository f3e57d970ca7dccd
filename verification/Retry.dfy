/** The retry discipline of a rollback pass, read off the execution log it writes. */
module Retry {
  import opened Options
  import opened Ddl

  const MAX_ATTEMPTS := 3

  datatype Attempt = Attempt(stmt: Stmt, ok: bool)

  function Upper(s: string): string {
    seq(|s|, i requires 0 <= i < |s| => if 'a' <= s[i] <= 'z' then s[i] - 'a' + 'A' else s[i])
  }

  predicate Contains(s: string, word: string) {
    word <= s || (s != "" && Contains(s[1..], word))
  }

  /** Statements that must run outside a transaction. */
  predicate IsConcurrently(st: Stmt) {
    st.CreateIndex? || (st.Raw? && Contains(Upper(st.sql), "CONCURRENTLY"))
  }

  lemma {:induction false} ContainsMeaning(s: string, word: string)
    ensures Contains(s, word) <==> exists a: string, b: string :: s == a + word + b
  {
    if word <= s {
      assert s == "" + word + s[|word|..];
    } else if s == "" {
      forall a: string, b: string ensures s != a + word + b { assert |a + word + b| >= |word|; }
    } else {
      ContainsMeaning(s[1..], word);
      if Contains(s[1..], word) {
        var a: string, b: string :| s[1..] == a + word + b;
        assert s == ([s[0]] + a) + word + b;
      }
      if a: string, b: string :| s == a + word + b {
        NothingInFront(a, word, b);
        assert s[1..] == a[1..] + word + b;
      }
    }
  }

  lemma NothingInFront(a: string, word: string, b: string)
    ensures a == "" ==> word <= a + word + b
  {
  }

  /** Creating an index runs concurrently, and so does operator SQL with the word in it, in any case. */
  lemma ConcurrentlyMeaning(st: Stmt)
    ensures IsConcurrently(st) <==>
            || st.CreateIndex?
            || (st.Raw? && exists a: string, b: string :: Upper(st.sql) == a + "CONCURRENTLY" + b)
    ensures st.Raw? ==> |Upper(st.sql)| == |st.sql| && forall i :: 0 <= i < |st.sql| ==>
              Upper(st.sql)[i] == if 'a' <= st.sql[i] <= 'z' then st.sql[i] - ' ' else st.sql[i]
  {
    if st.Raw? { ContainsMeaning(Upper(st.sql), "CONCURRENTLY"); }
  }

  /** Executions and seconds of sleep one call of ExecDDL may use. */
  function SendsPerCall(st: Stmt): nat { if IsConcurrently(st) then 3 else 1 }
  function SleepPerCall(st: Stmt): nat { if IsConcurrently(st) then 3 else 0 }

  /** What k <= 3 calls may use. */
  function Calls(k: nat, each: nat): nat {
    if k == 0 then 0 else if k == 1 then each else if k == 2 then 2 * each else 3 * each
  }

  /** A log written by a disciplined pass over ss: after m successes, f failures of the
      statement now being tried. None for a log no such pass can write. */
  function Replay(ss: seq<Stmt>, log: seq<Attempt>): Option<(nat, nat)> {
    if log == [] then Some((0, 0))
    else
      var a := log[|log| - 1];
      match Replay(ss, log[..|log| - 1])
      case None => None
      case Some((m, f)) =>
        if m >= |ss| || a.stmt != ss[m] || f >= MAX_ATTEMPTS then None
        else if a.ok then Some((m + 1, 0))
        else Some((m, f + 1))
  }

  /** The log of a whole pass: every statement succeeded, or one has failed three times. */
  predicate PassEnds(ss: seq<Stmt>, log: seq<Attempt>, ok: bool) {
    match Replay(ss, log)
    case None => false
    case Some((m, f)) => if ok then m == |ss| && f == 0 else m < |ss| && f == MAX_ATTEMPTS
  }

  function Successes(log: seq<Attempt>): seq<Stmt> {
    if log == [] then []
    else Successes(log[..|log| - 1]) + if log[|log| - 1].ok then [log[|log| - 1].stmt] else []
  }

  /** The statements that succeeded are a prefix of the list in order, and no statement was
      tried more than three times. */
  lemma {:induction false} ReplayMeaning(ss: seq<Stmt>, log: seq<Attempt>)
    requires Replay(ss, log).Some?
    ensures var (m, f) := Replay(ss, log).value;
            && m <= |ss| && f <= MAX_ATTEMPTS && Successes(log) == ss[..m]
            && m <= |log| <= MAX_ATTEMPTS * m + f
  {
    if log != [] { ReplayMeaning(ss, log[..|log| - 1]); }
  }

  /** Statement i + 1 is never attempted before statement i succeeded: each attempt is of the
      statement right after those that have succeeded by then. */
  lemma {:induction false} AttemptsInOrder(ss: seq<Stmt>, log: seq<Attempt>, k: nat)
    requires Replay(ss, log).Some? && k < |log|
    ensures var m := |Successes(log[..k])|; m < |ss| && log[k].stmt == ss[m]
  {
    var front := log[..|log| - 1];
    if k == |front| {
      ReplayMeaning(ss, front);
    } else {
      AttemptsInOrder(ss, front, k);
      assert front[..k] == log[..k];
    }
  }

  function Fails(st: Stmt, f: nat): seq<Attempt> { seq(f, _ => Attempt(st, false)) }

  /** The log of a pass without retries in which the first k statements succeeded. */
  function OnePass(ss: seq<Stmt>, k: nat): seq<Attempt>
    requires k <= |ss|
  {
    Acks(ss[..k]) + if k < |ss| then [Attempt(ss[k], false)] else []
  }

  function Acks(ss: seq<Stmt>): seq<Attempt> {
    seq(|ss|, i requires 0 <= i < |ss| => Attempt(ss[i], true))
  }

  lemma AcksGrow(log: seq<Attempt>, ss: seq<Stmt>, i: nat)
    requires i < |ss|
    ensures log + Acks(ss[..i]) + [Attempt(ss[i], true)] == log + Acks(ss[..i + 1])
    ensures log + Acks(ss[..i]) + [Attempt(ss[i], false)] == log + OnePass(ss, i)
    ensures log + Acks(ss[..|ss|]) == log + OnePass(ss, |ss|)
  {
    assert Acks(ss[..i + 1]) == Acks(ss[..i]) + [Attempt(ss[i], true)];
  }

  /** Executions: only st, at most max of them, and at least one for a success. */
  ghost predicate SentOnly(st: Stmt, max: nat, ok: bool, before: seq<Stmt>, after: seq<Stmt>) {
    && before <= after && |after| <= |before| + max && (ok ==> |after| > |before|)
    && forall i :: |before| <= i < |after| ==> after[i] == st
  }

  lemma SentOneMore(st: Stmt, max: nat, before: seq<Stmt>, after: seq<Stmt>)
    requires SentOnly(st, max, false, before, after)
    ensures SentOnly(st, max + 1, true, before, after + [st])
    ensures SentOnly(st, max + 1, false, before, after)
  {
  }

  /** Sleep after n failed attempts of three: 1 s and 2 s, none after the last. */
  function Backoff(n: nat): nat { if n == 0 then 0 else if n == 1 then 1 else 3 }

  /** What n failed calls for st, and perhaps a successful one, have logged, executed and slept. */
  ghost predicate Tried(st: Stmt, n: nat, ok: bool, log0: seq<Attempt>, log: seq<Attempt>,
                        sent0: seq<Stmt>, sent: seq<Stmt>, slept0: nat, slept: nat) {
    var calls := n + if ok then 1 else 0;
    && log == log0 + Fails(st, n) + (if ok then [Attempt(st, true)] else [])
    && SentOnly(st, Calls(calls, SendsPerCall(st)), ok, sent0, sent)
    && slept0 + Backoff(n) <= slept <= slept0 + Calls(calls, SleepPerCall(st)) + Backoff(n)
  }

  lemma TriedStep(st: Stmt, n: nat, ok: bool, log0: seq<Attempt>, log: seq<Attempt>,
                  sent0: seq<Stmt>, sent1: seq<Stmt>, sent: seq<Stmt>, slept0: nat, slept1: nat, slept: nat)
    requires n < MAX_ATTEMPTS && Tried(st, n, false, log0, log, sent0, sent1, slept0, slept1)
    requires SentOnly(st, SendsPerCall(st), ok, sent1, sent)
    requires var pause := if ok then 0 else Backoff(n + 1) - Backoff(n);
             slept1 + pause <= slept <= slept1 + SleepPerCall(st) + pause
    ensures Tried(st, if ok then n else n + 1, ok, log0, log + [Attempt(st, ok)], sent0, sent, slept0, slept)
  {
    assert Fails(st, n) + [Attempt(st, false)] == Fails(st, n + 1);
    assert log + [Attempt(st, false)] == log0 + Fails(st, n + 1) + [];
  }

  /** Whatever was tried for statement i of a pass whose log starts at base keeps the discipline. */
  lemma TriedReplays(ss: seq<Stmt>, log0: seq<Attempt>, log: seq<Attempt>, base: nat, i: nat, fails: nat, ok: bool)
    requires base <= |log0| && i < |ss| && Replay(ss, log0[base..]) == Some((i, 0))
    requires if ok then fails < MAX_ATTEMPTS else fails == MAX_ATTEMPTS
    requires log == log0 + Fails(ss[i], fails) + if ok then [Attempt(ss[i], true)] else []
    ensures Replay(ss, log[base..]) == Some(if ok then (i + 1, 0) else (i, MAX_ATTEMPTS))
  {
    var before := log0[base..];
    ReplayFails(ss, before, i, fails);
    assert log[base..] == before + Fails(ss[i], fails) + if ok then [Attempt(ss[i], true)] else [];
    if ok {
      ReplaySuccess(ss, before + Fails(ss[i], fails), i, fails);
    } else {
      assert log[base..] == before + Fails(ss[i], fails);
    }
  }

  /** Sleep one pass over ss may use: 3 s per statement, 12 s if it runs concurrently. */
  function SleepBudget(ss: seq<Stmt>): nat {
    if ss == [] then 0 else SleepBudget(ss[..|ss| - 1]) + 3 + MAX_ATTEMPTS * SleepPerCall(ss[|ss| - 1])
  }

  function SendBudget(ss: seq<Stmt>): nat {
    if ss == [] then 0 else SendBudget(ss[..|ss| - 1]) + MAX_ATTEMPTS * SendsPerCall(ss[|ss| - 1])
  }

  /** Each statement adds its share, and a part of a pass stays within the whole. */
  lemma BudgetStep(ss: seq<Stmt>, i: nat)
    requires i < |ss|
    ensures SleepBudget(ss[..i + 1]) == SleepBudget(ss[..i]) + 3 + MAX_ATTEMPTS * SleepPerCall(ss[i])
    ensures SendBudget(ss[..i + 1]) == SendBudget(ss[..i]) + MAX_ATTEMPTS * SendsPerCall(ss[i])
    ensures SleepBudget(ss[..i + 1]) <= SleepBudget(ss) && SendBudget(ss[..i + 1]) <= SendBudget(ss)
  {
    assert ss[..i + 1][..i] == ss[..i];
    BudgetGrows(ss, i + 1);
  }

  lemma {:induction false} BudgetGrows(ss: seq<Stmt>, k: nat)
    requires k <= |ss|
    ensures SleepBudget(ss[..k]) <= SleepBudget(ss) && SendBudget(ss[..k]) <= SendBudget(ss)
    decreases |ss| - k
  {
    if k == |ss| {
      assert ss[..k] == ss;
    } else {
      BudgetGrows(ss, k + 1);
      assert ss[..k + 1][..k] == ss[..k];
    }
  }

  lemma {:induction false} BudgetBounds(ss: seq<Stmt>)
    ensures SleepBudget(ss) <= 12 * |ss| && SendBudget(ss) <= 9 * |ss|
    ensures (forall st :: st in ss ==> !IsConcurrently(st)) ==>
              SleepBudget(ss) == 3 * |ss| && SendBudget(ss) == 3 * |ss|
  {
    if ss != [] {
      var front := ss[..|ss| - 1];
      BudgetBounds(front);
      assert forall st :: st in front ==> st in ss;
    }
  }

  lemma {:induction false} ReplayFails(ss: seq<Stmt>, log: seq<Attempt>, m: nat, f: nat)
    requires Replay(ss, log) == Some((m, 0)) && m < |ss| && f <= MAX_ATTEMPTS
    ensures Replay(ss, log + Fails(ss[m], f)) == Some((m, f))
  {
    if f == 0 {
      assert log + Fails(ss[m], 0) == log;
    } else {
      ReplayFails(ss, log, m, f - 1);
      assert (log + Fails(ss[m], f))[..|log| + f - 1] == log + Fails(ss[m], f - 1);
    }
  }

  lemma ReplaySuccess(ss: seq<Stmt>, log: seq<Attempt>, m: nat, f: nat)
    requires Replay(ss, log) == Some((m, f)) && m < |ss| && f < MAX_ATTEMPTS
    ensures Replay(ss, log + [Attempt(ss[m], true)]) == Some((m + 1, 0))
  {
    assert (log + [Attempt(ss[m], true)])[..|log|] == log;
  }
}
